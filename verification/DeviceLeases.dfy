/** The backing table of short-lived device leases, with lazy expiry. */
module DeviceLeases {
  import opened Ids

  /** Who handed a token out. Serial numbers stand for the random identifiers, which never repeat. */
  datatype Issuer = LeaseTable | Coordinator

  datatype Token = Token(issuer: Issuer, serial: nat)

  datatype DeviceLease = DeviceLease(deviceId: string, ownerId: string, token: Token, expiresAt: int)

  datatype LeaseError = Invalid | Conflict(ownerId: string) | Gone

  type Table = map<string, DeviceLease>

  /** The leases that have not run out at the given time. */
  function Unexpired(t: Table, now: int): Table
  {
    map d | d in t && now < t[d].expiresAt :: t[d]
  }

  function Max(a: int, b: int): int
  {
    if a < b then b else a
  }

  function Min(a: int, b: int): int
  {
    if a < b then a else b
  }

  class DeviceLeaseService {
    const ttl: int
    var leases: Table
    var issued: nat

    ghost predicate Valid()
      reads this
    {
      && 30 <= ttl <= 86_400
      && (forall d :: d in leases ==> leases[d].deviceId == d && d != "" && leases[d].ownerId != "")
      && (forall d :: d in leases ==> leases[d].token.issuer == LeaseTable && leases[d].token.serial < issued)
      && (forall d, e :: d in leases && e in leases && leases[d].token == leases[e].token ==> d == e)
    }

    constructor (ttlSeconds: int)
      ensures Valid() && leases == map[] && issued == 0 && ttl == Max(30, Min(ttlSeconds, 86_400))
    {
      ttl := Max(30, Min(ttlSeconds, 86_400));
      leases := map[];
      issued := 0;
    }

    method Expire(now: int)
      requires Valid()
      modifies this`leases
      ensures Valid() && leases == Unexpired(old(leases), now)
    {
      leases := Unexpired(leases, now);
    }

    /** Re-entrant for the holder; a new tenure gets a token that was never handed out before. */
    method Acquire(deviceId: string, ownerId: string, now: int) returns (r: Result<DeviceLease, LeaseError>)
      requires Valid()
      modifies this
      ensures Valid()
      ensures r == Failure(Invalid) <==> deviceId == "" || ownerId == ""
      ensures r == Failure(Invalid) ==> leases == old(leases)
      ensures r != Failure(Invalid) ==>
        var live := Unexpired(old(leases), now);
        && (r.Failure? <==> deviceId in live && live[deviceId].ownerId != ownerId)
        && (r.Failure? ==> r.error == Conflict(live[deviceId].ownerId) && leases == live)
        && (r.Success? ==> leases == live[deviceId := r.value])
        && (r.Success? ==> r.value.deviceId == deviceId && r.value.ownerId == ownerId && r.value.expiresAt == now + ttl)
        && (r.Success? && deviceId in live ==> r.value.token == live[deviceId].token && issued == old(issued))
        && (r.Success? && deviceId !in live ==> r.value.token == Token(LeaseTable, old(issued)) && issued == old(issued) + 1)
      ensures r.Failure? ==> issued == old(issued)
    {
      if deviceId == "" || ownerId == "" {
        return Failure(Invalid);
      }
      Expire(now);
      if deviceId in leases && leases[deviceId].ownerId != ownerId {
        return Failure(Conflict(leases[deviceId].ownerId));
      }
      var token;
      if deviceId in leases {
        token := leases[deviceId].token;
      } else {
        token := Token(LeaseTable, issued);
        issued := issued + 1;
      }
      var lease := DeviceLease(deviceId, ownerId, token, now + ttl);
      leases := leases[deviceId := lease];
      return Success(lease);
    }

    /** The live lease that carries the token, after dropping the expired ones. */
    method Require(deviceId: string, token: Token, now: int) returns (r: Result<DeviceLease, LeaseError>)
      requires Valid()
      modifies this`leases
      ensures Valid() && leases == Unexpired(old(leases), now)
      ensures r == if deviceId in leases && leases[deviceId].token == token then Success(leases[deviceId]) else Failure(Gone)
    {
      Expire(now);
      if deviceId !in leases || leases[deviceId].token != token {
        return Failure(Gone);
      }
      return Success(leases[deviceId]);
    }

    /** Extends a live tenure without changing its holder or token. */
    method Renew(deviceId: string, token: Token, now: int) returns (r: Result<DeviceLease, LeaseError>)
      requires Valid()
      modifies this`leases
      ensures Valid()
      ensures var live := Unexpired(old(leases), now);
        && (r.Success? <==> deviceId in live && live[deviceId].token == token)
        && (r.Success? ==> r.value == live[deviceId].(expiresAt := now + ttl) && leases == live[deviceId := r.value])
        && (r.Failure? ==> r.error == Gone && leases == live)
    {
      r := Require(deviceId, token, now);
      if r.Success? {
        var renewed := r.value.(expiresAt := now + ttl);
        leases := leases[deviceId := renewed];
        return Success(renewed);
      }
    }

    /** Ends a tenure, but only for the token that holds it. */
    method Release(deviceId: string, token: Token) returns (ok: bool)
      requires Valid()
      modifies this`leases
      ensures Valid()
      ensures ok <==> deviceId in old(leases) && old(leases)[deviceId].token == token
      ensures leases == if ok then old(leases) - {deviceId} else old(leases)
    {
      if deviceId !in leases || leases[deviceId].token != token {
        return false;
      }
      leases := leases - {deviceId};
      return true;
    }

    method Get(deviceId: string, now: int) returns (r: Option<DeviceLease>)
      requires Valid()
      modifies this`leases
      ensures Valid() && leases == Unexpired(old(leases), now)
      ensures r == if deviceId in leases then Some(leases[deviceId]) else None
    {
      Expire(now);
      return if deviceId in leases then Some(leases[deviceId]) else None;
    }
  }
}
