/** Re-entrant, reference-counted resource claims, backed by the device lease table for devices. */
module Resources {
  import opened Ids
  import opened DeviceLeases
  import opened ResourceBook

  class LeaseResourceCoordinator {
    const backend: DeviceLeaseService?
    const defaultTtl: int
    var claims: Claims
    var refs: Refs
    var issued: nat

    ghost predicate Valid()
      reads this, backend
    {
      && defaultTtl >= 1
      && (backend != null ==> backend.Valid())
      && Sound(claims, refs, issued, TableNow(), BackendIssued())
    }

    ghost function View(): LeaseView
      reads this, backend
    {
      LeaseView(claims, issued, BackendIssued())
    }

    ghost function TableNow(): Option<Table>
      reads backend
    {
      if backend == null then None else Some(backend.leases)
    }

    ghost function BackendIssued(): nat
      reads backend
    {
      if backend == null then 0 else backend.issued
    }

    /** How long a tenure lasts: the lease table decides for the devices it backs. */
    function Lifetime(kind: Kind, ttlSeconds: int): int
    {
      if kind == Device && backend != null then backend.ttl else Max(1, ttlSeconds)
    }

    constructor (deviceLeases: DeviceLeaseService?, defaultTtlSeconds: int)
      requires deviceLeases != null ==> deviceLeases.Valid() && deviceLeases.leases == map[]
      ensures Valid() && claims == map[] && refs == map[] && backend == deviceLeases
      ensures defaultTtl == Max(1, defaultTtlSeconds)
    {
      backend := deviceLeases;
      defaultTtl := Max(1, defaultTtlSeconds);
      claims, refs, issued := map[], map[], 0;
    }

    /** Drops the claims that have run out or that the lease table has dropped, with their counts. */
    method Expire(now: int)
      requires Valid()
      modifies this`claims, this`refs, backend
      ensures Valid()
      ensures claims == LiveClaims(old(claims), now) && refs == LiveRefs(old(refs), old(claims), now)
      ensures BackendIssued() == old(BackendIssued()) && TableNow() == ExpiredTable(old(TableNow()), now)
      ensures TenureStep(old(View()), View())
    {
      hide Sound, Counted, LiveClaims, LiveRefs, WithoutKeys, RefsWithout, Unexpired, TenureStep;
      SoundIsCounted(claims, refs, issued, TableNow(), BackendIssued());
      var expired := ExpiredKeys(now);
      DroppedAreExpired(claims, refs, expired, now);
      ExpiryIsSound(claims, refs, issued, old(TableNow()), BackendIssued(), now);
      ExpiryContinues(claims, now, issued, BackendIssued());
      claims, refs := WithoutKeys(claims, expired), RefsWithout(refs, expired);
      assert TableNow() == ExpiredTable(old(TableNow()), now);
    }

    /** The claims to drop; looking them up also makes the lease table drop its own expired leases. */
    method ExpiredKeys(now: int) returns (expired: set<Key>)
      requires Valid()
      modifies backend
      ensures expired == set k | k in claims && claims[k].expiresAt <= now
      ensures backend != null ==> backend.Valid() && backend.issued == old(backend.issued)
      ensures backend != null ==> backend.leases == Unexpired(old(backend.leases), now)
    {
      hide Sound;
      SoundAgrees(claims, refs, issued, TableNow(), BackendIssued());
      expired := {};
      var rest := claims.Keys;
      ghost var touched := false;
      while rest != {}
        invariant rest <= claims.Keys
        invariant expired == set k | k in claims && k !in rest && claims[k].expiresAt <= now
        invariant backend != null ==> backend.Valid() && backend.issued == old(backend.issued)
        invariant backend != null ==> backend.leases == if touched then Unexpired(old(backend.leases), now) else old(backend.leases)
        invariant backend != null ==> touched || forall k :: k in claims && k !in rest ==> k.kind != Device
      {
        var key :| key in rest;
        var missing := false;
        if key.kind == Device && backend != null {
          var found := backend.Get(key.resourceId, now);
          touched := true;
          missing := found == None;
          assert key == Key(Device, key.resourceId);
        }
        if claims[key].expiresAt <= now || missing {
          expired := expired + {key};
        }
        rest := rest - {key};
      }
      if backend != null && !touched {
        assert forall d :: d in backend.leases ==> Key(Device, d) in claims;
      }
    }

    /** Sets the claim of an owner that nobody stands against. */
    method Claim(request: ResourceRequest, now: int) returns (lease: ResourceLease)
      requires Valid() && WellFormed(request)
      requires request.key in claims ==> claims[request.key].ownerId == request.ownerId
      requires ExpiredTable(TableNow(), now) == TableNow()
      modifies this`claims, this`refs, this`issued, backend
      ensures Valid()
      ensures claims == old(claims)[request.key := lease] && refs == CountUp(old(refs), OwnerOf(lease))
      ensures lease.key == request.key && lease.ownerId == request.ownerId
      ensures lease.expiresAt == now + Lifetime(request.key.kind, request.ttlSeconds)
      ensures request.key in old(claims) ==> lease.token == old(claims)[request.key].token
      ensures request.key !in old(claims) ==> !Handed(lease.token, old(issued), old(BackendIssued()))
      ensures issued >= old(issued) && BackendIssued() >= old(BackendIssued())
    {
      hide Sound, Counted, CountOf;
      var key, owner := request.key, request.ownerId;
      ghost var table := TableNow();
      var token;
      if key in claims {
        IssuerAt(claims, refs, issued, table, BackendIssued(), key);
        token := claims[key].token;
      } else {
        token := Token(Coordinator, issued);
        issued := issued + 1;
      }
      var expiresAt := now + Max(1, request.ttlSeconds);
      if key.kind == Device && backend != null {
        AgreesAt(claims, refs, old(issued), table, BackendIssued(), key);
        var backed := backend.Acquire(key.resourceId, owner, now);
        if backed.Failure? {
          assert false;
        }
        token, expiresAt := backed.value.token, backed.value.expiresAt;
      }
      lease := ResourceLease(key, owner, token, expiresAt);
      ClaimIsSound(claims, refs, old(issued), table, old(BackendIssued()), lease, issued, BackendIssued());
      claims, refs := claims[key := lease], CountUp(refs, OwnerKey(key, owner));
      assert TableNow() == TableWith(table, lease);
    }

    /** Claims the resource for the owner, again if the owner already holds it; refuses any other owner. */
    method Acquire(request: ResourceRequest, now: int) returns (r: Result<ResourceLease, LeaseError>)
      requires Valid()
      modifies this`claims, this`refs, this`issued, backend
      ensures Valid()
      ensures r == Failure(Invalid) <==> !WellFormed(request)
      ensures if r == Failure(Invalid) then claims == old(claims) && refs == old(refs)
        else Acquired(request, LiveClaims(old(claims), now), LiveRefs(old(refs), old(claims), now), r, claims, refs)
      ensures r.Success? ==> r.value.expiresAt == now + Lifetime(request.key.kind, request.ttlSeconds) && r.value.expiresAt > now
      ensures r.Success? && request.key !in LiveClaims(old(claims), now) ==>
          !Handed(r.value.token, old(issued), old(BackendIssued()))
      ensures TenureStep(old(View()), View())
    {
      hide Sound;
      if !WellFormed(request) {
        return Failure(Invalid);
      }
      Expire(now);
      if request.key in claims && claims[request.key].ownerId != request.ownerId {
        return Failure(Conflict(claims[request.key].ownerId));
      }
      ExpiredTwice(old(TableNow()), now);
      var lease := Claim(request, now);
      return Success(lease);
    }

    /** Extends the tenure the lease speaks for; refuses a lease whose tenure has ended. */
    method Renew(lease: ResourceLease, now: int) returns (r: Result<ResourceLease, LeaseError>)
      requires Valid()
      modifies this`claims, this`refs, backend
      ensures Valid()
      ensures refs == LiveRefs(old(refs), old(claims), now)
      ensures r.Success? <==> IsCurrent(LiveClaims(old(claims), now), lease)
      ensures r.Success? ==> r.value == lease.(expiresAt := now + Lifetime(lease.key.kind, defaultTtl)) && r.value.expiresAt > now
      ensures r.Failure? ==> r.error == Gone
      ensures claims == if r.Success? then LiveClaims(old(claims), now)[lease.key := r.value] else LiveClaims(old(claims), now)
      ensures TenureStep(old(View()), View())
    {
      hide Sound;
      Expire(now);
      if !IsCurrent(claims, lease) {
        return Failure(Gone);
      }
      var expiresAt := now + Max(1, defaultTtl);
      ghost var table := TableNow();
      CurrentIsCounted(claims, refs, issued, table, BackendIssued(), lease);
      ExpiredTwice(old(TableNow()), now);
      if lease.key.kind == Device && backend != null {
        assert lease.key == Key(Device, lease.key.resourceId);
        var backed := backend.Renew(lease.key.resourceId, lease.token, now);
        if backed.Failure? {
          assert false;
        }
        expiresAt := backed.value.expiresAt;
      }
      var renewed := lease.(expiresAt := expiresAt);
      RenewalIsSound(claims, refs, issued, table, BackendIssued(), renewed);
      RenewalContinues(old(claims), now, lease, renewed, issued, BackendIssued());
      claims := claims[lease.key := renewed];
      assert TableNow() == TableWith(table, renewed);
      return Success(renewed);
    }

    /** Gives one count back; the last one ends the tenure. A lease whose tenure has ended changes nothing. */
    method Release(lease: ResourceLease) returns (ok: bool)
      requires Valid()
      modifies this`claims, this`refs, backend
      ensures Valid()
      ensures ok <==> IsCurrent(old(claims), lease)
      ensures ok ==> claims == ReleasedClaims(old(claims), old(refs), lease) && refs == ReleasedRefs(old(refs), lease)
      ensures !ok ==> claims == old(claims) && refs == old(refs) && TableNow() == old(TableNow())
      ensures BackendIssued() == old(BackendIssued())
    {
      hide Sound;
      if !IsCurrent(claims, lease) {
        return false;
      }
      ghost var table := TableNow();
      CurrentIsCounted(claims, refs, issued, table, BackendIssued(), lease);
      ReleaseIsSound(claims, refs, issued, table, BackendIssued(), lease);
      var count := CountOf(refs, OwnerOf(lease));
      if count > 1 {
        refs := refs[OwnerOf(lease) := count - 1];
        return true;
      }
      refs := refs - {OwnerOf(lease)};
      claims := claims - {lease.key};
      ok := true;
      if lease.key.kind == Device && backend != null {
        ok := backend.Release(lease.key.resourceId, lease.token);
      }
      assert TableNow() == ReleasedTable(table, old(refs), lease);
    }

    /** Gives back every count of one claim. */
    method Drain(lease: ResourceLease) returns (released: nat)
      requires Valid() && IsCurrent(claims, lease)
      modifies this`claims, this`refs, backend
      ensures Valid()
      ensures claims == old(claims) - {lease.key} && refs == old(refs) - {OwnerOf(lease)}
      ensures released == old(refs)[OwnerOf(lease)]
      ensures BackendIssued() == old(BackendIssued())
    {
      hide Sound;
      released := 0;
      var going := true;
      CurrentIsCounted(claims, refs, issued, TableNow(), BackendIssued(), lease);
      ghost var total := refs[OwnerOf(lease)];
      while going
        invariant Valid() && BackendIssued() == old(BackendIssued())
        invariant going ==> released < total && claims == old(claims)
        invariant going ==> refs == old(refs)[OwnerOf(lease) := total - released]
        invariant !going ==> released == total && claims == old(claims) - {lease.key} && refs == old(refs) - {OwnerOf(lease)}
        decreases total - released, going
      {
        going := Release(lease);
        if going {
          released := released + 1;
          if OwnerOf(lease) !in refs {
            going := false;
          }
        }
      }
    }

    /** Ends all of one owner's claims and leaves everybody else's alone. */
    method ReleaseOwner(ownerId: string) returns (released: nat)
      requires Valid()
      modifies this`claims, this`refs, backend
      ensures Valid()
      ensures claims == ClaimsNotOf(old(claims), ownerId) && refs == RefsNotOf(old(refs), ownerId)
      ensures released == Total(RefsOf(old(refs), ownerId))
      ensures TenureStep(old(View()), View())
    {
      hide Sound;
      released := 0;
      var owned := ClaimsOf(claims, ownerId);
      while owned.Keys != {}
        invariant Valid() && BackendIssued() == old(BackendIssued())
        invariant owned == ClaimsOf(claims, ownerId)
        invariant ClaimsNotOf(claims, ownerId) == ClaimsNotOf(old(claims), ownerId)
        invariant RefsNotOf(refs, ownerId) == RefsNotOf(old(refs), ownerId)
        invariant forall k :: k in claims ==> k in old(claims) && claims[k] == old(claims)[k]
        invariant released + Total(RefsOf(refs, ownerId)) == Total(RefsOf(old(refs), ownerId))
        decreases |owned.Keys|
      {
        var key :| key in owned.Keys;
        SoundIsCounted(claims, refs, issued, TableNow(), BackendIssued());
        CurrentIsCounted(claims, refs, issued, TableNow(), BackendIssued(), owned[key]);
        DrainedOwner(claims, refs, ownerId, key);
        var drained := Drain(owned[key]);
        released := released + drained;
        owned := owned - {key};
      }
      SoundIsCounted(claims, refs, issued, TableNow(), BackendIssued());
      NothingOwned(claims, refs, ownerId);
    }
  }
}
