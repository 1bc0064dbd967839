/** Resource claims and their reference counts as values, and what each change of them keeps true. */
module ResourceBook {
  import opened Ids
  import opened DeviceLeases

  /** The kind of a resource; devices are the kind the lease table backs. */
  datatype Kind = Device | Other(name: string)

  datatype Key = Key(kind: Kind, resourceId: string)

  datatype OwnerKey = OwnerKey(key: Key, ownerId: string)

  datatype ResourceRequest = ResourceRequest(key: Key, ownerId: string, ttlSeconds: int)

  datatype ResourceLease = ResourceLease(key: Key, ownerId: string, token: Token, expiresAt: int)

  type Claims = map<Key, ResourceLease>
  type Refs = map<OwnerKey, nat>

  predicate WellFormed(request: ResourceRequest)
  {
    request.key.kind != Other("") && request.key.resourceId != "" && request.ownerId != "" && request.ttlSeconds >= 1
  }

  function LiveClaims(claims: Claims, now: int): Claims
  {
    map k | k in claims && now < claims[k].expiresAt :: claims[k]
  }

  function LiveRefs(refs: Refs, claims: Claims, now: int): Refs
  {
    map r | r in refs && r.key in LiveClaims(claims, now) :: refs[r]
  }

  /** A request is granted unless it is malformed or somebody else holds the resource. */
  predicate Grants(claims: Claims, request: ResourceRequest, now: int)
  {
    && WellFormed(request)
    && (request.key in LiveClaims(claims, now) ==> LiveClaims(claims, now)[request.key].ownerId == request.ownerId)
  }

  function WithoutKeys(claims: Claims, dropped: set<Key>): Claims
  {
    map k | k in claims && k !in dropped :: claims[k]
  }

  function RefsWithout(refs: Refs, dropped: set<Key>): Refs
  {
    map r | r in refs && r.key !in dropped :: refs[r]
  }

  function OwnerOf(lease: ResourceLease): OwnerKey
  {
    OwnerKey(lease.key, lease.ownerId)
  }

  /** Whether a lease value still speaks for the current claim on its resource. */
  predicate IsCurrent(claims: Claims, lease: ResourceLease)
  {
    lease.key in claims && claims[lease.key].token == lease.token && claims[lease.key].ownerId == lease.ownerId
  }

  /** Every claim is counted at least once, under its owner, and nothing else is counted. */
  ghost predicate Counted(claims: Claims, refs: Refs)
  {
    && (forall k :: k in claims ==> claims[k].key == k && claims[k].ownerId != "" && OwnerOf(claims[k]) in refs)
    && (forall r :: r in refs ==> refs[r] > 0 && r.key in claims && claims[r.key].ownerId == r.ownerId)
  }

  ghost predicate TokensDistinct(claims: Claims)
  {
    forall k, l :: k in claims && l in claims && claims[k].token == claims[l].token ==> k == l
  }

  /** The device claims and the lease table agree on keys, owners, tokens and expiry. */
  ghost predicate Agreement(claims: Claims, leases: Table)
  {
    && (forall d :: Key(Device, d) in claims <==> d in leases)
    && (forall d :: d in leases ==>
         claims[Key(Device, d)] == ResourceLease(Key(Device, d), leases[d].ownerId, leases[d].token, leases[d].expiresAt))
  }

  /** The tokens handed out so far are below these serial numbers. */
  ghost predicate TokensIssued(claims: Claims, local: nat, backed: nat)
  {
    forall k :: k in claims ==> Handed(claims[k].token, local, backed)
  }

  ghost predicate Handed(t: Token, local: nat, backed: nat)
  {
    t.serial < match t.issuer case LeaseTable => backed case Coordinator => local
  }

  /** Device claims carry tokens of the lease table when there is one; all others carry the coordinator's own. */
  ghost predicate IssuersRight(claims: Claims, backed: bool)
  {
    forall k :: k in claims ==> (claims[k].token.issuer == LeaseTable <==> backed && k.kind == Device)
  }

  /** Everything the coordinator keeps true of its claims and counts, together with its lease table, if any. */
  ghost predicate Sound(claims: Claims, refs: Refs, local: nat, table: Option<Table>, backed: nat)
  {
    && Counted(claims, refs)
    && TokensDistinct(claims)
    && TokensIssued(claims, local, backed)
    && IssuersRight(claims, table.Some?)
    && (table.Some? ==> Agreement(claims, table.value))
  }

  ghost function ExpiredTable(table: Option<Table>, now: int): Option<Table>
  {
    if table.None? then None else Some(Unexpired(table.value, now))
  }

  function ClaimsNotOf(claims: Claims, ownerId: string): Claims
  {
    map k | k in claims && claims[k].ownerId != ownerId :: claims[k]
  }

  function RefsNotOf(refs: Refs, ownerId: string): Refs
  {
    map r | r in refs && r.ownerId != ownerId :: refs[r]
  }

  function RefsOf(refs: Refs, ownerId: string): Refs
  {
    map r | r in refs && r.ownerId == ownerId :: refs[r]
  }

  function ClaimsOf(claims: Claims, ownerId: string): Claims
  {
    map k | k in claims && claims[k].ownerId == ownerId :: claims[k]
  }

  /** What draining one claim of an owner does to the parts that are theirs and the parts that are not. */
  lemma DrainedOwner(claims: Claims, refs: Refs, ownerId: string, key: Key)
    requires Counted(claims, refs) && key in claims && claims[key].ownerId == ownerId
    ensures var claims', refs' := claims - {key}, refs - {OwnerOf(claims[key])};
      && ClaimsOf(claims', ownerId) == ClaimsOf(claims, ownerId) - {key}
      && ClaimsNotOf(claims', ownerId) == ClaimsNotOf(claims, ownerId)
      && RefsNotOf(refs', ownerId) == RefsNotOf(refs, ownerId)
      && Total(RefsOf(refs, ownerId)) == refs[OwnerOf(claims[key])] + Total(RefsOf(refs', ownerId))
      && |ClaimsOf(claims', ownerId).Keys| < |ClaimsOf(claims, ownerId).Keys|
  {
    hide *;
    CountedAt(claims, refs, key);
    DrainedClaims(claims, ownerId, key);
    DrainedRefs(refs, ownerId, OwnerOf(claims[key]));
  }

  lemma CountedAt(claims: Claims, refs: Refs, key: Key)
    requires Counted(claims, refs) && key in claims
    ensures OwnerOf(claims[key]) in refs && OwnerOf(claims[key]).ownerId == claims[key].ownerId
  {
  }

  lemma DrainedClaims(claims: Claims, ownerId: string, key: Key)
    requires key in claims && claims[key].ownerId == ownerId
    ensures var claims' := claims - {key};
      && ClaimsOf(claims', ownerId) == ClaimsOf(claims, ownerId) - {key}
      && ClaimsNotOf(claims', ownerId) == ClaimsNotOf(claims, ownerId)
      && |ClaimsOf(claims', ownerId).Keys| < |ClaimsOf(claims, ownerId).Keys|
  {
    assert ClaimsOf(claims - {key}, ownerId) == ClaimsOf(claims, ownerId) - {key};
    assert ClaimsOf(claims - {key}, ownerId).Keys == ClaimsOf(claims, ownerId).Keys - {key};
  }

  lemma DrainedRefs(refs: Refs, ownerId: string, ref: OwnerKey)
    requires ref in refs && ref.ownerId == ownerId
    ensures RefsNotOf(refs - {ref}, ownerId) == RefsNotOf(refs, ownerId)
    ensures Total(RefsOf(refs, ownerId)) == refs[ref] + Total(RefsOf(refs - {ref}, ownerId))
  {
    hide Total;
    assert RefsOf(refs - {ref}, ownerId) == RefsOf(refs, ownerId) - {ref};
    TotalWithout(RefsOf(refs, ownerId), ref);
  }

  lemma NothingOwned(claims: Claims, refs: Refs, ownerId: string)
    requires Counted(claims, refs) && ClaimsOf(claims, ownerId).Keys == {}
    ensures ClaimsNotOf(claims, ownerId) == claims && RefsNotOf(refs, ownerId) == refs
    ensures Total(RefsOf(refs, ownerId)) == 0
  {
    forall k | k in claims ensures claims[k].ownerId != ownerId {
      assert k !in ClaimsOf(claims, ownerId).Keys;
    }
    assert RefsOf(refs, ownerId).Keys == {};
  }

  /** The sum of all counts. */
  ghost function Total(refs: Refs): nat
    decreases |refs.Keys|
  {
    if refs.Keys == {} then 0
    else
      var r :| r in refs.Keys;
      assert (refs - {r}).Keys == refs.Keys - {r};
      refs[r] + Total(refs - {r})
  }

  lemma {:induction false} TotalWithout(refs: Refs, r: OwnerKey)
    requires r in refs
    ensures Total(refs) == refs[r] + Total(refs - {r})
    decreases |refs.Keys|
  {
    var x :| x in refs.Keys && Total(refs) == refs[x] + Total(refs - {x});
    if x != r {
      assert (refs - {x}).Keys == refs.Keys - {x};
      assert (refs - {r}).Keys == refs.Keys - {r};
      TotalWithout(refs - {x}, r);
      TotalWithout(refs - {r}, x);
      assert refs - {x} - {r} == refs - {r} - {x};
    }
  }

  lemma ExpiredTwice(table: Option<Table>, now: int)
    ensures ExpiredTable(ExpiredTable(table, now), now) == ExpiredTable(table, now)
  {
    if table.Some? {
      assert Unexpired(Unexpired(table.value, now), now) == Unexpired(table.value, now);
    }
  }

  function CountOf(refs: Refs, owner: OwnerKey): nat
  {
    if owner in refs then refs[owner] else 0
  }

  function CountUp(refs: Refs, owner: OwnerKey): Refs
  {
    refs[owner := CountOf(refs, owner) + 1]
  }

  /** What releasing the current lease leaves: one count less, and no claim once the last count is gone. */
  function ReleasedClaims(claims: Claims, refs: Refs, lease: ResourceLease): Claims
  {
    if CountOf(refs, OwnerOf(lease)) > 1 then claims else claims - {lease.key}
  }

  function ReleasedRefs(refs: Refs, lease: ResourceLease): Refs
  {
    var count := CountOf(refs, OwnerOf(lease));
    if count > 1 then refs[OwnerOf(lease) := count - 1] else refs - {OwnerOf(lease)}
  }

  ghost function TableWith(table: Option<Table>, lease: ResourceLease): Option<Table>
  {
    if table.Some? && lease.key.kind == Device then
      var d := lease.key.resourceId;
      Some(table.value[d := DeviceLease(d, lease.ownerId, lease.token, lease.expiresAt)])
    else table
  }

  ghost function ReleasedTable(table: Option<Table>, refs: Refs, lease: ResourceLease): Option<Table>
  {
    if table.Some? && lease.key.kind == Device && CountOf(refs, OwnerOf(lease)) <= 1 then
      Some(table.value - {lease.key.resourceId})
    else table
  }

  /** The token of a claim set at its key continues the holder's tenure or was never handed out before. */
  ghost predicate TokenFits(claims: Claims, local: nat, backed: nat, lease: ResourceLease, local': nat, backed': nat)
  {
    && local <= local' && backed <= backed'
    && (lease.key in claims ==> claims[lease.key].ownerId == lease.ownerId && claims[lease.key].token == lease.token)
    && (lease.key !in claims ==> !Handed(lease.token, local, backed) && Handed(lease.token, local', backed'))
  }

  lemma ClaimIsCounted(claims: Claims, refs: Refs, lease: ResourceLease)
    requires Counted(claims, refs) && lease.ownerId != ""
    requires lease.key in claims ==> claims[lease.key].ownerId == lease.ownerId
    ensures Counted(claims[lease.key := lease], CountUp(refs, OwnerOf(lease)))
  {
  }

  lemma ClaimTokens(claims: Claims, local: nat, backed: nat, lease: ResourceLease, local': nat, backed': nat)
    requires TokensDistinct(claims) && TokensIssued(claims, local, backed)
    requires TokenFits(claims, local, backed, lease, local', backed')
    ensures TokensDistinct(claims[lease.key := lease]) && TokensIssued(claims[lease.key := lease], local', backed')
  {
    var next := claims[lease.key := lease];
    forall k | k in next ensures Handed(next[k].token, local', backed') {
      assert k in claims ==> Handed(claims[k].token, local, backed);
    }
    forall k, l | k in next && l in next && next[k].token == next[l].token ensures k == l {
      assert k in claims ==> Handed(claims[k].token, local, backed);
      assert l in claims ==> Handed(claims[l].token, local, backed);
    }
  }

  lemma ClaimAgrees(claims: Claims, table: Option<Table>, lease: ResourceLease)
    requires table.Some? ==> Agreement(claims, table.value)
    ensures TableWith(table, lease).Some? <==> table.Some?
    ensures table.Some? ==> Agreement(claims[lease.key := lease], TableWith(table, lease).value)
  {
    assert lease.key.kind == Device ==> lease.key == Key(Device, lease.key.resourceId);
  }

  lemma ClaimIssuer(claims: Claims, lease: ResourceLease, backed: bool)
    requires IssuersRight(claims, backed) && (lease.token.issuer == LeaseTable <==> backed && lease.key.kind == Device)
    ensures IssuersRight(claims[lease.key := lease], backed)
  {
  }

  /** Setting a claim keeps everything sound. */
  lemma ClaimIsSound(claims: Claims, refs: Refs, local: nat, table: Option<Table>, backed: nat,
                     lease: ResourceLease, local': nat, backed': nat)
    requires Sound(claims, refs, local, table, backed) && lease.ownerId != ""
    requires TokenFits(claims, local, backed, lease, local', backed')
    requires lease.token.issuer == LeaseTable <==> table.Some? && lease.key.kind == Device
    ensures Sound(claims[lease.key := lease], CountUp(refs, OwnerOf(lease)), local', TableWith(table, lease), backed')
  {
    ClaimIsCounted(claims, refs, lease);
    ClaimTokens(claims, local, backed, lease, local', backed');
    ClaimAgrees(claims, table, lease);
    ClaimIssuer(claims, lease, table.Some?);
    hide Counted, TokensDistinct, TokensIssued, Agreement, IssuersRight;
  }

  lemma RenewalIsCounted(claims: Claims, refs: Refs, lease: ResourceLease)
    requires Counted(claims, refs) && IsCurrent(claims, lease)
    ensures Counted(claims[lease.key := lease], refs)
  {
    assert OwnerOf(claims[lease.key]) == OwnerOf(lease);
  }

  /** Extending a tenure keeps everything but its expiry. */
  lemma RenewalIsSound(claims: Claims, refs: Refs, local: nat, table: Option<Table>, backed: nat, lease: ResourceLease)
    requires Sound(claims, refs, local, table, backed) && IsCurrent(claims, lease)
    ensures Sound(claims[lease.key := lease], refs, local, TableWith(table, lease), backed)
  {
    RenewalIsCounted(claims, refs, lease);
    ClaimTokens(claims, local, backed, lease, local, backed);
    ClaimAgrees(claims, table, lease);
    ClaimIssuer(claims, lease, table.Some?);
    hide Counted, TokensDistinct, TokensIssued, Agreement, IssuersRight;
  }

  lemma ReleaseIsCounted(claims: Claims, refs: Refs, lease: ResourceLease)
    requires Counted(claims, refs) && IsCurrent(claims, lease)
    ensures Counted(ReleasedClaims(claims, refs, lease), ReleasedRefs(refs, lease))
  {
    assert OwnerOf(claims[lease.key]) == OwnerOf(lease);
  }

  lemma FewerTokens(claims: Claims, some: Claims, local: nat, backed: nat)
    requires TokensDistinct(claims) && TokensIssued(claims, local, backed)
    requires forall k :: k in some ==> k in claims && some[k] == claims[k]
    ensures TokensDistinct(some) && TokensIssued(some, local, backed)
  {
    forall k | k in some ensures Handed(some[k].token, local, backed) {
      assert Handed(claims[k].token, local, backed);
    }
    forall k, l | k in some && l in some && some[k].token == some[l].token ensures k == l {
      assert claims[k].token == claims[l].token;
    }
  }

  lemma FewerIssuers(claims: Claims, some: Claims, backed: bool)
    requires IssuersRight(claims, backed) && forall k :: k in some ==> k in claims && some[k] == claims[k]
    ensures IssuersRight(some, backed)
  {
  }

  lemma ReleaseAgrees(claims: Claims, leases: Table, key: Key)
    requires Agreement(claims, leases)
    ensures Agreement(claims - {key}, if key.kind == Device then leases - {key.resourceId} else leases)
  {
    assert key.kind == Device ==> key == Key(Device, key.resourceId);
  }

  /** Releasing a current lease keeps everything sound. */
  lemma ReleaseIsSound(claims: Claims, refs: Refs, local: nat, table: Option<Table>, backed: nat, lease: ResourceLease)
    requires Sound(claims, refs, local, table, backed) && IsCurrent(claims, lease)
    ensures Sound(ReleasedClaims(claims, refs, lease), ReleasedRefs(refs, lease), local, ReleasedTable(table, refs, lease), backed)
  {
    var claims' := ReleasedClaims(claims, refs, lease);
    ReleaseIsCounted(claims, refs, lease);
    FewerTokens(claims, claims', local, backed);
    FewerIssuers(claims, claims', table.Some?);
    if table.Some? && CountOf(refs, OwnerOf(lease)) <= 1 {
      ReleaseAgrees(claims, table.value, lease.key);
    }
    hide Counted, TokensDistinct, TokensIssued, Agreement, IssuersRight;
  }

  lemma ExpiryAgrees(claims: Claims, leases: Table, now: int)
    requires Agreement(claims, leases)
    ensures Agreement(LiveClaims(claims, now), Unexpired(leases, now))
  {
  }

  lemma ExpiryIsCounted(claims: Claims, refs: Refs, now: int)
    requires Counted(claims, refs)
    ensures Counted(LiveClaims(claims, now), LiveRefs(refs, claims, now))
  {
  }

  /** Dropping what has run out, on both levels, keeps everything sound. */
  lemma ExpiryIsSound(claims: Claims, refs: Refs, local: nat, table: Option<Table>, backed: nat, now: int)
    requires Sound(claims, refs, local, table, backed)
    ensures Sound(LiveClaims(claims, now), LiveRefs(refs, claims, now), local, ExpiredTable(table, now), backed)
  {
    var live := LiveClaims(claims, now);
    ExpiryIsCounted(claims, refs, now);
    FewerTokens(claims, live, local, backed);
    FewerIssuers(claims, live, table.Some?);
    if table.Some? {
      ExpiryAgrees(claims, table.value, now);
    }
    hide Counted, TokensDistinct, TokensIssued, Agreement, IssuersRight;
  }

  lemma DroppedAreExpired(claims: Claims, refs: Refs, dropped: set<Key>, now: int)
    requires Counted(claims, refs)
    requires dropped == set k | k in claims && claims[k].expiresAt <= now
    ensures WithoutKeys(claims, dropped) == LiveClaims(claims, now)
    ensures RefsWithout(refs, dropped) == LiveRefs(refs, claims, now)
  {
  }

  /** What decides who holds what: the claims, and how many tokens have been handed out. */
  datatype LeaseView = LeaseView(claims: Claims, local: nat, backed: nat)

  /** Between two moments a claim either continues its holder's tenure or carries a token that was unused before. */
  ghost predicate TenureStep(v: LeaseView, w: LeaseView)
  {
    && v.local <= w.local && v.backed <= w.backed
    && forall k :: k in w.claims ==> Continues(v, w.claims[k], k) || !Handed(w.claims[k].token, v.local, v.backed)
  }

  ghost predicate Continues(v: LeaseView, lease: ResourceLease, k: Key)
  {
    k in v.claims && v.claims[k].token == lease.token && v.claims[k].ownerId == lease.ownerId
  }

  lemma SoundIsCounted(claims: Claims, refs: Refs, local: nat, table: Option<Table>, backed: nat)
    requires Sound(claims, refs, local, table, backed)
    ensures Counted(claims, refs)
  {
  }

  /** A current lease is counted under its owner, and the lease table shows it if it is backed. */
  lemma CurrentIsCounted(claims: Claims, refs: Refs, local: nat, table: Option<Table>, backed: nat, lease: ResourceLease)
    requires Sound(claims, refs, local, table, backed) && IsCurrent(claims, lease)
    ensures OwnerOf(claims[lease.key]) == OwnerOf(lease) && OwnerOf(lease) in refs && refs[OwnerOf(lease)] > 0
    ensures table.Some? && lease.key.kind == Device ==>
      var d := lease.key.resourceId;
      d in table.value && table.value[d].token == lease.token && table.value[d].ownerId == lease.ownerId
  {
    assert lease.key.kind == Device ==> lease.key == Key(Device, lease.key.resourceId);
  }

  /** For a device, the lease table says the same about the key as the claims do. */
  lemma AgreesAt(claims: Claims, refs: Refs, local: nat, table: Option<Table>, backed: nat, key: Key)
    requires Sound(claims, refs, local, table, backed) && table.Some? && key.kind == Device
    ensures key in claims <==> key.resourceId in table.value
    ensures key in claims ==>
      table.value[key.resourceId].ownerId == claims[key].ownerId && table.value[key.resourceId].token == claims[key].token
  {
    assert key == Key(Device, key.resourceId);
  }

  lemma IssuerAt(claims: Claims, refs: Refs, local: nat, table: Option<Table>, backed: nat, key: Key)
    requires Sound(claims, refs, local, table, backed) && key in claims
    ensures claims[key].token.issuer == LeaseTable <==> table.Some? && key.kind == Device
  {
  }

  lemma ExpiryContinues(claims: Claims, now: int, local: nat, backed: nat)
    ensures TenureStep(LeaseView(claims, local, backed), LeaseView(LiveClaims(claims, now), local, backed))
  {
  }

  lemma SoundAgrees(claims: Claims, refs: Refs, local: nat, table: Option<Table>, backed: nat)
    requires Sound(claims, refs, local, table, backed)
    ensures table.Some? ==> Agreement(claims, table.value)
  {
  }

  lemma RenewalContinues(claims: Claims, now: int, lease: ResourceLease, renewed: ResourceLease, local: nat, backed: nat)
    requires IsCurrent(LiveClaims(claims, now), lease) && renewed == lease.(expiresAt := renewed.expiresAt)
    ensures TenureStep(LeaseView(claims, local, backed), LeaseView(LiveClaims(claims, now)[lease.key := renewed], local, backed))
  {
  }

  /** The outcome of a well-formed request against the live claims. */
  ghost predicate Acquired(request: ResourceRequest, live: Claims, counts: Refs,
                           r: Result<ResourceLease, LeaseError>, claims': Claims, refs': Refs)
  {
    && (r.Failure? <==> request.key in live && live[request.key].ownerId != request.ownerId)
    && (r.Failure? ==> r.error == Conflict(live[request.key].ownerId) && claims' == live && refs' == counts)
    && (r.Success? ==> claims' == live[request.key := r.value] && refs' == CountUp(counts, OwnerOf(r.value)))
    && (r.Success? ==> r.value.key == request.key && r.value.ownerId == request.ownerId)
    && (r.Success? && request.key in live ==> r.value.token == live[request.key].token)
  }
}
