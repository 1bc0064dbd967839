/** Keeping leases in a table of entries, as the workflow runtime and the task orchestrator both do. */
module Keeping {
  import opened Ids
  import opened DeviceLeases
  import opened ResourceBook
  import opened Resources
  import opened Holdings

  /** Two keepers account for every count of the coordinator, and their entries are tied to it. */
  ghost predicate Accounted(c: LeaseResourceCoordinator, ours: Entries, others: Entries)
    reads c, c.backend
  {
    && Conserved(c.claims, c.refs, ours, others)
    && Tied(ours, c.claims, c.issued, c.BackendIssued())
    && Tied(others, c.claims, c.issued, c.BackendIssued())
  }

  lemma AccountedSwap(c: LeaseResourceCoordinator, ours: Entries, others: Entries)
    requires Accounted(c, ours, others)
    ensures Accounted(c, others, ours)
  {
  }

  /** Entries stay tied whatever the coordinator does: a token never passes to another key or owner. */
  lemma TiedStays(entries: Entries, v: LeaseView, w: LeaseView)
    requires TenureStep(v, w) && Tied(entries, v.claims, v.local, v.backed)
    ensures Tied(entries, w.claims, w.local, w.backed)
  {
    forall id, k | id in entries && k in w.claims && entries[id].token == w.claims[k].token
      ensures entries[id].key == k && entries[id].ownerId == w.claims[k].ownerId
    {
      assert Handed(entries[id].token, v.local, v.backed);
    }
    forall id | id in entries ensures Handed(entries[id].token, w.local, w.backed) {
      assert Handed(entries[id].token, v.local, v.backed);
    }
  }

  lemma TiedTake(entries: Entries, id: string, w: LeaseView)
    requires Tied(entries, w.claims, w.local, w.backed)
    ensures Tied(entries - {id}, w.claims, w.local, w.backed)
  {
    forall i | i in entries - {id} ensures Handed((entries - {id})[i].token, w.local, w.backed) {
      assert Handed(entries[i].token, w.local, w.backed);
    }
  }

  lemma TiedPut(entries: Entries, id: string, lease: ResourceLease, w: LeaseView)
    requires Tied(entries, w.claims, w.local, w.backed)
    requires TokensDistinct(w.claims) && TokensIssued(w.claims, w.local, w.backed)
    requires lease.key in w.claims && w.claims[lease.key] == lease
    ensures Tied(entries[id := lease], w.claims, w.local, w.backed)
  {
    var kept := entries[id := lease];
    forall i, k | i in kept && k in w.claims && kept[i].token == w.claims[k].token
      ensures kept[i].key == k && kept[i].ownerId == w.claims[k].ownerId
    {
      assert i == id ==> w.claims[lease.key].token == w.claims[k].token;
    }
    forall i | i in kept ensures Handed(kept[i].token, w.local, w.backed) {
      assert Handed(w.claims[lease.key].token, w.local, w.backed);
      assert i in entries ==> Handed(entries[i].token, w.local, w.backed);
    }
  }

  lemma ReleaseContinues(v: LeaseView, refs: Refs, lease: ResourceLease)
    ensures TenureStep(v, v.(claims := ReleasedClaims(v.claims, refs, lease)))
  {
  }

  lemma SoundTokens(claims: Claims, refs: Refs, local: nat, table: Option<Table>, backed: nat)
    requires Sound(claims, refs, local, table, backed)
    ensures Counted(claims, refs) && TokensDistinct(claims) && TokensIssued(claims, local, backed)
  {
  }

  lemma SubsetTokens(claims: Claims, now: int, local: nat, backed: nat)
    requires TokensDistinct(claims) && TokensIssued(claims, local, backed)
    ensures TokensDistinct(LiveClaims(claims, now)) && TokensIssued(LiveClaims(claims, now), local, backed)
  {
    FewerTokens(claims, LiveClaims(claims, now), local, backed);
  }

  /** A successful request, seen from the entries: the counts stay accounted for once the lease is recorded. */
  lemma RequestConserves(v: LeaseView, refs: Refs, ours: Entries, others: Entries, id: string, now: int,
                         lease: ResourceLease, w: LeaseView, refs': Refs)
    requires Counted(v.claims, refs) && TokensDistinct(v.claims) && TokensIssued(v.claims, v.local, v.backed)
    requires TokensDistinct(w.claims) && TokensIssued(w.claims, w.local, w.backed) && TenureStep(v, w)
    requires Conserved(v.claims, refs, ours, others) && Tied(ours, v.claims, v.local, v.backed) && Tied(others, v.claims, v.local, v.backed)
    requires w.claims == LiveClaims(v.claims, now)[lease.key := lease]
    requires refs' == CountUp(LiveRefs(refs, v.claims, now), OwnerOf(lease))
    requires lease.key in LiveClaims(v.claims, now) ==>
      LiveClaims(v.claims, now)[lease.key].token == lease.token && LiveClaims(v.claims, now)[lease.key].ownerId == lease.ownerId
    requires lease.key !in LiveClaims(v.claims, now) ==> !Handed(lease.token, v.local, v.backed)
    requires lease.ownerId != "" && id !in ours
    ensures Conserved(w.claims, refs', ours[id := lease], others)
    ensures Tied(ours[id := lease], w.claims, w.local, w.backed) && Tied(others, w.claims, w.local, w.backed)
  {
    var live, counts := LiveClaims(v.claims, now), LiveRefs(refs, v.claims, now);
    ExpiryConserves(v.claims, refs, now, ours, others);
    ExpiryIsCounted(v.claims, refs, now);
    SubsetTokens(v.claims, now, v.local, v.backed);
    ExpiryContinues(v.claims, now, v.local, v.backed);
    TiedStays(ours, v, LeaseView(live, v.local, v.backed));
    TiedStays(others, v, LeaseView(live, v.local, v.backed));
    assert Handed(lease.token, w.local, w.backed) by {
      assert Handed(w.claims[lease.key].token, w.local, w.backed);
    }
    assert TokenFits(live, v.local, v.backed, lease, w.local, w.backed);
    TiedStays(ours, v, w);
    TiedStays(others, v, w);
    TiedPut(ours, id, lease, w);
    hide *;
    AcquireConserves(live, counts, v.local, v.backed, ours, others, id, lease, w.local, w.backed);
    FreshIsReplaceable(live, ours, id);
  }

  lemma FreshIsReplaceable(claims: Claims, entries: Entries, id: string)
    requires id !in entries
    ensures Replaceable(claims, entries, id)
  {
  }

  /** Whether a request is granted depends on the claims alone, and a refusal leaves the reason for it in place. */
  lemma RefusalStands(claims: Claims, counts: Refs, request: ResourceRequest, now: int,
                      r: Result<ResourceLease, LeaseError>, claims': Claims, refs': Refs)
    requires if r == Failure(Invalid) then !WellFormed(request)
      else WellFormed(request) && Acquired(request, LiveClaims(claims, now), counts, r, claims', refs')
    ensures r.Success? <==> Grants(claims, request, now)
    ensures r.Failure? ==> !Grants(claims', request, now)
  {
  }

  /** Acquires a lease and records it under a key that holds none; the lease speaks for the claim of now. */
  method Hold(c: LeaseResourceCoordinator, request: ResourceRequest, now: int, id: string, ours: Entries, ghost others: Entries)
    returns (r: Result<ResourceLease, LeaseError>, kept: Entries)
    requires c.Valid() && Accounted(c, ours, others) && id !in ours
    modifies c, c.backend
    ensures c.Valid() && Accounted(c, kept, others)
    ensures kept == if r.Success? then ours[id := r.value] else ours
    ensures r.Success? <==> Grants(old(c.claims), request, now)
    ensures r.Success? ==> r.value.key == request.key && r.value.ownerId == request.ownerId && IsCurrent(c.claims, r.value)
    ensures r.Failure? ==> !Grants(c.claims, request, now)
    ensures r.Failure? && WellFormed(request) ==> r.error == Conflict(LiveClaims(old(c.claims), now)[request.key].ownerId)
    ensures TenureStep(old(c.View()), c.View())
  {
    hide Grants;
    ghost var v, refs, table := c.View(), c.refs, c.TableNow();
    SoundTokens(c.claims, c.refs, c.issued, table, c.BackendIssued());
    r := c.Acquire(request, now);
    RefusalStands(v.claims, LiveRefs(refs, v.claims, now), request, now, r, c.claims, c.refs);
    SoundTokens(c.claims, c.refs, c.issued, c.TableNow(), c.BackendIssued());
    ghost var w := c.View();
    kept := ours;
    if r.Success? {
      kept := ours[id := r.value];
      RequestConserves(v, refs, ours, others, id, now, r.value, w, c.refs);
    } else {
      ExpiryConserves(v.claims, refs, now, ours, others);
      TiedStays(ours, v, w);
      TiedStays(others, v, w);
    }
  }

  /** Takes a lease out of the entries and gives it back; it may have stopped being current. */
  method GiveBack(c: LeaseResourceCoordinator, id: string, ours: Entries, ghost others: Entries) returns (kept: Entries)
    requires c.Valid() && Accounted(c, ours, others) && id in ours
    modifies c, c.backend
    ensures c.Valid() && Accounted(c, kept, others) && kept == ours - {id}
    ensures TenureStep(old(c.View()), c.View())
  {
    ghost var v, refs, table := c.View(), c.refs, c.TableNow();
    SoundTokens(c.claims, c.refs, c.issued, table, c.BackendIssued());
    ReleaseConserves(c.claims, c.refs, ours, others, id);
    var lease := ours[id];
    kept := ours - {id};
    var ok := c.Release(lease);
    ReleaseContinues(v, refs, lease);
    TiedStays(ours, v, c.View());
    TiedTake(ours, id, c.View());
    TiedStays(others, v, c.View());
  }

  // ----- An owner without entries has no claim -----

  /** Nothing either keeper holds is in this owner's name. */
  ghost predicate OwnsNothing(entries: Entries, ownerId: string)
  {
    forall id :: id in entries ==> entries[id].ownerId != ownerId
  }

  /** An owner in whose name neither keeper holds an entry has no claim and no count left in the coordinator. */
  lemma NoEntryNoClaim(c: LeaseResourceCoordinator, ours: Entries, others: Entries, ownerId: string)
    requires c.Valid() && Accounted(c, ours, others)
    requires OwnsNothing(ours, ownerId) && OwnsNothing(others, ownerId)
    ensures forall k :: k in c.claims ==> c.claims[k].ownerId != ownerId
    ensures forall r :: r in c.refs ==> r.ownerId != ownerId
  {
    SoundTokens(c.claims, c.refs, c.issued, c.TableNow(), c.BackendIssued());
    forall k | k in c.claims ensures c.claims[k].ownerId != ownerId {
      var claim := c.claims[k];
      assert CountOf(c.refs, OwnerOf(claim)) > 0;
      if Held(ours, claim.token) > 0 {
        var id :| id in Holders(ours, claim.token);
      } else {
        assert Held(others, claim.token) > 0;
        var id :| id in Holders(others, claim.token);
      }
    }
  }
}
