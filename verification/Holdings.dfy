/** Who holds counted claims: tenures over a whole run, and the entries that account for each count. */
module Holdings {
  import opened Ids
  import opened DeviceLeases
  import opened ResourceBook

  // ----- Tenures over a run -----

  /** A run of the coordinator, seen at successive moments; every method takes a tenure step. */
  ghost predicate IsRun(vs: seq<LeaseView>)
  {
    && (forall i {:trigger StepAt(vs, i)} :: 0 <= i < |vs| - 1 ==> StepAt(vs, i))
    && (forall i :: 0 <= i < |vs| ==> TokensDistinct(vs[i].claims) && TokensIssued(vs[i].claims, vs[i].local, vs[i].backed))
  }

  ghost predicate StepAt(vs: seq<LeaseView>, i: int)
    requires 0 <= i < |vs| - 1
  {
    TenureStep(vs[i], vs[i + 1])
  }

  /** The token was handed out and no claim carries it. */
  ghost predicate Retired(v: LeaseView, t: Token)
  {
    Handed(t, v.local, v.backed) && forall k :: k in v.claims ==> v.claims[k].token != t
  }

  lemma {:induction false} RetiredForever(vs: seq<LeaseView>, t: Token, i: nat, j: nat)
    requires IsRun(vs) && i <= j < |vs| && Retired(vs[i], t)
    ensures Retired(vs[j], t)
    decreases j - i
  {
    if i < j {
      assert StepAt(vs, i);
      RetiredForever(vs, t, i + 1, j);
    }
  }

  /** A tenure that is over at the next moment is over for good. */
  lemma EndedIsRetired(v: LeaseView, w: LeaseView, k: Key)
    requires TenureStep(v, w) && TokensDistinct(v.claims) && TokensIssued(v.claims, v.local, v.backed)
    requires k in v.claims && !(k in w.claims && w.claims[k].token == v.claims[k].token)
    ensures Retired(w, v.claims[k].token)
  {
    assert Handed(v.claims[k].token, v.local, v.backed);
  }

  /** While a claim keeps its token it keeps its owner. */
  lemma TokenKeepsOwner(v: LeaseView, w: LeaseView, lease: ResourceLease)
    requires TenureStep(v, w) && TokensIssued(v.claims, v.local, v.backed) && IsCurrent(v.claims, lease)
    ensures lease.key in w.claims && w.claims[lease.key].token == lease.token ==> IsCurrent(w.claims, lease)
  {
    assert Handed(v.claims[lease.key].token, v.local, v.backed);
  }

  /** A lease that has stopped being current is never current again, so that releasing or renewing it changes no
      later tenure. */
  lemma {:induction false} StaleForever(vs: seq<LeaseView>, lease: ResourceLease, a: nat, b: nat, c: nat)
    requires IsRun(vs) && a <= b <= c < |vs|
    requires IsCurrent(vs[a].claims, lease) && !IsCurrent(vs[b].claims, lease)
    ensures !IsCurrent(vs[c].claims, lease)
    decreases b - a
  {
    assert StepAt(vs, a);
    if IsCurrent(vs[a + 1].claims, lease) {
      StaleForever(vs, lease, a + 1, b, c);
    } else {
      TokenKeepsOwner(vs[a], vs[a + 1], lease);
      EndedIsRetired(vs[a], vs[a + 1], lease.key);
      RetiredForever(vs, lease.token, a + 1, c);
    }
  }

  // ----- Entries account for counts -----

  type Entries = map<string, ResourceLease>

  ghost function Holders(entries: Entries, t: Token): set<string>
  {
    set id | id in entries && entries[id].token == t
  }

  ghost function Held(entries: Entries, t: Token): nat
  {
    |Holders(entries, t)|
  }

  lemma SizeWithout(s: set<string>, x: string)
    ensures |s| == |s - {x}| + if x in s then 1 else 0
  {
    if x in s {
      assert s == (s - {x}) + {x};
    } else {
      assert s == s - {x};
    }
  }

  lemma HeldAfterPut(entries: Entries, id: string, lease: ResourceLease, t: Token)
    ensures Held(entries[id := lease], t) ==
      Held(entries, t) - (if id in entries && entries[id].token == t then 1 else 0) + (if lease.token == t then 1 else 0)
  {
    HoldersAfterPut(entries, id, lease, t);
    hide Holders;
    SizeWithout(Holders(entries, t), id);
    SizeWithout(Holders(entries[id := lease], t), id);
  }

  lemma HoldersAfterPut(entries: Entries, id: string, lease: ResourceLease, t: Token)
    ensures Holders(entries, t) - {id} == Holders(entries[id := lease], t) - {id}
    ensures id in Holders(entries, t) <==> id in entries && entries[id].token == t
    ensures id in Holders(entries[id := lease], t) <==> lease.token == t
  {
    forall x ensures x in Holders(entries, t) - {id} <==> x in Holders(entries[id := lease], t) - {id} {
    }
  }

  lemma HeldAfterTake(entries: Entries, id: string, t: Token)
    ensures Held(entries - {id}, t) == Held(entries, t) - (if id in entries && entries[id].token == t then 1 else 0)
  {
    var before, after := Holders(entries, t), Holders(entries - {id}, t);
    SizeWithout(before, id);
    assert after == before - {id};
  }

  /** Every claim is counted once for each entry, of either keeper, that holds its current token. */
  ghost predicate Conserved(claims: Claims, refs: Refs, ours: Entries, others: Entries)
  {
    forall k :: k in claims ==>
      CountOf(refs, OwnerOf(claims[k])) == Held(ours, claims[k].token) + Held(others, claims[k].token)
  }

  /** An entry that carries the token of a claim is a lease on that claim. */
  ghost predicate Faithful(entries: Entries, claims: Claims)
  {
    forall id, k :: id in entries && k in claims && entries[id].token == claims[k].token ==>
      entries[id].key == k && entries[id].ownerId == claims[k].ownerId
  }

  ghost predicate EntriesIssued(entries: Entries, local: nat, backed: nat)
  {
    forall id :: id in entries ==> Handed(entries[id].token, local, backed)
  }

  /** What ties one keeper's entries to the coordinator. */
  ghost predicate Tied(entries: Entries, claims: Claims, local: nat, backed: nat)
  {
    Faithful(entries, claims) && EntriesIssued(entries, local, backed)
  }

  lemma ExpiryConserves(claims: Claims, refs: Refs, now: int, ours: Entries, others: Entries)
    requires Counted(claims, refs) && Conserved(claims, refs, ours, others)
    ensures Conserved(LiveClaims(claims, now), LiveRefs(refs, claims, now), ours, others)
  {
    var live := LiveClaims(claims, now);
    forall k | k in live
      ensures CountOf(LiveRefs(refs, claims, now), OwnerOf(live[k])) == Held(ours, live[k].token) + Held(others, live[k].token)
    {
      assert OwnerOf(claims[k]).key == k;
    }
  }

  /** No claim carries the token of the entry that is about to be replaced. */
  ghost predicate Replaceable(claims: Claims, entries: Entries, id: string)
  {
    id in entries ==> forall k :: k in claims ==> claims[k].token != entries[id].token
  }

  /** A token that was never handed out is held by nobody. */
  lemma UnheldToken(entries: Entries, local: nat, backed: nat, t: Token)
    requires EntriesIssued(entries, local, backed) && !Handed(t, local, backed)
    ensures Held(entries, t) == 0
  {
    assert Holders(entries, t) == {};
  }

  /** Recording an acquired lease conserves the counts exactly when it does not overwrite an entry that carries the token of
      a claim. */
  lemma AcquireConserves(claims: Claims, refs: Refs, local: nat, backed: nat, ours: Entries, others: Entries,
                         id: string, lease: ResourceLease, local': nat, backed': nat)
    requires Counted(claims, refs) && TokensDistinct(claims) && TokensIssued(claims, local, backed)
    requires Conserved(claims, refs, ours, others) && Tied(ours, claims, local, backed) && Tied(others, claims, local, backed)
    requires TokenFits(claims, local, backed, lease, local', backed') && lease.ownerId != ""
    ensures Conserved(claims[lease.key := lease], CountUp(refs, OwnerOf(lease)), ours[id := lease], others)
       <==> Replaceable(claims, ours, id)
  {
    assert Replaceable(claims[lease.key := lease], ours, id) <==> Replaceable(claims, ours, id) by {
      SameReplaceable(claims, local, backed, ours, id, lease, local', backed');
    }
    var claims', refs', ours' := claims[lease.key := lease], CountUp(refs, OwnerOf(lease)), ours[id := lease];
    ClaimTokens(claims, local, backed, lease, local', backed');
    forall k | k in claims'
      ensures (CountOf(refs', OwnerOf(claims'[k])) == Held(ours', claims'[k].token) + Held(others, claims'[k].token))
         <==> !(id in ours && ours[id].token == claims'[k].token)
    {
      AcquireConservesAt(claims, refs, local, backed, ours, others, id, lease, local', backed', k);
    }
  }

  lemma SameReplaceable(claims: Claims, local: nat, backed: nat, ours: Entries, id: string, lease: ResourceLease, local': nat, backed': nat)
    requires EntriesIssued(ours, local, backed) && TokenFits(claims, local, backed, lease, local', backed')
    ensures Replaceable(claims[lease.key := lease], ours, id) <==> Replaceable(claims, ours, id)
  {
    var claims' := claims[lease.key := lease];
    if id in ours && Replaceable(claims', ours, id) {
      forall k | k in claims ensures claims[k].token != ours[id].token {
        assert k in claims';
      }
    }
  }

  /** An owner's only lease, recorded once; asking for it again under the same key leaves two counts and one entry. */
  lemma OverwritingMiscounts(lease: ResourceLease, id: string)
    requires lease.ownerId != ""
    ensures var claims, refs, ours := map[lease.key := lease], map[OwnerOf(lease) := 1], map[id := lease];
      var n := lease.token.serial + 1;
      && Counted(claims, refs) && TokensDistinct(claims) && TokensIssued(claims, n, n) && TokenFits(claims, n, n, lease, n, n)
      && Tied(ours, claims, n, n) && Conserved(claims, refs, ours, map[])
      && !Conserved(claims[lease.key := lease], CountUp(refs, OwnerOf(lease)), ours[id := lease], map[])
  {
    var claims, refs, ours: Entries := map[lease.key := lease], map[OwnerOf(lease) := 1], map[id := lease];
    assert Holders(ours, lease.token) == {id} && Holders(map[], lease.token) == {};
    assert ours[id := lease] == ours && claims[lease.key := lease] == claims;
    assert CountOf(CountUp(refs, OwnerOf(lease)), OwnerOf(claims[lease.key])) == 2;
    assert Held(ours, lease.token) == 1 && Held(map[], lease.token) == 0;
    hide Holders, Held;
  }

  lemma AcquireConservesAt(claims: Claims, refs: Refs, local: nat, backed: nat, ours: Entries, others: Entries,
                           id: string, lease: ResourceLease, local': nat, backed': nat, k: Key)
    requires Counted(claims, refs) && TokensDistinct(claims) && TokensIssued(claims, local, backed)
    requires Conserved(claims, refs, ours, others) && Tied(ours, claims, local, backed) && Tied(others, claims, local, backed)
    requires TokenFits(claims, local, backed, lease, local', backed')
    requires k in claims[lease.key := lease]
    requires TokensDistinct(claims[lease.key := lease])
    ensures var claim := claims[lease.key := lease][k];
      (CountOf(CountUp(refs, OwnerOf(lease)), OwnerOf(claim)) == Held(ours[id := lease], claim.token) + Held(others, claim.token))
      <==> !(id in ours && ours[id].token == claim.token)
  {
    var claim := claims[lease.key := lease][k];
    HeldAfterPut(ours, id, lease, claim.token);
    if k == lease.key {
      if k in claims {
        assert OwnerOf(claims[k]) == OwnerOf(lease);
      } else {
        UnheldToken(ours, local, backed, lease.token);
        UnheldToken(others, local, backed, lease.token);
        assert OwnerOf(lease) !in refs;
      }
    } else {
      assert claims[lease.key := lease][lease.key] == lease;
      assert OwnerOf(claim) != OwnerOf(lease);
    }
  }

  /** Giving a recorded lease back conserves the counts, whether or not its tenure has already ended. */
  lemma ReleaseConserves(claims: Claims, refs: Refs, ours: Entries, others: Entries, id: string)
    requires Counted(claims, refs) && TokensDistinct(claims) && Conserved(claims, refs, ours, others)
    requires Faithful(ours, claims) && id in ours
    ensures IsCurrent(claims, ours[id]) ==>
      Conserved(ReleasedClaims(claims, refs, ours[id]), ReleasedRefs(refs, ours[id]), ours - {id}, others)
    ensures !IsCurrent(claims, ours[id]) ==> Conserved(claims, refs, ours - {id}, others)
  {
    forall k | k in claims ensures
      Held(ours - {id}, claims[k].token) == Held(ours, claims[k].token) - (if claims[k].token == ours[id].token then 1 else 0)
    {
      HeldAfterTake(ours, id, claims[k].token);
    }
    if IsCurrent(claims, ours[id]) {
      CurrentReleaseConserves(claims, refs, ours, others, id);
    } else {
      forall k | k in claims ensures claims[k].token != ours[id].token {
      }
    }
  }

  lemma CurrentReleaseConserves(claims: Claims, refs: Refs, ours: Entries, others: Entries, id: string)
    requires Counted(claims, refs) && TokensDistinct(claims) && Conserved(claims, refs, ours, others)
    requires id in ours && IsCurrent(claims, ours[id])
    requires forall k :: k in claims ==>
      Held(ours - {id}, claims[k].token) == Held(ours, claims[k].token) - if claims[k].token == ours[id].token then 1 else 0
    ensures Conserved(ReleasedClaims(claims, refs, ours[id]), ReleasedRefs(refs, ours[id]), ours - {id}, others)
  {
    hide Held;
    var lease := ours[id];
    assert OwnerOf(claims[lease.key]) == OwnerOf(lease);
    forall k | k in claims && k != lease.key ensures claims[k].token != lease.token && OwnerOf(claims[k]) != OwnerOf(lease) {
      assert claims[lease.key].token == lease.token;
    }
  }
}
