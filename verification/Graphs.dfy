/** Finite directed graphs given by successor sets: chains, cycles, levels and reachability.
    A task plan uses the edges "depends on", a workflow definition the edges "leads to". */
module Graphs {

  type Graph = map<string, set<string>>

  /** Every edge ends at a node of the graph. */
  ghost predicate Closed(g: Graph)
  {
    forall n, d :: n in g && d in g[n] ==> d in g
  }

  ghost predicate Edge(g: Graph, a: string, b: string)
  {
    a in g && b in g[a]
  }

  ghost predicate Link(g: Graph, p: seq<string>, i: int)
    requires 0 <= i < |p| - 1
  {
    Edge(g, p[i], p[i + 1])
  }

  /** A non-empty walk along edges; a single name is a chain by itself. */
  ghost predicate IsChain(g: Graph, p: seq<string>)
  {
    |p| > 0 && forall i {:trigger Link(g, p, i)} :: 0 <= i < |p| - 1 ==> Link(g, p, i)
  }

  ghost predicate IsCycle(g: Graph, p: seq<string>)
  {
    |p| > 1 && IsChain(g, p) && p[0] == p[|p| - 1]
  }

  ghost predicate Acyclic(g: Graph)
  {
    forall p :: !IsCycle(g, p)
  }

  /** b is reached from a by zero or more edges. */
  ghost predicate Reaches(g: Graph, a: string, b: string)
  {
    exists p :: IsChain(g, p) && p[0] == a && p[|p| - 1] == b
  }

  /** b is reached from a by one or more edges. */
  ghost predicate ReachesProperly(g: Graph, a: string, b: string)
  {
    exists p :: IsChain(g, p) && |p| > 1 && p[0] == a && p[|p| - 1] == b
  }

  /** d is the number of edges on the longest chain that starts at n. */
  ghost predicate IsDepth(g: Graph, n: string, d: nat)
  {
    && (exists p :: IsChain(g, p) && p[0] == n && |p| == d + 1)
    && (forall p :: IsChain(g, p) && p[0] == n ==> |p| <= d + 1)
  }

  /** The number of edges on the longest chain from n; 0 when there is no longest one. */
  ghost function DepthOf(g: Graph, n: string): nat
  {
    if exists d: nat :: IsDepth(g, n, d) then
      var d: nat :| IsDepth(g, n, d); d
    else
      0
  }

  lemma DepthIsUnique(g: Graph, n: string, d: nat, e: nat)
    requires IsDepth(g, n, d) && IsDepth(g, n, e)
    ensures d == e
  {
  }

  /** n is at level 0 or has an edge to the level just below. */
  ghost predicate Supported(g: Graph, level: map<string, nat>, n: string)
    requires n in g && n in level
  {
    level[n] > 0 ==> exists d :: d in g[n] && d in level && level[d] == level[n] - 1
  }

  /** Levels count rounds: each node's edges lead to lower levels, and to the level just below unless it is 0. */
  ghost predicate Leveled(g: Graph, level: map<string, nat>)
  {
    && level.Keys <= g.Keys
    && (forall n, d :: n in level && d in g[n] ==> d in level && level[d] < level[n])
    && (forall n {:trigger Supported(g, level, n)} :: n in level ==> Supported(g, level, n))
  }

  lemma TailIsChain(g: Graph, p: seq<string>)
    requires IsChain(g, p) && |p| > 1
    ensures IsChain(g, p[1..]) && Edge(g, p[0], p[1])
  {
    assert Link(g, p, 0);
    forall i | 0 <= i < |p[1..]| - 1 ensures Link(g, p[1..], i) {
      assert Link(g, p, i + 1);
    }
  }

  lemma {:induction false} ChainFitsLevel(g: Graph, level: map<string, nat>, p: seq<string>)
    requires Leveled(g, level) && IsChain(g, p) && p[0] in level
    ensures |p| <= level[p[0]] + 1
    ensures p[|p| - 1] in level && level[p[|p| - 1]] <= level[p[0]] - (|p| - 1)
    decreases |p|
  {
    if |p| > 1 {
      TailIsChain(g, p);
      ChainFitsLevel(g, level, p[1..]);
    }
  }

  lemma {:induction false} LevelHasChain(g: Graph, level: map<string, nat>, n: string) returns (p: seq<string>)
    requires Leveled(g, level) && n in level
    ensures IsChain(g, p) && p[0] == n && |p| == level[n] + 1
    decreases level[n]
  {
    if level[n] == 0 {
      p := [n];
    } else {
      assert Supported(g, level, n);
      var d :| d in g[n] && d in level && level[d] == level[n] - 1;
      var tail := LevelHasChain(g, level, d);
      p := Prepended(g, n, tail);
    }
  }

  lemma Prepended(g: Graph, n: string, tail: seq<string>) returns (p: seq<string>)
    requires IsChain(g, tail) && Edge(g, n, tail[0])
    ensures IsChain(g, p) && p == [n] + tail
  {
    p := [n] + tail;
    forall i | 0 <= i < |p| - 1 ensures Link(g, p, i) {
      if i > 0 {
        assert Link(g, tail, i - 1);
      }
    }
  }

  lemma Concatenated(g: Graph, p: seq<string>, q: seq<string>) returns (r: seq<string>)
    requires IsChain(g, p) && IsChain(g, q) && p[|p| - 1] == q[0]
    ensures IsChain(g, r) && r == p + q[1..] && r[0] == p[0] && r[|r| - 1] == q[|q| - 1]
  {
    r := p + q[1..];
    forall i | 0 <= i < |r| - 1 ensures Link(g, r, i) {
      if i < |p| - 1 {
        assert Link(g, p, i);
      } else {
        assert Link(g, q, i - |p| + 1);
      }
    }
  }

  /** A level is the length of the longest chain. */
  lemma LevelIsDepth(g: Graph, level: map<string, nat>, n: string)
    requires Leveled(g, level) && n in level
    ensures IsDepth(g, n, level[n]) && DepthOf(g, n) == level[n]
  {
    var p := LevelHasChain(g, level, n);
    forall q | IsChain(g, q) && q[0] == n ensures |q| <= level[n] + 1 {
      ChainFitsLevel(g, level, q);
    }
    assert IsDepth(g, n, level[n]);
    DepthIsUnique(g, n, level[n], DepthOf(g, n));
  }

  lemma LeveledIsAcyclic(g: Graph, level: map<string, nat>)
    requires Leveled(g, level) && level.Keys == g.Keys
    ensures Closed(g) && Acyclic(g)
  {
    forall p ensures !IsCycle(g, p) {
      if IsCycle(g, p) {
        assert Link(g, p, 0);
        ChainFitsLevel(g, level, p);
      }
    }
  }

  ghost predicate StaysIn(g: Graph, next: map<string, string>, n: string)
    requires n in next
  {
    Edge(g, n, next[n]) && next[n] in next
  }

  /** next follows an edge from each node of a set and stays in the set. */
  ghost predicate Wanders(g: Graph, next: map<string, string>)
  {
    forall n {:trigger StaysIn(g, next, n)} :: n in next ==> StaysIn(g, next, n)
  }

  /** A non-empty set in which every node has an edge back into the set holds a cycle. */
  lemma WanderingHasCycle(g: Graph, next: map<string, string>)
    requires next.Keys != {} && Wanders(g, next)
    ensures !Acyclic(g)
  {
    var p := Wander(g, next, |next.Keys| + 1);
    var i, j := Repetition(next.Keys, p);
    var c := p[i..j + 1];
    assert IsChain(g, c) by {
      forall k | 0 <= k < |c| - 1 ensures Link(g, c, k) {
        assert Link(g, p, i + k);
      }
    }
    assert IsCycle(g, c);
  }

  lemma {:induction false} Wander(g: Graph, next: map<string, string>, k: nat) returns (p: seq<string>)
    requires next.Keys != {} && Wanders(g, next) && k > 0
    ensures IsChain(g, p) && |p| == k && forall i :: 0 <= i < k ==> p[i] in next.Keys
  {
    if k == 1 {
      var n :| n in next.Keys;
      p := [n];
    } else {
      var tail := Wander(g, next, k - 1);
      var n := tail[k - 2];
      assert StaysIn(g, next, n);
      p := Concatenated(g, tail, [n, next[n]]);
    }
  }

  /** Pigeonhole: a sequence longer than the set it is drawn from repeats a member. */
  lemma {:induction false} Repetition(s: set<string>, p: seq<string>) returns (i: nat, j: nat)
    requires |p| > |s| && forall k :: 0 <= k < |p| ==> p[k] in s
    ensures i < j < |p| && p[i] == p[j]
    decreases |s|
  {
    var last := p[|p| - 1];
    if k :| 0 <= k < |p| - 1 && p[k] == last {
      return k, |p| - 1;
    }
    i, j := Repetition(s - {last}, p[..|p| - 1]);
  }

  /** All edges of n lead to levels below r. */
  ghost predicate SettledBelow(g: Graph, level: map<string, nat>, n: string, r: nat)
    requires n in g
  {
    forall d :: d in g[n] ==> d in level && level[d] < r
  }

  /** What holds of the levels after r rounds: they are exactly the nodes whose edges were settled in time. */
  ghost predicate LeveledBelow(g: Graph, level: map<string, nat>, r: nat)
  {
    && Leveled(g, level)
    && (forall n :: n in level ==> level[n] < r)
    && (r > 0 ==> forall n {:trigger SettledBelow(g, level, n, r - 1)} :: n in g && SettledBelow(g, level, n, r - 1) ==> n in level)
  }

  ghost function NextRound(g: Graph, level: map<string, nat>, r: nat): map<string, nat>
  {
    map n | n in g && (n in level || SettledBelow(g, level, n, r)) :: if n in level then level[n] else r
  }

  lemma RoundSupports(g: Graph, level: map<string, nat>, r: nat, n: string)
    requires LeveledBelow(g, level, r) && n in NextRound(g, level, r)
    ensures Supported(g, NextRound(g, level, r), n)
  {
    var next := NextRound(g, level, r);
    if n in level {
      assert Supported(g, level, n);
    } else if r > 0 {
      assert !SettledBelow(g, level, n, r - 1);
      var d :| d in g[n] && !(d in level && level[d] < r - 1);
      assert d in level && next[d] == r - 1;
    }
  }

  lemma RoundKeepsOrder(g: Graph, level: map<string, nat>, r: nat, n: string, d: string)
    requires LeveledBelow(g, level, r)
    requires n in NextRound(g, level, r) && d in g[n]
    ensures d in NextRound(g, level, r) && NextRound(g, level, r)[d] < NextRound(g, level, r)[n]
  {
    if n !in level {
      assert SettledBelow(g, level, n, r);
    }
  }

  lemma RoundKeepsLevels(g: Graph, level: map<string, nat>, r: nat)
    requires LeveledBelow(g, level, r)
    ensures LeveledBelow(g, NextRound(g, level, r), r + 1)
  {
    var next := NextRound(g, level, r);
    assert Leveled(g, next) by {
      forall n {:trigger Supported(g, next, n)} | n in next ensures Supported(g, next, n) {
        RoundSupports(g, level, r, n);
      }
      forall n, d | n in next && d in g[n] ensures d in next && next[d] < next[n] {
        RoundKeepsOrder(g, level, r, n, d);
      }
    }
    forall n {:trigger SettledBelow(g, next, n, r)} | n in g && SettledBelow(g, next, n, r) ensures n in next {
      assert SettledBelow(g, level, n, r);
    }
  }

  /** n has an edge into s. */
  ghost predicate EdgeInto(g: Graph, n: string, s: set<string>)
    requires n in g
  {
    exists d :: d in g[n] && d in s
  }

  /** The nodes left over after any round of a closed acyclic graph are not stuck. */
  lemma RoundMakesProgress(g: Graph, level: map<string, nat>, r: nat)
    requires Closed(g) && Acyclic(g) && LeveledBelow(g, level, r) && level.Keys != g.Keys
    ensures level.Keys < NextRound(g, level, r).Keys <= g.Keys
  {
    var rest := g.Keys - level.Keys;
    var next := NextRound(g, level, r);
    if next.Keys <= level.Keys {
      forall n {:trigger EdgeInto(g, n, rest)} | n in rest ensures EdgeInto(g, n, rest) {
        assert !SettledBelow(g, level, n, r);
      }
      assert rest != {} by {
        assert level.Keys + rest == g.Keys;
      }
      StuckHasCycle(g, rest);
      assert false;
    }
  }

  lemma StuckHasCycle(g: Graph, s: set<string>)
    requires s != {} && s <= g.Keys
    requires forall n {:trigger EdgeInto(g, n, s)} :: n in s ==> EdgeInto(g, n, s)
    ensures !Acyclic(g)
  {
    var follow := map n | n in s :: Follow(g, n, s);
    forall n | n in follow ensures StaysIn(g, follow, n) {
      assert EdgeInto(g, n, s);
    }
    WanderingHasCycle(g, follow);
  }

  ghost function Follow(g: Graph, n: string, s: set<string>): (d: string)
    requires n in g
    ensures EdgeInto(g, n, s) ==> d in g[n] && d in s
  {
    if EdgeInto(g, n, s) then
      var d :| d in g[n] && d in s; d
    else
      n
  }

  /** Every acyclic closed graph can be leveled. */
  lemma {:induction false} AcyclicIsLeveled(g: Graph, level: map<string, nat>, r: nat) returns (full: map<string, nat>)
    requires Closed(g) && Acyclic(g) && LeveledBelow(g, level, r)
    ensures Leveled(g, full) && full.Keys == g.Keys
    decreases |g.Keys - level.Keys|
  {
    if level.Keys == g.Keys {
      full := level;
    } else {
      var next := NextRound(g, level, r);
      RoundMakesProgress(g, level, r);
      RoundKeepsLevels(g, level, r);
      SmallerSet(g.Keys - next.Keys, g.Keys - level.Keys);
      full := AcyclicIsLeveled(g, next, r + 1);
    }
  }

  lemma SmallerSet(a: set<string>, b: set<string>)
    requires a < b
    ensures |a| < |b|
  {
    assert exists x :: x in b && x !in a;
    var x :| x in b && x !in a;
    assert a <= b - {x};
    SubsetSize(a, b - {x});
  }

  lemma {:induction false} SubsetSize(a: set<string>, b: set<string>)
    requires a <= b
    ensures |a| <= |b|
    decreases |a|
  {
    if a != {} {
      var x :| x in a;
      SubsetSize(a - {x}, b - {x});
    }
  }

  /** s holds the target and every node with an edge into s. */
  ghost predicate ClosedUnderPredecessors(g: Graph, s: set<string>)
  {
    forall a, b :: Edge(g, a, b) && b in s ==> a in s
  }

  lemma {:induction false} PredecessorsReach(g: Graph, s: set<string>, p: seq<string>)
    requires ClosedUnderPredecessors(g, s) && IsChain(g, p) && p[|p| - 1] in s
    ensures p[0] in s
    decreases |p|
  {
    if |p| > 1 {
      TailIsChain(g, p);
      PredecessorsReach(g, s, p[1..]);
    }
  }
}
