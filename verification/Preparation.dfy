/** Executing an activity whose guards may call for preparing activities, to a bounded depth. */
module Preparation {
  import opened Ids

  /** A guard: what is probed, and the activity that may prepare for it, if it is of that kind. */
  datatype Guard = Guard(id: string, probe: string, prepares: bool, preparation: string)

  /** Definitions give the guards of an activity. */
  datatype Registry = Registry(definitions: map<string, seq<Guard>>, handlers: set<string>, probes: set<string>)

  datatype Status = Succeeded | Failed | Unsettled

  /** How an execution ends: with a result, or with an exception that passes through all callers. */
  datatype Ending = Returned(status: Status) | Threw

  /** What a probe observes, compared with the guard. */
  datatype Answer = Matches | Differs | Raises

  /** A record of one execution: what became of each guard that was looked at, and whether the handler ran. */
  datatype Call = Call(activity: string, checks: seq<Check>, ran: bool, ending: Ending)

  /** A record of one guard: the first answer, unless its probe is missing; the preparation; the answer after it. */
  datatype Check = Check(first: Option<Answer>, prepared: Option<Call>, second: Option<Answer>)

  const DEEPEST := 3

  predicate Satisfied(c: Check)
  {
    c.first == Some(Matches) || (c.first == Some(Differs) && c.prepared.Some? && c.second == Some(Matches))
  }

  /** The check ended with an exception rather than with an error. */
  predicate Throws(c: Check)
  {
    c.prepared.Some? && (c.prepared.value.ending == Threw || c.second == Some(Raises))
  }

  predicate Prepares(g: Guard, depth: nat)
  {
    g.prepares && g.preparation != "" && depth < DEEPEST
  }

  // ----- What an execution may look like -----

  ghost predicate PossibleCheck(reg: Registry, depth: nat, g: Guard, c: Check)
    decreases c
  {
    if g.probe !in reg.probes then c == Check(None, None, None)
    else if c.first != Some(Differs) || !Prepares(g, depth) then c.first.Some? && c.prepared.None? && c.second.None?
    else
      && c.prepared.Some? && c.prepared.value.activity == g.preparation && Possible(reg, depth + 1, c.prepared.value)
      && (c.second.Some? <==> c.prepared.value.ending == Returned(Succeeded))
  }

  /** The records that executing an activity at some depth may leave. */
  ghost predicate Possible(reg: Registry, depth: nat, call: Call)
    decreases call
  {
    if call.activity !in reg.definitions || call.activity !in reg.handlers then
      call.checks == [] && !call.ran && call.ending == Threw
    else
      var guards := reg.definitions[call.activity];
      var n := |call.checks|;
      && n <= |guards|
      && (forall k :: 0 <= k < n ==> PossibleCheck(reg, depth, guards[k], call.checks[k]))
      && (forall k :: 0 <= k < n - 1 ==> Satisfied(call.checks[k]))
      && (call.ran <==> n == |guards| && (n > 0 ==> Satisfied(call.checks[n - 1])))
      && (!call.ran ==> n > 0 && !Satisfied(call.checks[n - 1]))
      && (!call.ran ==> call.ending == if Throws(call.checks[n - 1]) then Threw else Returned(Failed))
  }

  // ----- The execution -----

  /** The answers of the outside world, in the order in which it is asked. */
  datatype World = World(probes: nat -> Answer, handlers: nat -> Ending)

  /** Checks a record against the world, from a moment on; the moment after its last answer, if all answers are right. */
  function Replay(call: Call, world: World, clock: nat): Option<nat>
    decreases call
  {
    match ReplayAll(call.checks, world, clock)
    case None => None
    case Some(t) => if !call.ran then Some(t) else if call.ending == world.handlers(t) then Some(t + 1) else None
  }

  function ReplayAll(checks: seq<Check>, world: World, clock: nat): Option<nat>
    decreases checks
  {
    if checks == [] then Some(clock)
    else
      match ReplayOne(checks[0], world, clock)
      case None => None
      case Some(t) => ReplayAll(checks[1..], world, t)
  }

  function ReplayOne(c: Check, world: World, clock: nat): Option<nat>
    decreases c
  {
    if c.first.None? then Some(clock)
    else if c.first.value != world.probes(clock) then None
    else if c.prepared.None? then Some(clock + 1)
    else
      match Replay(c.prepared.value, world, clock + 1)
      case None => None
      case Some(t) =>
        if c.second.None? then Some(t) else if c.second.value == world.probes(t) then Some(t + 1) else None
  }

  lemma {:induction false} ReplayLonger(checks: seq<Check>, c: Check, world: World, clock: nat)
    requires ReplayAll(checks, world, clock).Some?
    ensures ReplayAll(checks + [c], world, clock) == ReplayOne(c, world, ReplayAll(checks, world, clock).value)
    decreases |checks|
  {
    if checks == [] {
      assert [c][1..] == [];
      assert checks + [c] == [c];
    } else {
      ReplayLonger(checks[1..], c, world, ReplayOne(checks[0], world, clock).value);
      assert (checks + [c])[1..] == checks[1..] + [c];
    }
  }

  method Execute(reg: Registry, activity: string, depth: nat, world: World, clock: nat) returns (call: Call, now: nat)
    requires depth <= DEEPEST
    ensures call.activity == activity && Possible(reg, depth, call) && Replay(call, world, clock) == Some(now)
    decreases DEEPEST - depth, 1
  {
    now := clock;
    if activity !in reg.definitions || activity !in reg.handlers {
      return Call(activity, [], false, Threw), now;
    }
    var guards := reg.definitions[activity];
    var checks: seq<Check> := [];
    while |checks| < |guards|
      invariant |checks| <= |guards| && ReplayAll(checks, world, clock) == Some(now)
      invariant forall k :: 0 <= k < |checks| ==> PossibleCheck(reg, depth, guards[k], checks[k]) && Satisfied(checks[k])
    {
      var check;
      check, now := CheckPrecondition(reg, guards[|checks|], depth, world, now);
      ReplayLonger(checks, check, world, clock);
      checks := checks + [check];
      if !Satisfied(check) {
        return Call(activity, checks, false, if Throws(check) then Threw else Returned(Failed)), now;
      }
    }
    return Call(activity, checks, true, world.handlers(now)), now + 1;
  }

  method CheckPrecondition(reg: Registry, g: Guard, depth: nat, world: World, clock: nat) returns (c: Check, now: nat)
    requires depth <= DEEPEST
    ensures PossibleCheck(reg, depth, g, c) && ReplayOne(c, world, clock) == Some(now)
    decreases DEEPEST - depth, 0
  {
    if g.probe !in reg.probes {
      return Check(None, None, None), clock;
    }
    var first := world.probes(clock);
    now := clock + 1;
    if first != Differs || !(g.prepares && g.preparation != "") || depth >= DEEPEST {
      return Check(Some(first), None, None), now;
    }
    var prepared;
    prepared, now := Execute(reg, g.preparation, depth + 1, world, now);
    if prepared.ending != Returned(Succeeded) {
      return Check(Some(first), Some(prepared), None), now;
    }
    return Check(Some(first), Some(prepared), Some(world.probes(now))), now + 1;
  }

  // ----- The record says all there is to say -----

  /** The checks went on until one was not satisfied or no guard was left. */
  ghost predicate WentOn(guards: seq<Guard>, checks: seq<Check>)
  {
    && |checks| <= |guards|
    && (forall k :: 0 <= k < |checks| - 1 ==> Satisfied(checks[k]))
    && (|checks| < |guards| ==> checks != [] && !Satisfied(checks[|checks| - 1]))
  }

  /** The registry and the answers of the world determine the whole execution: what Execute promises leaves it no choice. */
  lemma {:induction false} ExecutionIsDetermined(reg: Registry, depth: nat, a: Call, b: Call, world: World, clock: nat)
    requires Possible(reg, depth, a) && Possible(reg, depth, b) && a.activity == b.activity
    requires Replay(a, world, clock).Some? && Replay(b, world, clock).Some?
    ensures a == b
    decreases a
  {
    if a.activity in reg.definitions && a.activity in reg.handlers {
      ChecksAreDetermined(reg, depth, reg.definitions[a.activity], a.checks, b.checks, world, clock);
    }
  }

  lemma {:induction false} ChecksAreDetermined(reg: Registry, depth: nat, guards: seq<Guard>, a: seq<Check>, b: seq<Check>, world: World, clock: nat)
    requires WentOn(guards, a) && WentOn(guards, b)
    requires forall k :: 0 <= k < |a| ==> PossibleCheck(reg, depth, guards[k], a[k])
    requires forall k :: 0 <= k < |b| ==> PossibleCheck(reg, depth, guards[k], b[k])
    requires ReplayAll(a, world, clock).Some? && ReplayAll(b, world, clock).Some?
    ensures a == b
    decreases a
  {
    if guards != [] {
      CheckIsDetermined(reg, depth, guards[0], a[0], b[0], world, clock);
      if Satisfied(a[0]) {
        ChecksAreDetermined(reg, depth, guards[1..], a[1..], b[1..], world, ReplayOne(a[0], world, clock).value);
      }
      assert a == [a[0]] + a[1..] && b == [b[0]] + b[1..];
    }
  }

  lemma {:induction false} CheckIsDetermined(reg: Registry, depth: nat, g: Guard, a: Check, b: Check, world: World, clock: nat)
    requires PossibleCheck(reg, depth, g, a) && PossibleCheck(reg, depth, g, b)
    requires ReplayOne(a, world, clock).Some? && ReplayOne(b, world, clock).Some?
    ensures a == b
    decreases a
  {
    if a.prepared.Some? {
      ExecutionIsDetermined(reg, depth + 1, a.prepared.value, b.prepared.value, world, clock + 1);
    }
  }

  // ----- Every record happens -----

  /** What the world is asked, and what it says. */
  datatype Event = Observed(answer: Answer) | Handled(ending: Ending)

  function Events(call: Call): seq<Event>
    decreases call
  {
    EventsOf(call.checks) + if call.ran then [Handled(call.ending)] else []
  }

  function EventsOf(checks: seq<Check>): seq<Event>
    decreases checks
  {
    if checks == [] then [] else EventsOfOne(checks[0]) + EventsOf(checks[1..])
  }

  function EventsOfOne(c: Check): seq<Event>
    decreases c
  {
    if c.first.None? then []
    else if c.prepared.None? then [Observed(c.first.value)]
    else [Observed(c.first.value)] + (Events(c.prepared.value) + if c.second.None? then [] else [Observed(c.second.value)])
  }

  predicate ShowsAt(world: World, clock: nat, event: Event)
  {
    match event
    case Observed(answer) => world.probes(clock) == answer
    case Handled(ending) => world.handlers(clock) == ending
  }

  /** From a moment on, this is what happens. */
  predicate Shows(world: World, clock: nat, events: seq<Event>)
  {
    forall i :: 0 <= i < |events| ==> ShowsAt(world, clock + i, events[i])
  }

  lemma ShowsBoth(world: World, clock: nat, a: seq<Event>, b: seq<Event>)
    ensures Shows(world, clock, a + b) <==> Shows(world, clock, a) && Shows(world, clock + |a|, b)
  {
    hide ShowsAt;
    if Shows(world, clock, a + b) {
      forall i | 0 <= i < |a| ensures ShowsAt(world, clock + i, a[i]) {
        assert (a + b)[i] == a[i];
      }
      forall i | 0 <= i < |b| ensures ShowsAt(world, clock + |a| + i, b[i]) {
        assert (a + b)[|a| + i] == b[i];
      }
    }
  }

  lemma ShowsOne(world: World, clock: nat, event: Event)
    ensures Shows(world, clock, [event]) <==> ShowsAt(world, clock, event)
    ensures Shows(world, clock, [])
  {
    if Shows(world, clock, [event]) {
      assert ShowsAt(world, clock + 0, [event][0]);
    }
  }

  /** A record agrees with the world exactly when the world says these things in this order. */
  lemma {:induction false} ReplayIsEvents(call: Call, world: World, clock: nat)
    ensures Replay(call, world, clock) == if Shows(world, clock, Events(call)) then Some(clock + |Events(call)|) else None
    decreases call
  {
    hide Shows;
    ReplayAllIsEvents(call.checks, world, clock);
    if call.ran {
      ShowsBoth(world, clock, EventsOf(call.checks), [Handled(call.ending)]);
      ShowsOne(world, clock + |EventsOf(call.checks)|, Handled(call.ending));
    } else {
      assert Events(call) == EventsOf(call.checks);
    }
  }

  lemma {:induction false} ReplayAllIsEvents(checks: seq<Check>, world: World, clock: nat)
    ensures ReplayAll(checks, world, clock) == if Shows(world, clock, EventsOf(checks)) then Some(clock + |EventsOf(checks)|) else None
    decreases checks
  {
    hide Shows, EventsOfOne, ReplayOne;
    if checks == [] {
      ShowsOne(world, clock, Observed(Matches));
    } else {
      var first := EventsOfOne(checks[0]);
      ReplayOneIsEvents(checks[0], world, clock);
      ReplayAllIsEvents(checks[1..], world, clock + |first|);
      ShowsBoth(world, clock, first, EventsOf(checks[1..]));
    }
  }

  lemma {:induction false} ReplayOneIsEvents(c: Check, world: World, clock: nat)
    ensures ReplayOne(c, world, clock) == if Shows(world, clock, EventsOfOne(c)) then Some(clock + |EventsOfOne(c)|) else None
    decreases c
  {
    hide Shows, Events;
    ShowsOne(world, clock, Observed(Matches));
    if c.first.Some? {
      ShowsOne(world, clock, Observed(c.first.value));
      if c.prepared.Some? {
        var inner := Events(c.prepared.value);
        var rest := if c.second.None? then [] else [Observed(c.second.value)];
        ReplayIsEvents(c.prepared.value, world, clock + 1);
        ShowsBoth(world, clock, [Observed(c.first.value)], inner + rest);
        ShowsBoth(world, clock + 1, inner, rest);
        ShowsOne(world, clock + 1 + |inner|, if c.second.None? then Observed(Matches) else rest[0]);
      }
    }
  }

  /** In some world this record is what happens. */
  lemma EveryRecordHappens(call: Call) returns (world: World)
    ensures Replay(call, world, 0).Some?
  {
    var events := Events(call);
    world := World((t: nat) => if t < |events| && events[t].Observed? then events[t].answer else Matches,
                   (t: nat) => if t < |events| && events[t].Handled? then events[t].ending else Threw);
    ReplayIsEvents(call, world, 0);
  }

  /** In this world, what Execute promises about its result allows this record and no other. */
  ghost predicate IsResult(reg: Registry, world: World, call: Call)
  {
    && Possible(reg, 0, call) && Replay(call, world, 0).Some?
    && forall other :: Possible(reg, 0, other) && other.activity == call.activity && Replay(other, world, 0).Some? ==> other == call
  }

  /** Every record that is possible is the result of an execution in some world. */
  lemma PossibleIsReal(reg: Registry, call: Call)
    ensures Possible(reg, 0, call) <==> exists world :: IsResult(reg, world, call)
  {
    if Possible(reg, 0, call) {
      ItIsResult(reg, call);
    }
  }

  lemma ItIsResult(reg: Registry, call: Call)
    requires Possible(reg, 0, call)
    ensures exists world :: IsResult(reg, world, call)
  {
    hide Possible, Replay;
    var world := EveryRecordHappens(call);
    forall other | Possible(reg, 0, other) && other.activity == call.activity && Replay(other, world, 0).Some? ensures other == call {
      ExecutionIsDetermined(reg, 0, other, call, world, 0);
    }
    assert IsResult(reg, world, call);
  }

  // ----- How many handlers run -----

  function HandlersOf(checks: seq<Check>): nat
    decreases checks
  {
    if checks == [] then 0
    else HandlersOfOne(checks[0]) + HandlersOf(checks[1..])
  }

  function HandlersOfOne(c: Check): nat
    decreases c
  {
    if c.prepared.Some? then Handlers(c.prepared.value) else 0
  }

  /** The handlers that ran during an execution. */
  function Handlers(call: Call): nat
    decreases call
  {
    (if call.ran then 1 else 0) + HandlersOf(call.checks)
  }

  /** The most handlers that may run with so many levels of preparation left and at most g guards each. */
  function Most(g: nat, levels: nat): nat
  {
    if levels == 0 then 1 else 1 + g * Most(g, levels - 1)
  }

  ghost predicate AtMostGuards(reg: Registry, g: nat)
  {
    forall a :: a in reg.definitions ==> |reg.definitions[a]| <= g
  }

  lemma Scaled(a: nat, b: nat, c: nat)
    requires a <= b
    ensures a * c <= b * c
  {
  }

  lemma {:induction false} CheckBounded(reg: Registry, guard: Guard, check: Check, depth: nat, g: nat)
    requires AtMostGuards(reg, g) && depth <= DEEPEST && PossibleCheck(reg, depth, guard, check)
    ensures HandlersOfOne(check) <= if depth == DEEPEST then 0 else Most(g, DEEPEST - depth - 1)
    decreases check
  {
    if check.prepared.Some? {
      CallBounded(reg, check.prepared.value, depth + 1, g);
    }
  }

  lemma {:induction false} ChecksBounded(reg: Registry, guards: seq<Guard>, checks: seq<Check>, depth: nat, g: nat)
    requires AtMostGuards(reg, g) && |checks| <= |guards| && depth <= DEEPEST
    requires forall k :: 0 <= k < |checks| ==> PossibleCheck(reg, depth, guards[k], checks[k])
    ensures HandlersOf(checks) <= if depth == DEEPEST then 0 else |checks| * Most(g, DEEPEST - depth - 1)
    decreases checks
  {
    hide Most, HandlersOfOne, PossibleCheck, AtMostGuards;
    if checks != [] {
      assert forall k :: 0 <= k < |checks[1..]| ==> PossibleCheck(reg, depth, guards[1..][k], checks[1..][k]);
      ChecksBounded(reg, guards[1..], checks[1..], depth, g);
      CheckBounded(reg, guards[0], checks[0], depth, g);
      if depth < DEEPEST {
        var most := Most(g, DEEPEST - depth - 1);
        assert |checks| * most == most + |checks[1..]| * most;
      }
    }
  }

  lemma {:induction false} CallBounded(reg: Registry, call: Call, depth: nat, g: nat)
    requires AtMostGuards(reg, g) && depth <= DEEPEST && Possible(reg, depth, call)
    ensures Handlers(call) <= Most(g, DEEPEST - depth)
    decreases call
  {
    if call.activity in reg.definitions && call.activity in reg.handlers {
      var guards := reg.definitions[call.activity];
      assert |guards| <= g;
      ChecksBounded(reg, guards, call.checks, depth, g);
      hide Possible, HandlersOf, AtMostGuards;
      if depth < DEEPEST {
        Scaled(|call.checks|, g, Most(g, DEEPEST - depth - 1));
      }
    }
  }

  lemma MostIs(g: nat)
    ensures Most(g, DEEPEST) == 1 + g + g * g + g * g * g
  {
    assert Most(g, 1) == 1 + g;
    assert Most(g, 2) == 1 + g * (1 + g) == 1 + g + g * g;
    assert Most(g, 3) == 1 + g * (1 + g + g * g);
    assert g * (1 + g + g * g) == g + g * g + g * (g * g);
  }

  /** For any registry, cyclic preparations included, at most 1 + g + g^2 + g^3 handlers run. */
  lemma HandlerCallsBounded(reg: Registry, call: Call, g: nat)
    requires AtMostGuards(reg, g) && Possible(reg, 0, call)
    ensures Handlers(call) <= 1 + g + g * g + g * g * g
  {
    CallBounded(reg, call, 0, g);
    MostIs(g);
  }

  // ----- The bound is attained -----

  /** One activity that prepares for each of its g guards by itself. */
  function Loop(g: nat): Registry
  {
    Registry(map["a" := seq(g, _ => Guard("", "p", true, "a"))], {"a"}, {"p"})
  }

  /** Every guard needs preparing except at the last level, and every preparation helps. */
  function Fullest(g: nat, levels: nat): Call
  {
    var check := if levels == 0 then Check(Some(Matches), None, None)
                 else Check(Some(Differs), Some(Fullest(g, levels - 1)), Some(Matches));
    Call("a", seq(g, _ => check), true, Returned(Succeeded))
  }

  lemma {:induction false} FullestIsPossible(g: nat, levels: nat)
    requires levels <= DEEPEST
    ensures Possible(Loop(g), DEEPEST - levels, Fullest(g, levels))
  {
    if levels > 0 {
      FullestIsPossible(g, levels - 1);
    }
  }

  lemma {:induction false} HandlersOfCopies(n: nat, check: Check)
    ensures HandlersOf(seq(n, _ => check)) == n * if check.prepared.Some? then Handlers(check.prepared.value) else 0
  {
    var each := if check.prepared.Some? then Handlers(check.prepared.value) else 0;
    if n > 0 {
      assert seq(n, _ => check)[1..] == seq(n - 1, _ => check);
      HandlersOfCopies(n - 1, check);
      assert n * each == each + (n - 1) * each;
    }
  }

  lemma {:induction false} FullestHandlers(g: nat, levels: nat)
    ensures Handlers(Fullest(g, levels)) == Most(g, levels)
  {
    var check := if levels == 0 then Check(Some(Matches), None, None)
                 else Check(Some(Differs), Some(Fullest(g, levels - 1)), Some(Matches));
    assert Fullest(g, levels).checks == seq(g, _ => check);
    HandlersOfCopies(g, check);
    if levels > 0 {
      FullestHandlers(g, levels - 1);
    }
  }

  /** For every g there are a registry and a world in which an execution runs exactly that many handlers. */
  lemma BoundIsAttained(g: nat) returns (reg: Registry, call: Call, world: World)
    ensures AtMostGuards(reg, g) && IsResult(reg, world, call) && Handlers(call) == 1 + g + g * g + g * g * g
  {
    reg, call := Loop(g), Fullest(g, DEEPEST);
    FullestIsPossible(g, DEEPEST);
    FullestHandlers(g, DEEPEST);
    MostIs(g);
    hide Possible, Replay;
    PossibleIsReal(reg, call);
    hide IsResult;
    world :| IsResult(reg, world, call);
  }

  // ----- No handler runs before its guards match -----

  /** inner is an execution within outer, some levels down. */
  ghost predicate Within(inner: Call, outer: Call, levels: nat)
  {
    if levels == 0 then inner == outer
    else exists k :: 0 <= k < |outer.checks| && outer.checks[k].prepared.Some? && Within(inner, outer.checks[k].prepared.value, levels - 1)
  }

  /** Preparations nest at most three levels deep, and each is itself an execution at its depth. */
  lemma {:induction false} WithinIsPossible(reg: Registry, depth: nat, inner: Call, outer: Call, levels: nat)
    requires depth <= DEEPEST && Possible(reg, depth, outer) && Within(inner, outer, levels)
    ensures depth + levels <= DEEPEST && Possible(reg, depth + levels, inner)
    decreases levels
  {
    if levels > 0 {
      var k :| 0 <= k < |outer.checks| && outer.checks[k].prepared.Some? && Within(inner, outer.checks[k].prepared.value, levels - 1);
      assert PossibleCheck(reg, depth, reg.definitions[outer.activity][k], outer.checks[k]);
      WithinIsPossible(reg, depth + 1, inner, outer.checks[k].prepared.value, levels - 1);
    }
  }

  /** Wherever a handler runs, each guard of its activity has matched: at the first probe, or after a preparation that
      succeeded. */
  lemma HandlerRunsGuarded(reg: Registry, inner: Call, outer: Call, levels: nat)
    requires Possible(reg, 0, outer) && Within(inner, outer, levels) && inner.ran
    ensures levels <= DEEPEST && inner.activity in reg.definitions && |inner.checks| == |reg.definitions[inner.activity]|
    ensures forall k :: 0 <= k < |inner.checks| ==>
      || inner.checks[k].first == Some(Matches)
      || (inner.checks[k].second == Some(Matches) && inner.checks[k].prepared.Some?
            && inner.checks[k].prepared.value.ending == Returned(Succeeded))
  {
    WithinIsPossible(reg, 0, inner, outer, levels);
    forall k | 0 <= k < |inner.checks|
      ensures inner.checks[k].first == Some(Matches)
        || (inner.checks[k].second == Some(Matches) && inner.checks[k].prepared.Some?
              && inner.checks[k].prepared.value.ending == Returned(Succeeded))
    {
      assert PossibleCheck(reg, levels, reg.definitions[inner.activity][k], inner.checks[k]);
      assert Satisfied(inner.checks[k]);
    }
  }
}
