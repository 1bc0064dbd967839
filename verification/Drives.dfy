/** Driving a run until it blocks: it stops, and how often it runs handlers. */
module Drives {
  import opened Ids
  import opened Graphs
  import opened Workflows
  import opened RunTheory

  /** What the outside contributes to the successive ticks of one drive. */
  type Env = nat -> TickInput

  /** The machine after k ticks. */
  ghost function Driven(def: Definition, m: Machine, env: Env, k: nat): (r: Machine)
    requires ValidDefinition(def) && Settled(def, m)
    ensures Settled(def, r)
  {
    if k == 0 then m
    else
      var before := Driven(def, m, env, k - 1);
      StepSettles(def, before, DoTick(env(k - 1)));
      Step(def, before, DoTick(env(k - 1)))
  }

  /** How many of the first k ticks run a handler. */
  ghost function HandlerCalls(def: Definition, m: Machine, env: Env, k: nat): nat
    requires ValidDefinition(def) && Settled(def, m)
  {
    if k == 0 then 0
    else
      HandlerCalls(def, m, env, k - 1)
        + if Dispatches(def, Driven(def, m, env, k - 1), DoTick(env(k - 1))) then 1 else 0
  }

  /** How many of the first k answers would be "in progress". */
  ghost function InProgressAnswers(env: Env, k: nat): nat
  {
    if k == 0 then 0
    else InProgressAnswers(env, k - 1) + if env(k - 1).classification == ConfirmedInProgress then 1 else 0
  }

  /** Attempts are counted under the state's own id only if its action carries that id. */
  ghost predicate WellKeyed(def: Definition)
  {
    forall n :: n in StateIds(def.states) && FindState(def.states, n).action.Some? ==>
      FindState(def.states, n).action.value.id == n
  }

  ghost predicate Ranked(def: Definition, level: map<string, nat>)
  {
    ValidDefinition(def) && Leveled(LeadsTo(def), level) && level.Keys == StateIds(def.states)
  }

  function MaxAttempts(state: StateNode): nat
  {
    if state.action.Some? then state.action.value.maxAttempts else 0
  }

  /** The handler calls all states together may use. */
  function Budget(states: seq<StateNode>): nat
  {
    if states == [] then 0 else MaxAttempts(states[0]) + Budget(states[1..])
  }

  /** The handler calls that a run may still make at the state it is on, not counting answers "in progress". */
  ghost function Allowance(def: Definition, run: Run): nat
    requires run.currentState in StateIds(def.states)
  {
    var state := FindState(def.states, run.currentState);
    if state.action.None? then 0
    else if AttemptsOf(run.attempts, state.id) < state.action.value.maxAttempts then
      state.action.value.maxAttempts - AttemptsOf(run.attempts, state.id)
    else 1
  }

  /** What one tick does to a drivable run. */
  datatype Effect = Blocks | Advances | Retries | Monitors | Restarts | Waits

  ghost predicate HasEffect(def: Definition, level: map<string, nat>, run: Run, after: Run, input: TickInput,
                            dispatched: bool, e: Effect)
    requires run.currentState in StateIds(def.states) && level.Keys == StateIds(def.states)
  {
    match e
    case Blocks => !Drivable(after.status)
    case Advances =>
      && after.status == Running && after.currentState in level && level[after.currentState] < level[run.currentState]
    case Retries =>
      && dispatched && after.status == Running && after.currentState == run.currentState
      && Allowance(def, after) < Allowance(def, run)
    case Monitors =>
      && input.classification == ConfirmedInProgress && after.status == Recovering && after.currentState == run.currentState
      && Allowance(def, after) <= Allowance(def, run)
    case Restarts =>
      && !dispatched && run.status == Recovering && after.status == Running && after.currentState == run.currentState
      && Allowance(def, after) == Allowance(def, run)
    case Waits =>
      !dispatched && after == run && run.status == Recovering && WaitsUntilLater(run, input.now)
  }

  lemma ReferencesDescend(def: Definition, level: map<string, nat>, n: string, next: string)
    requires Ranked(def, level) && n in StateIds(def.states) && next in References(FindState(def.states, n))
    ensures next in level && level[next] < level[n]
  {
    hide References, FindState, StateIds, ValidDefinition;
    assert next in LeadsTo(def)[n];
  }

  lemma AdvanceEffect(def: Definition, level: map<string, nat>, run: Run, before: Run, state: StateNode, next: string,
                      input: TickInput, dispatched: bool)
    requires Ranked(def, level) && run.currentState in level && state == FindState(def.states, run.currentState)
    requires next == "" || next in References(state)
    requires next in References(state) ==> next in StateIds(def.states)
    ensures exists e :: HasEffect(def, level, run, Advance(def, before, next), input, dispatched, e)
  {
    hide References, StateIds, ValidDefinition, Leveled, LeadsTo, FindState, Allowance;
    if next == "" || FindState(def.states, next).terminal {
      assert HasEffect(def, level, run, Advance(def, before, next), input, dispatched, Blocks);
    } else {
      ReferencesDescend(def, level, run.currentState, next);
      assert HasEffect(def, level, run, Advance(def, before, next), input, dispatched, Advances);
    }
  }

  lemma RecoverEffect(def: Definition, level: map<string, nat>, run: Run, input: TickInput, pointId: nat)
    requires Ranked(def, level) && run.currentState in level && run.status == Recovering
    requires References(FindState(def.states, run.currentState)) <= StateIds(def.states)
    ensures var after := Recover(def, run, FindState(def.states, run.currentState), input, pointId);
      exists e :: HasEffect(def, level, run, after, input, false, e)
  {
    hide References, StateIds, ValidDefinition, Leveled, LeadsTo, FindState, NextState, Advance, AttemptsOf;
    var state := FindState(def.states, run.currentState);
    var after := Recover(def, run, state, input, pointId);
    NextStateIsReference(state, {});
    if !RecoveryRequired(run) {
      assert HasEffect(def, level, run, after, input, false, Restarts);
    } else if WaitsUntilLater(run, input.now) {
      assert HasEffect(def, level, run, after, input, false, Waits);
    } else if state.action.None? || !state.action.value.hasProvider {
      assert HasEffect(def, level, run, after, input, false, Blocks);
    } else if input.classification == ConfirmedSuccess {
      AdvanceEffect(def, level, run, run.(recovery := Some(Recovery(false, None)), revision := run.revision + 1),
                    state, NextState(state, {}), input, false);
    } else if input.classification == ConfirmedNotStarted {
      assert HasEffect(def, level, run, after, input, false, Restarts);
    } else if input.classification == ConfirmedInProgress {
      assert HasEffect(def, level, run, after, input, false, Monitors);
    } else {
      assert HasEffect(def, level, run, after, input, false, Blocks);
    }
  }

  lemma AttemptCounted(attempts: seq<Attempt>, a: Attempt, id: string)
    ensures AttemptsOf(attempts + [a], id) == AttemptsOf(attempts, id) + if a.actionId == id then 1 else 0
  {
    assert (attempts + [a])[..|attempts|] == attempts;
  }

  lemma ActionEffect(def: Definition, level: map<string, nat>, run: Run, input: TickInput, pointId: nat)
    requires Ranked(def, level) && WellKeyed(def) && run.currentState in level && run.status == Running
    requires References(FindState(def.states, run.currentState)) <= StateIds(def.states)
    requires FindState(def.states, run.currentState).action.Some?
    ensures var after := RunAction(def, run, FindState(def.states, run.currentState), input, pointId);
      exists e :: HasEffect(def, level, run, after, input, true, e)
  {
    hide References, StateIds, ValidDefinition, Leveled, LeadsTo, FindState, NextState, Advance, ApplyReconcile, ActionSucceeds, AttemptsOf;
    var state := FindState(def.states, run.currentState);
    var action := state.action.value;
    var after := RunAction(def, run, state, input, pointId);
    if ActionSucceeds(action, input) {
      NextStateIsReference(state, input.observed);
      AdvanceEffect(def, level, run, Dispatched(run, action, input, AttemptSucceeded), state,
                    NextState(state, input.observed), input, true);
    } else if !action.hasProvider {
      assert HasEffect(def, level, run, after, input, true, Blocks);
    } else {
      var attempted := Dispatched(run, action, input, AttemptUnknown);
      AttemptCounted(run.attempts, attempted.attempts[|run.attempts|], state.id);
      ReconcileEffect(def, level, run, attempted.(status := WaitingReconcile, revision := attempted.revision + 1), input, pointId);
    }
  }

  lemma ReconcileEffect(def: Definition, level: map<string, nat>, run: Run, attempted: Run, input: TickInput, pointId: nat)
    requires Ranked(def, level) && run.currentState in level && attempted.currentState == run.currentState
    requires References(FindState(def.states, run.currentState)) <= StateIds(def.states)
    requires FindState(def.states, run.currentState).action.Some?
    requires AttemptsOf(attempted.attempts, run.currentState) == AttemptsOf(run.attempts, run.currentState) + 1
    ensures var after := ApplyReconcile(def, attempted, FindState(def.states, run.currentState), input, pointId);
      exists e :: HasEffect(def, level, run, after, input, true, e)
  {
    hide References, StateIds, ValidDefinition, Leveled, LeadsTo, FindState, NextState, Advance;
    var state := FindState(def.states, run.currentState);
    var after := ApplyReconcile(def, attempted, state, input, pointId);
    NextStateIsReference(state, {});
    if input.classification == ConfirmedInProgress {
      assert HasEffect(def, level, run, after, input, true, Monitors);
    } else if DirectiveFor(state.action.value, input.classification) == Continue {
      AdvanceEffect(def, level, run, attempted.(status := Recovering, revision := attempted.revision + 1), state,
                    NextState(state, {}), input, true);
    } else if after.status == Running {
      assert HasEffect(def, level, run, after, input, true, Retries);
    } else {
      assert HasEffect(def, level, run, after, input, true, Blocks);
    }
  }

  /** Every tick of a drivable run has one of the effects. */
  lemma TickEffect(def: Definition, level: map<string, nat>, m: Machine, input: TickInput)
    requires Ranked(def, level) && WellKeyed(def) && Settled(def, m) && Drivable(m.run.status)
    ensures exists e :: HasEffect(def, level, m.run, Step(def, m, DoTick(input)).run, input, Dispatches(def, m, DoTick(input)), e)
  {
    hide StateIds, ValidDefinition, Leveled, LeadsTo, FindState, NextState, Recover, RunAction, AttemptsOf, Allowance;
    FoundReferences(def, m.run.currentState);
    var state := FindState(def.states, m.run.currentState);
    var after := Step(def, m, DoTick(input)).run;
    if m.run.status == Recovering {
      RecoverEffect(def, level, m.run, input, m.nextPoint);
      var e :| HasEffect(def, level, m.run, Recover(def, m.run, state, input, m.nextPoint), input, false, e);
      assert after == Recover(def, m.run, state, input, m.nextPoint) && !Dispatches(def, m, DoTick(input));
      assert HasEffect(def, level, m.run, after, input, Dispatches(def, m, DoTick(input)), e);
    } else if state.terminal {
      assert HasEffect(def, level, m.run, after, input, Dispatches(def, m, DoTick(input)), Blocks);
    } else if state.action.Some? {
      ActionEffect(def, level, m.run, input, m.nextPoint);
      var e :| HasEffect(def, level, m.run, RunAction(def, m.run, state, input, m.nextPoint), input, true, e);
      assert after == RunAction(def, m.run, state, input, m.nextPoint) && Dispatches(def, m, DoTick(input));
      assert HasEffect(def, level, m.run, after, input, Dispatches(def, m, DoTick(input)), e);
    } else if state.options != [] {
      assert HasEffect(def, level, m.run, after, input, Dispatches(def, m, DoTick(input)), Blocks);
    } else {
      AdvanceEffect(def, level, m.run, m.run, state, state.nextState, input, Dispatches(def, m, DoTick(input)));
    }
  }

  // ----- A drive stops -----

  /** A tick of a drivable run keeps it drivable or blocks it; it never cancels or pauses it. */
  lemma TickStatus(def: Definition, m: Machine, input: TickInput)
    requires ValidDefinition(def) && Settled(def, m) && Drivable(m.run.status)
    ensures var s := Step(def, m, DoTick(input)).run.status; Drivable(s) || Blocked(s)
  {
    hide StateIds, FindState, References, NextState, AttemptsOf, WaitsUntilLater, RecoveryRequired, ActionSucceeds;
    FoundReferences(def, m.run.currentState);
    var state := FindState(def.states, m.run.currentState);
    NextStateIsReference(state, {});
    NextStateIsReference(state, input.observed);
  }

  /** So a drive leaves a run succeeded, failed or waiting for a decision. */
  lemma {:induction false} DriveBlocks(def: Definition, m: Machine, env: Env, k: nat)
    requires ValidDefinition(def) && Settled(def, m) && Drivable(m.run.status)
    ensures var s := Driven(def, m, env, k).run.status; Drivable(s) || Blocked(s)
  {
    hide Settled, ValidDefinition, Step;
    if k > 0 {
      DriveBlocks(def, m, env, k - 1);
      var before := Driven(def, m, env, k - 1);
      if Drivable(before.run.status) {
        TickStatus(def, before, env(k - 1));
      } else {
        BlockedStays(def, before, env(k - 1));
      }
    }
  }

  /** From tick p on, no provider answers "in progress". */
  ghost predicate ProgressEnds(env: Env, p: nat)
  {
    forall i {:trigger env(i)} :: i >= p ==> env(i).classification != ConfirmedInProgress
  }

  /** How long the drive loop sleeps after a tick: until the next probe, but no longer than one polling interval. */
  function Slept(run: Run, now: int, pollSeconds: nat): nat
  {
    if run.status == Recovering && WaitsUntilLater(run, now) then
      var delay := run.recovery.value.retryAt.value - now;
      if delay < pollSeconds then delay else pollSeconds
    else 0
  }

  /** The clock moves on by at least the time slept after each tick. */
  ghost predicate ClockRuns(def: Definition, m: Machine, env: Env)
    requires ValidDefinition(def) && Settled(def, m)
  {
    forall i: nat {:trigger env(i + 1)} ::
      env(i).pollSeconds >= 1
      && env(i + 1).now >= env(i).now + Slept(Driven(def, m, env, i + 1).run, env(i).now, env(i).pollSeconds)
  }

  ghost function Waiting(run: Run, now: int): nat
  {
    if WaitsUntilLater(run, now) then run.recovery.value.retryAt.value - now else 0
  }

  ghost function LevelOf(level: map<string, nat>, run: Run): nat
  {
    if Drivable(run.status) && run.currentState in level then level[run.currentState] + 1 else 0
  }

  ghost function AllowanceOf(def: Definition, run: Run): nat
  {
    if run.currentState in StateIds(def.states) then Allowance(def, run) else 0
  }

  /** The drive loop reaches a run that is neither running nor recovering. */
  lemma {:induction false} DriveStops(def: Definition, level: map<string, nat>, m: Machine, env: Env, p: nat, i: nat)
    returns (n: nat)
    requires Ranked(def, level) && WellKeyed(def) && Settled(def, m)
    requires ProgressEnds(env, p) && ClockRuns(def, m, env)
    ensures n >= i && !Drivable(Driven(def, m, env, n).run.status)
    decreases if i < p then p - i else 0,
      LevelOf(level, Driven(def, m, env, i).run),
      AllowanceOf(def, Driven(def, m, env, i).run),
      Driven(def, m, env, i).run.status == Recovering,
      Waiting(Driven(def, m, env, i).run, env(i).now)
  {
    hide StateIds, ValidDefinition, Leveled, LeadsTo, FindState, Step, Settled, Allowance;
    var before, after := Driven(def, m, env, i), Driven(def, m, env, i + 1);
    if !Drivable(before.run.status) {
      return i;
    }
    DrivenOnState(def, level, before);
    TickEffect(def, level, before, env(i));
    assert after == Step(def, before, DoTick(env(i)));
    if !Drivable(after.run.status) {
      return i + 1;
    }
    DrivenOnState(def, level, after);
    assert env(i + 1).now >= env(i).now + Slept(after.run, env(i).now, env(i).pollSeconds);
    n := DriveStops(def, level, m, env, p, i + 1);
  }

  lemma DrivenOnState(def: Definition, level: map<string, nat>, m: Machine)
    requires Ranked(def, level) && Settled(def, m) && Drivable(m.run.status)
    ensures m.run.currentState in level && m.run.currentState in StateIds(def.states)
  {
  }

  // ----- Handler calls are bounded -----

  /** The attempts allowed at the states on lower levels. */
  ghost function Below(states: seq<StateNode>, level: map<string, nat>, bound: nat): nat
  {
    if states == [] then 0
    else
      Below(states[1..], level, bound)
        + if states[0].id in level && level[states[0].id] < bound then MaxAttempts(states[0]) else 0
  }

  lemma {:induction false} BelowGrows(states: seq<StateNode>, level: map<string, nat>, low: nat, high: nat)
    requires low <= high
    ensures Below(states, level, low) <= Below(states, level, high) <= Budget(states)
  {
    if states != [] {
      BelowGrows(states[1..], level, low, high);
    }
  }

  /** A state counts towards every bound above its own level. */
  lemma {:induction false} BelowCounts(states: seq<StateNode>, level: map<string, nat>, n: string, high: nat)
    requires UniqueStates(states) && n in StateIds(states) && n in level && level[n] < high
    ensures MaxAttempts(FindState(states, n)) + Below(states, level, level[n]) <= Below(states, level, high)
  {
    if states[0].id == n {
      BelowGrows(states[1..], level, level[n], high);
    } else {
      assert n in StateIds(states[1..]) by {
        var i :| 0 <= i < |states| && states[i].id == n;
        assert states[1..][i - 1].id == n;
      }
      assert UniqueStates(states[1..]);
      BelowCounts(states[1..], level, n, high);
    }
  }

  /** The handler calls a run may still make, not counting answers "in progress". */
  ghost function Potential(def: Definition, level: map<string, nat>, run: Run): nat
  {
    if Drivable(run.status) && run.currentState in level then
      AllowanceOf(def, run) + Below(def.states, level, level[run.currentState])
    else 0
  }

  lemma AllowanceFits(def: Definition, run: Run)
    requires ValidDefinition(def) && run.currentState in StateIds(def.states)
    ensures Allowance(def, run) <= MaxAttempts(FindState(def.states, run.currentState))
  {
    FoundReferences(def, run.currentState);
  }

  lemma PotentialFits(def: Definition, level: map<string, nat>, run: Run)
    requires Ranked(def, level) && OnState(def, run)
    ensures Potential(def, level, run) <= Budget(def.states)
  {
    hide Allowance, FindState, StateIds, Leveled, LeadsTo, Below, Budget, MaxAttempts;
    if Drivable(run.status) {
      AllowanceFits(def, run);
      BelowCounts(def.states, level, run.currentState, level[run.currentState] + 1);
      BelowGrows(def.states, level, level[run.currentState] + 1, level[run.currentState] + 1);
    }
  }

  /** A handler call is paid for by the potential, or by an answer "in progress". */
  lemma TickPays(def: Definition, level: map<string, nat>, m: Machine, input: TickInput)
    requires Ranked(def, level) && WellKeyed(def) && Settled(def, m)
    ensures OnState(def, Step(def, m, DoTick(input)).run)
    ensures Potential(def, level, Step(def, m, DoTick(input)).run) + (if Dispatches(def, m, DoTick(input)) then 1 else 0)
         <= Potential(def, level, m.run) + if input.classification == ConfirmedInProgress then 1 else 0
  {
    StepSettles(def, m, DoTick(input));
    hide StateIds, ValidDefinition, Leveled, LeadsTo, FindState, Step;
    if Drivable(m.run.status) {
      var after := Step(def, m, DoTick(input)).run;
      TickEffect(def, level, m, input);
      DispatchAllowed(def, m, input);
      var e :| HasEffect(def, level, m.run, after, input, Dispatches(def, m, DoTick(input)), e);
      EffectPays(def, level, m.run, after, input, Dispatches(def, m, DoTick(input)), e);
    } else {
      BlockedStays(def, m, input);
    }
  }

  lemma BlockedStays(def: Definition, m: Machine, input: TickInput)
    requires ValidDefinition(def) && Settled(def, m) && !Drivable(m.run.status)
    ensures Step(def, m, DoTick(input)).run == m.run && !Dispatches(def, m, DoTick(input))
  {
  }

  lemma DispatchAllowed(def: Definition, m: Machine, input: TickInput)
    requires ValidDefinition(def) && Settled(def, m) && Drivable(m.run.status)
    ensures m.run.currentState in StateIds(def.states)
    ensures Dispatches(def, m, DoTick(input)) ==> Allowance(def, m.run) >= 1
  {
    FoundReferences(def, m.run.currentState);
  }

  lemma EffectPays(def: Definition, level: map<string, nat>, run: Run, after: Run, input: TickInput, dispatched: bool, e: Effect)
    requires Ranked(def, level) && OnState(def, run) && OnState(def, after) && Drivable(run.status)
    requires HasEffect(def, level, run, after, input, dispatched, e)
    requires dispatched ==> Allowance(def, run) >= 1
    ensures Potential(def, level, after) + (if dispatched then 1 else 0)
         <= Potential(def, level, run) + if input.classification == ConfirmedInProgress then 1 else 0
  {
    hide Leveled, LeadsTo, FindState;
    if e == Advances {
      AllowanceFits(def, after);
      BelowCounts(def.states, level, after.currentState, level[run.currentState]);
    }
  }

  /** A handler call in k ticks is paid for by the potential at the start or by an answer "in progress". */
  lemma {:induction false} DrivePays(def: Definition, level: map<string, nat>, m: Machine, env: Env, k: nat)
    requires Ranked(def, level) && WellKeyed(def) && Settled(def, m)
    ensures HandlerCalls(def, m, env, k) + Potential(def, level, Driven(def, m, env, k).run)
         <= Potential(def, level, m.run) + InProgressAnswers(env, k)
  {
    hide Ranked, WellKeyed, Settled, Potential, Step, Dispatches;
    if k > 0 {
      DrivePays(def, level, m, env, k - 1);
      RankedIsValid(def, level);
      TickPays(def, level, Driven(def, m, env, k - 1), env(k - 1));
    }
  }

  lemma RankedIsValid(def: Definition, level: map<string, nat>)
    requires Ranked(def, level)
    ensures ValidDefinition(def)
  {
  }

  lemma AcyclicIsRanked(def: Definition) returns (level: map<string, nat>)
    requires ValidDefinition(def) && Acyclic(LeadsTo(def))
    ensures Ranked(def, level)
  {
    var g := LeadsTo(def);
    forall n, d | n in g && d in g[n] ensures d in g {
      FoundReferences(def, n);
    }
    level := AcyclicIsLeveled(g, map[], 0);
  }

  /** A drive of an acyclic definition stops, once the providers stop answering "in progress". Up to any point it has
      made at most as many handler calls as the states' retry limits together allow, plus one for each such answer. */
  lemma DriveIsBounded(def: Definition, m: Machine, env: Env, p: nat) returns (n: nat)
    requires ValidDefinition(def) && Acyclic(LeadsTo(def)) && WellKeyed(def) && Settled(def, m)
    requires ProgressEnds(env, p) && ClockRuns(def, m, env)
    ensures !Drivable(Driven(def, m, env, n).run.status)
    ensures forall k: nat :: HandlerCalls(def, m, env, k) <= Budget(def.states) + InProgressAnswers(env, k)
  {
    hide Settled, Leveled, LeadsTo, HandlerCalls, InProgressAnswers, ClockRuns, Driven, Potential;
    var level := AcyclicIsRanked(def);
    n := DriveStops(def, level, m, env, p, 0);
    forall k: nat ensures HandlerCalls(def, m, env, k) <= Budget(def.states) + InProgressAnswers(env, k) {
      DrivePays(def, level, m, env, k);
      SettledOnState(def, m);
      PotentialFits(def, level, m.run);
    }
  }

  lemma SettledOnState(def: Definition, m: Machine)
    requires Settled(def, m)
    ensures OnState(def, m.run)
  {
  }

  // ----- Why attempts must be counted under the state's id -----

  /** A handler that fails each time, and a provider that answers c each time. */
  ghost predicate KeepsFailing(env: Env, c: Classification)
  {
    forall i: nat {:trigger env(i)} :: !env(i).succeeded && env(i).classification == c
  }

  /** The run sits at a state whose failed action is retried on answer c. */
  ghost predicate RetriesOn(def: Definition, m: Machine, c: Classification)
    requires Settled(def, m)
  {
    && m.run.status == Running
    && var state := FindState(def.states, m.run.currentState);
       !state.terminal && state.action.Some? && state.action.value.hasProvider
       && c != ConfirmedInProgress && DirectiveFor(state.action.value, c) == Retry
  }

  ghost predicate BelowLimit(def: Definition, run: Run)
    requires run.currentState in StateIds(def.states)
  {
    var state := FindState(def.states, run.currentState);
    state.action.Some? && AttemptsOf(run.attempts, state.id) < state.action.value.maxAttempts
  }

  lemma RetryTick(def: Definition, m: Machine, input: TickInput, c: Classification)
    requires ValidDefinition(def) && Settled(def, m) && RetriesOn(def, m, c)
    requires !input.succeeded && input.classification == c
    ensures
      var after := Step(def, m, DoTick(input)).run;
      var state := FindState(def.states, m.run.currentState);
      && Dispatches(def, m, DoTick(input))
      && after.currentState == m.run.currentState
      && AttemptsOf(after.attempts, state.id) ==
           AttemptsOf(m.run.attempts, state.id) + (if state.action.value.id == state.id then 1 else 0)
      && (after.status == Running <==> BelowLimit(def, after))
      && (after.status != Running ==> !Drivable(after.status))
  {
    hide StateIds, References, NextState, Advance;
    FoundReferences(def, m.run.currentState);
    var state := FindState(def.states, m.run.currentState);
    AttemptCounted(m.run.attempts, Attempt(state.action.value.id, AttemptsOf(m.run.attempts, state.action.value.id) + 1, AttemptUnknown), state.id);
  }

  /** If the action's id is not the state's id, a failing action below its limit is retried for ever. */
  lemma {:induction false} MiskeyedRetriesForever(def: Definition, m: Machine, env: Env, c: Classification, k: nat)
    requires ValidDefinition(def) && Settled(def, m) && RetriesOn(def, m, c) && KeepsFailing(env, c)
    requires FindState(def.states, m.run.currentState).action.value.id != m.run.currentState && BelowLimit(def, m.run)
    ensures var r := Driven(def, m, env, k);
      r.run.status == Running && r.run.currentState == m.run.currentState
      && AttemptsOf(r.run.attempts, m.run.currentState) == AttemptsOf(m.run.attempts, m.run.currentState)
    ensures HandlerCalls(def, m, env, k) == k
  {
    hide StateIds, References, AttemptsOf, Step, DirectiveFor;
    if k > 0 {
      MiskeyedRetriesForever(def, m, env, c, k - 1);
      RetryTick(def, Driven(def, m, env, k - 1), env(k - 1), c);
    }
  }

  /** Otherwise the run blocks as soon as its limit is reached. */
  lemma {:induction false} KeyedRetriesEnd(def: Definition, m: Machine, env: Env, c: Classification, k: nat)
    requires ValidDefinition(def) && Settled(def, m) && RetriesOn(def, m, c) && KeepsFailing(env, c)
    requires FindState(def.states, m.run.currentState).action.value.id == m.run.currentState || !BelowLimit(def, m.run)
    requires Drivable(Driven(def, m, env, k).run.status)
    ensures var r := Driven(def, m, env, k);
      r.run.status == Running && r.run.currentState == m.run.currentState
      && (k > 0 ==> FindState(def.states, m.run.currentState).action.value.id == m.run.currentState && BelowLimit(def, r.run))
      && AttemptsOf(r.run.attempts, m.run.currentState) >= AttemptsOf(m.run.attempts, m.run.currentState)
           + if FindState(def.states, m.run.currentState).action.value.id == m.run.currentState then k else 0
  {
    hide StateIds, References, AttemptsOf, Step, DirectiveFor;
    if k > 0 {
      var before := Driven(def, m, env, k - 1);
      if !Drivable(before.run.status) {
        BlockedStays(def, before, env(k - 1));
        assert false;
      }
      KeyedRetriesEnd(def, m, env, c, k - 1);
      RetryTick(def, before, env(k - 1), c);
    }
  }

  /** A failing action whose attempts are counted, or whose count has reached the limit, blocks the run. */
  lemma CountedRetriesStop(def: Definition, m: Machine, env: Env, c: Classification) returns (k: nat)
    requires ValidDefinition(def) && Settled(def, m) && RetriesOn(def, m, c) && KeepsFailing(env, c)
    requires FindState(def.states, m.run.currentState).action.value.id == m.run.currentState || !BelowLimit(def, m.run)
    ensures !Drivable(Driven(def, m, env, k).run.status)
  {
    k := FindState(def.states, m.run.currentState).action.value.maxAttempts + 1;
    hide Settled, ValidDefinition, KeepsFailing, RetriesOn, Driven, AttemptsOf, FindState, StateIds;
    if Drivable(Driven(def, m, env, k).run.status) {
      KeyedRetriesEnd(def, m, env, c, k);
      assert false;
    }
  }

  /** Retrying a failing action is endless exactly when its attempts are counted under another id and that count is
      still below the limit. */
  lemma RetryIsEndless(def: Definition, m: Machine, env: Env, c: Classification)
    requires ValidDefinition(def) && Settled(def, m) && RetriesOn(def, m, c) && KeepsFailing(env, c)
    ensures (forall k: nat :: Drivable(Driven(def, m, env, k).run.status)) <==>
      (FindState(def.states, m.run.currentState).action.value.id != m.run.currentState && BelowLimit(def, m.run))
  {
    if FindState(def.states, m.run.currentState).action.value.id != m.run.currentState && BelowLimit(def, m.run) {
      forall k: nat ensures Drivable(Driven(def, m, env, k).run.status) {
        MiskeyedRetriesForever(def, m, env, c, k);
      }
    } else {
      hide *;
      var k := CountedRetriesStop(def, m, env, c);
      assert !Drivable(Driven(def, m, env, k).run.status);
    }
  }
}
