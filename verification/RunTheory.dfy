/** What holds over every run of a workflow: the recovery fence, decisions, terminal states and bounded drives. */
module RunTheory {
  import opened Ids
  import opened Graphs
  import opened Workflows

  /** A run together with the next unused decision point number. */
  datatype Machine = Machine(run: Run, nextPoint: nat)

  datatype Op =
    | DoTick(input: TickInput)
    | DoPause
    | DoInterrupt
    | DoResume
    | DoCancel
    | DoDecide(submission: Submission)

  /** What is true of a run between calls. */
  ghost predicate Settled(def: Definition, m: Machine)
  {
    && m.run.status != Pending && m.run.status != WaitingReconcile
    && OnState(def, m.run)
    && (m.run.decisionPoint.Some? ==> m.run.status == WaitingDecision || m.run.status == Paused)
    && (m.run.status == WaitingDecision ==> m.run.decisionPoint.Some?)
    && (m.run.decisionPoint.Some? ==> m.run.decisionPoint.value.id < m.nextPoint)
  }

  function Step(def: Definition, m: Machine, op: Op): Machine
    requires ValidDefinition(def) && OnState(def, m.run)
  {
    match op
    case DoTick(input) => Machine(Tick(def, m.run, input, m.nextPoint), m.nextPoint + 1)
    case DoPause => m.(run := Pause(m.run))
    case DoInterrupt => m.(run := MarkInterrupted(m.run))
    case DoResume => m.(run := Resume(m.run))
    case DoCancel => m.(run := Cancel(m.run))
    case DoDecide(submission) => m.(run := ApplyDecision(def, m.run, submission))
  }

  lemma AdvanceSettles(def: Definition, run: Run, next: string, nextPoint: nat)
    requires next == "" || next in StateIds(def.states)
    requires next == "" ==> run.decisionPoint == None
    ensures Settled(def, Machine(Advance(def, run, next), nextPoint))
  {
  }

  lemma DecisionSettles(def: Definition, run: Run, state: StateNode, pointId: nat)
    requires run.currentState in StateIds(def.states) && run.decisionPoint == None
    ensures Settled(def, Machine(CreateDecision(run, state, pointId), pointId + 1))
  {
  }

  lemma RecoverSettles(def: Definition, run: Run, state: StateNode, input: TickInput, pointId: nat)
    requires state.id in StateIds(def.states) && References(state) <= StateIds(def.states)
    requires run.currentState == state.id && run.decisionPoint == None && run.status == Recovering
    ensures Settled(def, Machine(Recover(def, run, state, input, pointId), pointId + 1))
  {
    hide CreateDecision, Advance, NextState, References, StateIds, WaitsUntilLater;
    NextStateIsReference(state, {});
    DecisionSettles(def, run, state, pointId);
    DecisionSettles(def, run.(revision := run.revision + 1), state, pointId);
    AdvanceSettles(def, run.(recovery := Some(Recovery(false, None)), revision := run.revision + 1),
                   NextState(state, {}), pointId + 1);
  }

  lemma ReconcileSettles(def: Definition, run: Run, state: StateNode, input: TickInput, pointId: nat)
    requires state.action.Some? && state.id in StateIds(def.states) && References(state) <= StateIds(def.states)
    requires run.currentState == state.id && run.decisionPoint == None
    ensures Settled(def, Machine(ApplyReconcile(def, run, state, input, pointId), pointId + 1))
  {
    hide CreateDecision, Advance, NextState, References, StateIds;
    NextStateIsReference(state, {});
    var recovering := run.(status := Recovering, revision := run.revision + 1);
    DecisionSettles(def, recovering, state, pointId);
    AdvanceSettles(def, recovering, NextState(state, {}), pointId + 1);
  }

  lemma ActionSettles(def: Definition, run: Run, state: StateNode, input: TickInput, pointId: nat)
    requires state.action.Some? && state.id in StateIds(def.states) && References(state) <= StateIds(def.states)
    requires run.currentState == state.id && run.decisionPoint == None
    ensures Settled(def, Machine(RunAction(def, run, state, input, pointId), pointId + 1))
  {
    hide CreateDecision, Advance, ApplyReconcile, NextState, References, StateIds, ActionSucceeds;
    NextStateIsReference(state, input.observed);
    var action := state.action.value;
    var attempted := Dispatched(run, action, input, AttemptUnknown);
    AdvanceSettles(def, Dispatched(run, action, input, AttemptSucceeded), NextState(state, input.observed), pointId + 1);
    DecisionSettles(def, attempted, state, pointId);
    ReconcileSettles(def, attempted.(status := WaitingReconcile, revision := attempted.revision + 1), state, input, pointId);
  }

  lemma TickSettles(def: Definition, m: Machine, input: TickInput)
    requires ValidDefinition(def) && Settled(def, m)
    ensures Settled(def, Machine(Tick(def, m.run, input, m.nextPoint), m.nextPoint + 1))
  {
    if Drivable(m.run.status) {
      FoundReferences(def, m.run.currentState);
      var state := FindState(def.states, m.run.currentState);
      if m.run.status == Recovering {
        RecoverSettles(def, m.run, state, input, m.nextPoint);
      } else if !state.terminal {
        DecisionSettles(def, m.run, state, m.nextPoint);
        AdvanceSettles(def, m.run, state.nextState, m.nextPoint + 1);
        if state.action.Some? {
          ActionSettles(def, m.run, state, input, m.nextPoint);
        }
      }
      hide RunAction, Recover, CreateDecision, Advance, References, StateIds;
    }
  }

  /** Every call leaves a run on a state of its definition, with a decision point only while it waits or is paused. */
  lemma StepSettles(def: Definition, m: Machine, op: Op)
    requires ValidDefinition(def) && Settled(def, m)
    ensures Settled(def, Step(def, m, op))
  {
    match op
    case DoTick(input) =>
      TickSettles(def, m, input);
    case DoDecide(submission) =>
    case _ =>
  }

  /** The states a machine goes through. */
  ghost function After(def: Definition, m: Machine, ops: seq<Op>): (r: Machine)
    requires ValidDefinition(def) && Settled(def, m)
    ensures Settled(def, r)
  {
    if ops == [] then m
    else
      var before := After(def, m, ops[..|ops| - 1]);
      StepSettles(def, before, ops[|ops| - 1]);
      Step(def, before, ops[|ops| - 1])
  }

  lemma AfterOneMore(def: Definition, m: Machine, ops: seq<Op>, i: nat)
    requires ValidDefinition(def) && Settled(def, m) && i < |ops|
    ensures After(def, m, ops[..i + 1]) == Step(def, After(def, m, ops[..i]), ops[i])
  {
    assert ops[..i + 1][..i] == ops[..i];
  }

  lemma TerminalStep(def: Definition, m: Machine, op: Op)
    requires ValidDefinition(def) && Settled(def, m) && Terminal(m.run.status)
    ensures Step(def, m, op).run == m.run
  {
  }

  /** A terminal run is never changed again. */
  lemma {:induction false} TerminalIsFinal(def: Definition, m: Machine, ops: seq<Op>)
    requires ValidDefinition(def) && Settled(def, m) && Terminal(m.run.status)
    ensures After(def, m, ops).run == m.run
  {
    hide Settled, Chosen;
    if ops != [] {
      TerminalIsFinal(def, m, ops[..|ops| - 1]);
      TerminalStep(def, After(def, m, ops[..|ops| - 1]), ops[|ops| - 1]);
    }
  }

  // ----- The recovery fence -----

  /** The call runs an action handler. */
  ghost predicate Dispatches(def: Definition, m: Machine, op: Op)
    requires Settled(def, m)
  {
    && op.DoTick? && m.run.status == Running
    && !FindState(def.states, m.run.currentState).terminal
    && FindState(def.states, m.run.currentState).action.Some?
  }

  /** The call asks the reconcile provider of a recovering run, and the provider answers c. */
  ghost predicate Probes(def: Definition, m: Machine, op: Op, c: Classification)
    requires Settled(def, m)
  {
    && op.DoTick? && m.run.status == Recovering && RecoveryRequired(m.run) && !WaitsUntilLater(m.run, op.input.now)
    && FindState(def.states, m.run.currentState).action.Some?
    && FindState(def.states, m.run.currentState).action.value.hasProvider
    && op.input.classification == c
  }

  /** The call settles what became of the interrupted action: by observation, or by a decision. */
  ghost predicate Clears(def: Definition, m: Machine, op: Op)
    requires Settled(def, m)
  {
    || Probes(def, m, op, ConfirmedSuccess)
    || Probes(def, m, op, ConfirmedNotStarted)
    || (op.DoDecide? && Chosen(m.run, op.submission).Some?)
  }

  /** Reconciliation is owed and the run is not running. */
  ghost predicate Fenced(run: Run)
  {
    RecoveryRequired(run) && run.status in {Paused, Recovering, WaitingDecision, Failed, Cancelled}
  }

  lemma FenceHolds(def: Definition, m: Machine, op: Op)
    requires ValidDefinition(def) && Settled(def, m) && Fenced(m.run) && !Clears(def, m, op)
    ensures Fenced(Step(def, m, op).run)
  {
    if op.DoTick? && m.run.status == Recovering {
      FoundReferences(def, m.run.currentState);
    }
  }

  lemma {:induction false} FenceStands(def: Definition, m: Machine, ops: seq<Op>)
    requires ValidDefinition(def) && Settled(def, m) && Fenced(m.run)
    requires forall k :: 0 <= k < |ops| ==> !Clears(def, After(def, m, ops[..k]), ops[k])
    ensures Fenced(After(def, m, ops).run)
  {
    if ops != [] {
      var front := ops[..|ops| - 1];
      forall k | 0 <= k < |front| ensures !Clears(def, After(def, m, front[..k]), front[k]) {
        assert front[..k] == ops[..k];
        assert !Clears(def, After(def, m, ops[..k]), ops[k]);
      }
      FenceStands(def, m, front);
      assert !Clears(def, After(def, m, ops[..|ops| - 1]), ops[|ops| - 1]);
      FenceHolds(def, After(def, m, front), ops[|ops| - 1]);
    }
  }

  /** After a pause or an interruption of a live run, no handler runs until a probe has confirmed that the action
      succeeded or never started, or a decision has been applied, whatever calls come in between. */
  lemma RecoveryFence(def: Definition, m: Machine, fence: Op, ops: seq<Op>, k: nat)
    requires ValidDefinition(def) && Settled(def, m) && !Terminal(m.run.status)
    requires fence == DoPause || (fence == DoInterrupt && m.run.status != WaitingDecision)
    requires k < |ops|
    ensures Settled(def, Step(def, m, fence))
    ensures
      var fenced := Step(def, m, fence);
      Dispatches(def, After(def, fenced, ops[..k]), ops[k]) ==>
        exists j :: 0 <= j < k && Clears(def, After(def, fenced, ops[..j]), ops[j])
  {
    StepSettles(def, m, fence);
    var fenced := Step(def, m, fence);
    if forall j :: 0 <= j < k ==> !Clears(def, After(def, fenced, ops[..j]), ops[j]) {
      var front := ops[..k];
      forall j | 0 <= j < |front| ensures !Clears(def, After(def, fenced, front[..j]), front[j]) {
        assert front[..j] == ops[..j];
        assert !Clears(def, After(def, fenced, ops[..j]), ops[j]);
      }
      FenceStands(def, fenced, front);
    }
  }

  /** A confirmed success moves the run past the interrupted state without running its action again. */
  lemma ConfirmedSuccessMovesOn(def: Definition, m: Machine, op: Op)
    requires ValidDefinition(def) && Settled(def, m) && Probes(def, m, op, ConfirmedSuccess)
    ensures
      var next := NextState(FindState(def.states, m.run.currentState), {});
      var run := Step(def, m, op).run;
      && run.currentState == next && run.attempts == m.run.attempts
      && (run.status == Succeeded <==> next == "" || FindState(def.states, next).terminal)
      && (run.status == Succeeded || run.status == Running)
  {
    FoundReferences(def, m.run.currentState);
    NextStateIsReference(FindState(def.states, m.run.currentState), {});
  }

  // ----- One submission per decision point -----

  ghost predicate Accepts(m: Machine, op: Op)
  {
    op.DoDecide? && Chosen(m.run, op.submission).Some?
  }

  ghost predicate PointsFrom(m: Machine, bound: nat)
  {
    bound <= m.nextPoint && (m.run.decisionPoint.Some? ==> m.run.decisionPoint.value.id >= bound)
  }

  /** A call keeps the decision point, removes it, or sets one with the given number. */
  ghost predicate PointKept(run: Run, after: Run, pointId: nat)
  {
    after.decisionPoint == None || after.decisionPoint == run.decisionPoint || after.decisionPoint.value.id == pointId
  }

  lemma ReconcilePoint(def: Definition, run: Run, state: StateNode, input: TickInput, pointId: nat)
    requires state.action.Some? && state.id in StateIds(def.states) && References(state) <= StateIds(def.states)
    ensures PointKept(run, ApplyReconcile(def, run, state, input, pointId), pointId)
  {
    hide References, StateIds, FindState, NextState;
    NextStateIsReference(state, {});
  }

  lemma ActionPoint(def: Definition, run: Run, state: StateNode, input: TickInput, pointId: nat)
    requires state.action.Some? && state.id in StateIds(def.states) && References(state) <= StateIds(def.states)
    ensures PointKept(run, RunAction(def, run, state, input, pointId), pointId)
  {
    hide References, StateIds, FindState, NextState, ApplyReconcile, ActionSucceeds;
    NextStateIsReference(state, input.observed);
    var attempted := Dispatched(run, state.action.value, input, AttemptUnknown);
    ReconcilePoint(def, attempted.(status := WaitingReconcile, revision := attempted.revision + 1), state, input, pointId);
  }

  lemma RecoverPoint(def: Definition, run: Run, state: StateNode, input: TickInput, pointId: nat)
    requires state.id in StateIds(def.states) && References(state) <= StateIds(def.states)
    ensures PointKept(run, Recover(def, run, state, input, pointId), pointId)
  {
    hide References, StateIds, FindState, NextState, WaitsUntilLater, RecoveryRequired;
    NextStateIsReference(state, {});
  }

  lemma PointsGrow(def: Definition, m: Machine, op: Op, bound: nat)
    requires ValidDefinition(def) && Settled(def, m) && PointsFrom(m, bound)
    ensures PointsFrom(Step(def, m, op), bound)
  {
    if op.DoTick? && Drivable(m.run.status) {
      FoundReferences(def, m.run.currentState);
      var state := FindState(def.states, m.run.currentState);
      RecoverPoint(def, m.run, state, op.input, m.nextPoint);
      if state.action.Some? {
        ActionPoint(def, m.run, state, op.input, m.nextPoint);
      }
    }
    hide Recover, RunAction, References, StateIds, Chosen;
  }

  lemma {:induction false} PointsStayAbove(def: Definition, m: Machine, ops: seq<Op>, i: nat, bound: nat)
    requires ValidDefinition(def) && Settled(def, m) && i <= |ops|
    requires PointsFrom(After(def, m, ops[..i]), bound)
    ensures PointsFrom(After(def, m, ops), bound)
    decreases |ops| - i
  {
    if i < |ops| {
      AfterOneMore(def, m, ops, i);
      PointsGrow(def, After(def, m, ops[..i]), ops[i], bound);
      PointsStayAbove(def, m, ops, i + 1, bound);
    } else {
      assert ops[..i] == ops;
    }
  }

  lemma AcceptedPoint(def: Definition, m: Machine, op: Op)
    requires ValidDefinition(def) && Settled(def, m) && Accepts(m, op)
    ensures m.run.decisionPoint.Some? && m.run.decisionPoint.value.id == op.submission.pointId < m.nextPoint
    ensures PointsFrom(Step(def, m, op), m.nextPoint)
  {
  }

  /** Two accepted submissions are never for the same decision point: later ones are for later points. */
  lemma OneSubmissionPerPoint(def: Definition, m: Machine, ops: seq<Op>, i: nat, j: nat)
    requires ValidDefinition(def) && Settled(def, m) && i < j < |ops|
    requires Accepts(After(def, m, ops[..i]), ops[i]) && Accepts(After(def, m, ops[..j]), ops[j])
    ensures ops[i].submission.pointId < ops[j].submission.pointId
  {
    hide *;
    AfterOneMore(def, m, ops, i);
    AcceptedPoint(def, After(def, m, ops[..i]), ops[i]);
    assert ops[..j][..i + 1] == ops[..i + 1];
    PointsStayAbove(def, m, ops[..j], i + 1, After(def, m, ops[..i]).nextPoint);
    AcceptedPoint(def, After(def, m, ops[..j]), ops[j]);
    PointAbove(After(def, m, ops[..j]), After(def, m, ops[..i]).nextPoint);
  }

  lemma PointAbove(m: Machine, bound: nat)
    requires PointsFrom(m, bound) && m.run.decisionPoint.Some?
    ensures m.run.decisionPoint.value.id >= bound
  {
  }
}
