/** The workflow runtime: the runs it drives and the leases it keeps for them. */
module Runtime {
  import opened Ids
  import Graphs
  import opened DeviceLeases
  import opened ResourceBook
  import opened Resources
  import opened Holdings
  import opened Keeping
  import opened Workflows
  import opened RunTheory
  import opened Drives

  const DEFAULT_TTL := 900

  datatype StartError = InvalidDefinition | NotLeased(error: LeaseError)

  function KeyOf(def: Definition): (string, string)
  {
    (def.id, def.version)
  }

  function DeviceRequest(deviceId: string, ownerId: string): ResourceRequest
  {
    ResourceRequest(Key(Device, deviceId), ownerId, DEFAULT_TTL)
  }

  /** A run can be started: its definition is valid and its device is free, or already the owner's. */
  predicate Startable(def: Definition, request: ResourceRequest, claims: Claims, now: int)
  {
    ValidDefinition(def) && Grants(claims, request, now)
  }

  /** A run that has just been started. */
  function Started(def: Definition, deviceId: string, runId: string): Run
  {
    Run(runId, KeyOf(def), deviceId, Running, def.startState, 0, None, [], None, {})
  }

  /** What saving a run does to the runs and to the entries: a terminal run keeps no lease. */
  ghost predicate Saved(runs: map<string, Run>, leases: Entries, run: Run, runs': map<string, Run>, leases': Entries)
  {
    runs' == runs[run.id := run] && leases' == if Terminal(run.status) then leases - {run.id} else leases
  }

  /** Exactly the live runs have an entry. */
  ghost predicate Leased(runs: map<string, Run>, leases: Entries)
  {
    forall id :: id in leases <==> id in runs && !Terminal(runs[id].status)
  }

  ghost predicate Registered(definitions: map<(string, string), Definition>)
  {
    forall k :: k in definitions ==> ValidDefinition(definitions[k]) && KeyOf(definitions[k]) == k
  }

  ghost predicate KnownRun(definitions: map<(string, string), Definition>, nextPoint: nat, id: string, run: Run)
  {
    run.id == id && run.definition in definitions && Settled(definitions[run.definition], Machine(run, nextPoint))
  }

  ghost predicate Known(runs: map<string, Run>, definitions: map<(string, string), Definition>, nextPoint: nat)
  {
    forall id :: id in runs ==> KnownRun(definitions, nextPoint, id, runs[id])
  }

  lemma KnownRunIsSettled(definitions: map<(string, string), Definition>, nextPoint: nat, id: string, run: Run)
    requires Registered(definitions) && KnownRun(definitions, nextPoint, id, run)
    ensures run.id == id && run.definition in definitions
    ensures var def := definitions[run.definition]; ValidDefinition(def) && Settled(def, Machine(run, nextPoint)) && OnState(def, run)
  {
  }

  /** Neither the id nor the definition of a run ever changes. */
  ghost predicate SameRun(run: Run, after: Run)
  {
    after.id == run.id && after.definition == run.definition
  }

  lemma ReconcileIdentity(def: Definition, run: Run, state: StateNode, input: TickInput, pointId: nat)
    requires state.action.Some? && state.id in StateIds(def.states) && References(state) <= StateIds(def.states)
    ensures SameRun(run, ApplyReconcile(def, run, state, input, pointId))
  {
    hide References, StateIds, FindState, NextState, AttemptsOf;
    NextStateIsReference(state, {});
  }

  lemma ActionIdentity(def: Definition, run: Run, state: StateNode, input: TickInput, pointId: nat)
    requires state.action.Some? && state.id in StateIds(def.states) && References(state) <= StateIds(def.states)
    ensures SameRun(run, RunAction(def, run, state, input, pointId))
  {
    hide References, StateIds, FindState, NextState, ApplyReconcile, ActionSucceeds, AttemptsOf;
    NextStateIsReference(state, input.observed);
    var attempted := Dispatched(run, state.action.value, input, AttemptUnknown);
    ReconcileIdentity(def, attempted.(status := WaitingReconcile, revision := attempted.revision + 1), state, input, pointId);
  }

  lemma RecoverIdentity(def: Definition, run: Run, state: StateNode, input: TickInput, pointId: nat)
    requires state.id in StateIds(def.states) && References(state) <= StateIds(def.states)
    ensures SameRun(run, Recover(def, run, state, input, pointId))
  {
    hide References, StateIds, FindState, NextState, WaitsUntilLater, RecoveryRequired;
    NextStateIsReference(state, {});
  }

  lemma StepIdentity(def: Definition, m: Machine, op: Op)
    requires ValidDefinition(def) && OnState(def, m.run)
    ensures SameRun(m.run, Step(def, m, op).run)
  {
    if op.DoTick? && Drivable(m.run.status) {
      FoundReferences(def, m.run.currentState);
      var state := FindState(def.states, m.run.currentState);
      RecoverIdentity(def, m.run, state, op.input, m.nextPoint);
      if state.action.Some? {
        ActionIdentity(def, m.run, state, op.input, m.nextPoint);
      }
    }
    hide Recover, RunAction, References, StateIds, FindState, Chosen;
  }

  lemma StepIsKnown(definitions: map<(string, string), Definition>, point: nat, id: string, run: Run, op: Op)
    requires Registered(definitions) && KnownRun(definitions, point, id, run)
    ensures var def := definitions[run.definition];
      && ValidDefinition(def) && OnState(def, run)
      && var next := Step(def, Machine(run, point), op);
         && KnownRun(definitions, next.nextPoint, id, next.run) && (Terminal(run.status) ==> next.run == run)
         && next.run.id == id && point <= next.nextPoint
  {
    KnownRunIsSettled(definitions, point, id, run);
    var def, m := definitions[run.definition], Machine(run, point);
    StepSettles(def, m, op);
    StepIdentity(def, m, op);
    if Terminal(run.status) {
      TerminalStep(def, m, op);
    }
    hide Settled, Step, OnState, Workflows.ValidDefinition;
  }

  lemma RunIsKnown(runs: map<string, Run>, definitions: map<(string, string), Definition>, point: nat, id: string)
    requires Registered(definitions) && Known(runs, definitions, point) && id in runs
    ensures runs[id].id == id && runs[id].definition in definitions
    ensures var def := definitions[runs[id].definition];
      ValidDefinition(def) && Settled(def, Machine(runs[id], point)) && OnState(def, runs[id])
  {
    assert KnownRun(definitions, point, id, runs[id]);
    KnownRunIsSettled(definitions, point, id, runs[id]);
  }

  lemma LiveIsLeased(runs: map<string, Run>, leases: Entries, id: string)
    requires Leased(runs, leases) && id in runs
    ensures id in leases <==> !Terminal(runs[id].status)
  {
  }

  lemma KnownLater(definitions: map<(string, string), Definition>, p: nat, q: nat, id: string, run: Run)
    requires KnownRun(definitions, p, id, run) && p <= q
    ensures KnownRun(definitions, q, id, run)
  {
  }

  lemma SavedKeeps(definitions: map<(string, string), Definition>, runs: map<string, Run>, leases: Entries, point: nat,
                   run: Run, runs': map<string, Run>, leases': Entries, point': nat)
    requires Known(runs, definitions, point) && Leased(runs, leases) && run.id in runs && point <= point'
    requires Saved(runs, leases, run, runs', leases') && KnownRun(definitions, point', run.id, run)
    requires Terminal(runs[run.id].status) ==> run == runs[run.id]
    ensures Known(runs', definitions, point') && Leased(runs', leases')
  {
    hide KnownRun;
    forall x | x in runs' && x != run.id ensures KnownRun(definitions, point', x, runs'[x]) {
      assert KnownRun(definitions, point, x, runs[x]);
      KnownLater(definitions, point, point', x, runs[x]);
    }
  }

  /** What one call on a run does keeps every run known and exactly the live runs leased. */
  lemma CallKeeps(definitions: map<(string, string), Definition>, runs: map<string, Run>, leases: Entries, point: nat,
                  id: string, op: Op, next: Machine, runs': map<string, Run>, leases': Entries)
    requires Registered(definitions) && Known(runs, definitions, point) && Leased(runs, leases) && id in runs
    requires var def := if runs[id].definition in definitions then Some(definitions[runs[id].definition]) else None;
      def.Some? && ValidDefinition(def.value) && OnState(def.value, runs[id]) ==> next == Step(def.value, Machine(runs[id], point), op)
    requires Saved(runs, leases, next.run, runs', leases')
    ensures Known(runs', definitions, next.nextPoint) && Leased(runs', leases')
    ensures Answered(definitions, runs, leases, point, id, op, Some(next.run), runs', leases')
  {
    hide Settled, OnState, Workflows.ValidDefinition, Registered, Step, KnownRun, Known, Leased;
    RunOfKnown(runs, definitions, point, id);
    StepIsKnown(definitions, point, id, runs[id], op);
    SavedKeeps(definitions, runs, leases, point, next.run, runs', leases', next.nextPoint);
  }

  lemma RunOfKnown(runs: map<string, Run>, definitions: map<(string, string), Definition>, point: nat, id: string)
    requires Known(runs, definitions, point) && id in runs
    ensures KnownRun(definitions, point, id, runs[id]) && runs[id].id == id && runs[id].definition in definitions
  {
    assert KnownRun(definitions, point, id, runs[id]);
  }

  lemma StartSettles(def: Definition, deviceId: string, runId: string, nextPoint: nat)
    requires ValidDefinition(def)
    ensures Settled(def, Machine(Started(def, deviceId, runId), nextPoint))
  {
  }

  lemma {:induction false} SavedTwice(runs: map<string, Run>, leases: Entries, a: Run, runs': map<string, Run>, leases': Entries,
                   b: Run, runs'': map<string, Run>, leases'': Entries)
    requires Saved(runs, leases, a, runs', leases') && Saved(runs', leases', b, runs'', leases'')
    requires a.id == b.id && !Terminal(a.status)
    ensures Saved(runs, leases, b, runs'', leases'')
  {
  }

  lemma StartedKeeps(runs: map<string, Run>, leases: Entries, run: Run, lease: ResourceLease,
                     definitions: map<(string, string), Definition>, nextPoint: nat)
    requires Leased(runs, leases) && Known(runs, definitions, nextPoint)
    requires KnownRun(definitions, nextPoint, run.id, run) && !Terminal(run.status)
    ensures Leased(runs[run.id := run], leases[run.id := lease]) && Known(runs[run.id := run], definitions, nextPoint)
  {
    hide KnownRun;
  }

  /** The answer to a call on one run, and what it saved: nothing if there is no such run. */
  ghost predicate Answered(definitions: map<(string, string), Definition>, runs: map<string, Run>, leases: Entries, point: nat,
                           id: string, op: Op, r: Option<Run>, runs': map<string, Run>, leases': Entries)
  {
    if id !in runs then r == None && runs' == runs && leases' == leases
    else
      && r.Some? && id in runs' && r.value == runs'[id]
      && runs[id].definition in definitions
      && var def := definitions[runs[id].definition];
         && ValidDefinition(def) && OnState(def, runs[id])
         && Saved(runs, leases, Step(def, Machine(runs[id], point), op).run, runs', leases')
  }

  class WorkflowRuntime {
    const coordinator: LeaseResourceCoordinator
    var runs: map<string, Run>
    var resourceLeases: Entries
    var definitions: map<(string, string), Definition>
    var nextPoint: nat

    ghost predicate Valid()
      reads this, coordinator, coordinator.backend
    {
      coordinator.Valid() && Registered(definitions) && Known(runs, definitions, nextPoint) && Leased(runs, resourceLeases)
    }

    constructor (c: LeaseResourceCoordinator)
      requires c.Valid()
      ensures Valid() && coordinator == c && runs == map[] && resourceLeases == map[] && definitions == map[]
    {
      coordinator := c;
      runs, resourceLeases, definitions, nextPoint := map[], map[], map[], 0;
    }

    /** The counts are accounted for by this runtime's entries and somebody else's. */
    ghost predicate Accounts(others: Entries)
      reads this, coordinator, coordinator.backend
    {
      Accounted(coordinator, resourceLeases, others)
    }

    /** A live run that is in the middle of a step. */
    ghost predicate InStep(run: Run, others: Entries)
      reads this, coordinator, coordinator.backend
    {
      coordinator.Valid() && Accounts(others) && run.id in resourceLeases
    }

    /** No live run uses another definition under the same key. */
    ghost predicate MayRegister(def: Definition)
      reads this
    {
      forall id :: id in runs && !Terminal(runs[id].status) && runs[id].definition == KeyOf(def) ==>
        KeyOf(def) in definitions && definitions[KeyOf(def)] == def
    }

    method RegisterDefinition(def: Definition) returns (ok: bool)
      requires Valid() && MayRegister(def)
      modifies this`definitions
      ensures Valid() && ok == ValidDefinition(def)
      ensures definitions == if ok then old(definitions)[KeyOf(def) := def] else old(definitions)
    {
      hide Workflows.ValidDefinition;
      if !ValidDefinition(def) {
        return false;
      }
      definitions := definitions[KeyOf(def) := def];
      forall id | id in runs ensures KnownRun(definitions, nextPoint, id, runs[id]) {
        assert KnownRun(old(definitions), nextPoint, id, runs[id]);
      }
      return true;
    }

    /** Starts a run that holds a lease on its device for the owner. */
    method Start(def: Definition, deviceId: string, ownerId: string, runId: string, now: int, ghost others: Entries)
      returns (r: Result<Run, StartError>)
      requires Valid() && Accounts(others) && MayRegister(def)
      requires runId in runs ==> Terminal(runs[runId].status)
      modifies this, coordinator, coordinator.backend
      ensures Valid() && Accounts(others)
      ensures definitions == if ValidDefinition(def) then old(definitions)[KeyOf(def) := def] else old(definitions)
      ensures r == Failure(InvalidDefinition) <==> !ValidDefinition(def)
      ensures r.Success? <==> Startable(def, DeviceRequest(deviceId, if ownerId == "" then runId else ownerId), old(coordinator.claims), now)
      ensures r.Failure? ==> runs == old(runs) && resourceLeases == old(resourceLeases)
      ensures r.Failure? ==> !Startable(def, DeviceRequest(deviceId, if ownerId == "" then runId else ownerId), coordinator.claims, now)
      ensures r.Success? ==> r.value == Started(def, deviceId, runId) && runs == old(runs)[runId := r.value]
      ensures r.Success? ==>
        && runId in resourceLeases && resourceLeases == old(resourceLeases)[runId := resourceLeases[runId]]
        && resourceLeases[runId].key == Key(Device, deviceId)
        && resourceLeases[runId].ownerId == (if ownerId == "" then runId else ownerId)
        && IsCurrent(coordinator.claims, resourceLeases[runId])
      ensures nextPoint == old(nextPoint)
    {
      hide Workflows.ValidDefinition, Accounted, LeaseResourceCoordinator.Valid, Known, Settled;
      var ok := RegisterDefinition(def);
      if !ok {
        return Failure(InvalidDefinition);
      }
      var owner := if ownerId == "" then runId else ownerId;
      assert runId !in resourceLeases;
      var lease, kept := Hold(coordinator, DeviceRequest(deviceId, owner), now, runId, resourceLeases, others);
      if lease.Failure? {
        return Failure(NotLeased(lease.error));
      }
      var run := Started(def, deviceId, runId);
      StartSettles(def, deviceId, runId, nextPoint);
      StartedKeeps(runs, resourceLeases, run, lease.value, definitions, nextPoint);
      resourceLeases := kept;
      runs := runs[runId := run];
      return Success(run);
    }

    /** Saves a live run; if it has become terminal its lease is given back. */
    method Save(run: Run, ghost others: Entries)
      requires InStep(run, others)
      modifies this`runs, this`resourceLeases, coordinator, coordinator.backend
      ensures coordinator.Valid() && Accounts(others) && (!Terminal(run.status) ==> InStep(run, others))
      ensures Saved(old(runs), old(resourceLeases), run, runs, resourceLeases)
    {
      hide Accounted, LeaseResourceCoordinator.Valid;
      runs := runs[run.id := run];
      if Terminal(run.status) {
        if run.id in resourceLeases {
          var kept := GiveBack(coordinator, run.id, resourceLeases, others);
          resourceLeases := kept;
        }
      }
    }

    method AdvanceRun(def: Definition, run: Run, next: string, ghost others: Entries) returns (after: Run)
      requires InStep(run, others) && (next == "" || next in StateIds(def.states))
      modifies this`runs, this`resourceLeases, coordinator, coordinator.backend
      ensures coordinator.Valid() && Accounts(others)
      ensures after == Advance(def, run, next) && after.id == run.id
      ensures Saved(old(runs), old(resourceLeases), after, runs, resourceLeases)
    {
      hide StateIds, FindState, Accounted, LeaseResourceCoordinator.Valid;
      if next == "" {
        after := run.(status := Succeeded, currentState := "", revision := run.revision + 1);
      } else {
        var state := FindState(def.states, next);
        after := run.(status := if state.terminal then Succeeded else Running,
                      currentState := next, decisionPoint := None, revision := run.revision + 1);
      }
      Save(after, others);
    }

    method DecisionRun(run: Run, state: StateNode, pointId: nat, ghost others: Entries) returns (after: Run)
      requires InStep(run, others)
      modifies this`runs, this`resourceLeases, coordinator, coordinator.backend
      ensures coordinator.Valid() && Accounts(others)
      ensures after == CreateDecision(run, state, pointId) && after.id == run.id
      ensures Saved(old(runs), old(resourceLeases), after, runs, resourceLeases)
    {
      hide Accounted, LeaseResourceCoordinator.Valid;
      if state.options == [] {
        after := run.(status := Failed, revision := run.revision + 1);
      } else {
        var point := DecisionPoint(pointId, run.revision + 1, state.options);
        after := run.(status := WaitingDecision, decisionPoint := Some(point), revision := run.revision + 1);
      }
      Save(after, others);
    }

    /** What the handlers may see of the fencing token. A run that lost its entry acquires one first. */
    method ExecutionRun(run: Run, ownerId: string, now: int, ghost others: Entries) returns (r: Result<Token, LeaseError>)
      requires coordinator.Valid() && Accounts(others)
      modifies this`resourceLeases, coordinator, coordinator.backend
      ensures coordinator.Valid() && Accounts(others)
      ensures run.id in old(resourceLeases) ==>
        && resourceLeases == old(resourceLeases) && r == Success(resourceLeases[run.id].token)
        && unchanged(coordinator) && coordinator.BackendIssued() == old(coordinator.BackendIssued())
      ensures run.id !in old(resourceLeases) ==>
        (r.Success? <==> Grants(old(coordinator.claims), DeviceRequest(run.deviceId, ownerId), now))
      ensures run.id !in old(resourceLeases) && r.Success? ==>
        && run.id in resourceLeases && resourceLeases == old(resourceLeases)[run.id := resourceLeases[run.id]]
        && r.value == resourceLeases[run.id].token && resourceLeases[run.id].ownerId == ownerId
        && IsCurrent(coordinator.claims, resourceLeases[run.id])
      ensures r.Failure? ==> resourceLeases == old(resourceLeases)
    {
      if run.id !in resourceLeases {
        hide Accounted, LeaseResourceCoordinator.Valid;
        var lease, kept := Hold(coordinator, DeviceRequest(run.deviceId, ownerId), now, run.id, resourceLeases, others);
        if lease.Failure? {
          return Failure(lease.error);
        }
        resourceLeases := kept;
      }
      return Success(resourceLeases[run.id].token);
    }

    /** Saves the progress that the handler reports while it runs. */
    method Checkpoint(run: Run, events: nat, ghost others: Entries) returns (after: Run)
      requires InStep(run, others) && !Terminal(run.status) && run.id in runs && runs[run.id] == run
      modifies this`runs, this`resourceLeases, coordinator, coordinator.backend
      ensures InStep(after, others) && after == run.(revision := run.revision + 2 * events)
      ensures Saved(old(runs), old(resourceLeases), after, runs, resourceLeases)
    {
      hide Accounted, LeaseResourceCoordinator.Valid;
      after := run;
      assert runs == runs[run.id := run];
      var k := 0;
      while k < events
        invariant k <= events
        invariant InStep(after, others) && Saved(old(runs), old(resourceLeases), after, runs, resourceLeases)
        invariant after == run.(revision := run.revision + 2 * k)
      {
        after := after.(revision := after.revision + 1);
        Save(after, others);
        after := after.(revision := after.revision + 1);
        Save(after, others);
        k := k + 1;
      }
    }

    /** Records an attempt, lets the handler run and checkpoint its progress, and records how the attempt ended. */
    method Dispatch(run: Run, action: Action, input: TickInput, status: AttemptStatus, ghost others: Entries) returns (after: Run)
      requires InStep(run, others) && !Terminal(run.status) && status != AttemptRunning
      modifies this`runs, this`resourceLeases, coordinator, coordinator.backend
      ensures InStep(after, others) && after == Dispatched(run, action, input, status)
      ensures Saved(old(runs), old(resourceLeases), after, runs, resourceLeases)
    {
      hide Accounted, LeaseResourceCoordinator.Valid, AttemptsOf;
      var attempt := Attempt(action.id, AttemptsOf(run.attempts, action.id) + 1, AttemptRunning);
      after := run.(attempts := run.attempts + [attempt], revision := run.revision + 1);
      Save(after, others);
      var token := ExecutionRun(after, "", input.now, others);
      after := Checkpoint(after, input.progressEvents, others);
      after := after.(outputs := after.outputs + if input.hasFacts then {FactsOf(action.id)} else {});
      Save(after, others);
      var ended := after.attempts[|run.attempts| := attempt.(status := status)];
      after := after.(attempts := ended, revision := after.revision + 1);
      Save(after, others);
      assert ended == run.attempts + [attempt.(status := status)];
    }

    /** Applies the provider's answer about a failed action. */
    method ReconcileRun(def: Definition, run: Run, state: StateNode, input: TickInput, pointId: nat, ghost others: Entries)
      returns (after: Run)
      requires InStep(run, others) && !Terminal(run.status)
      requires state.action.Some? && state.id in StateIds(def.states) && References(state) <= StateIds(def.states)
      modifies this`runs, this`resourceLeases, coordinator, coordinator.backend
      ensures coordinator.Valid() && Accounts(others)
      ensures after == ApplyReconcile(def, run, state, input, pointId) && after.id == run.id
      ensures Saved(old(runs), old(resourceLeases), after, runs, resourceLeases)
    {
      hide Accounted, LeaseResourceCoordinator.Valid, AttemptsOf, StateIds, References, NextState, Advance, CreateDecision;
      NextStateIsReference(state, {});
      var recovering := run.(status := Recovering, revision := run.revision + 1);
      if input.classification == ConfirmedInProgress {
        after := recovering.(recovery := Some(Recovery(true, Some(input.now + input.pollSeconds))));
        Save(after, others);
        return;
      }
      Save(recovering, others);
      var directive := DirectiveFor(state.action.value, input.classification);
      if directive == Continue {
        after := AdvanceRun(def, recovering, NextState(state, {}), others);
      } else if directive == Retry && AttemptsOf(run.attempts, state.id) < state.action.value.maxAttempts {
        after := recovering.(status := Running, revision := recovering.revision + 1);
        Save(after, others);
      } else {
        after := DecisionRun(recovering, state, pointId, others);
      }
    }

    method ActionRun(def: Definition, run: Run, state: StateNode, input: TickInput, pointId: nat, ghost others: Entries)
      returns (after: Run)
      requires InStep(run, others) && !Terminal(run.status)
      requires state.action.Some? && state.id in StateIds(def.states) && References(state) <= StateIds(def.states)
      modifies this`runs, this`resourceLeases, coordinator, coordinator.backend
      ensures coordinator.Valid() && Accounts(others)
      ensures after == RunAction(def, run, state, input, pointId) && after.id == run.id
      ensures Saved(old(runs), old(resourceLeases), after, runs, resourceLeases)
    {
      hide Accounted, LeaseResourceCoordinator.Valid, StateIds, References, NextState, Advance, CreateDecision, ApplyReconcile, ActionSucceeds, Dispatched;
      NextStateIsReference(state, input.observed);
      var action := state.action.value;
      DispatchedIsLive(run, action, input, AttemptSucceeded);
      DispatchedIsLive(run, action, input, AttemptUnknown);
      if ActionSucceeds(action, input) {
        var attempted := Dispatch(run, action, input, AttemptSucceeded, others);
        after := AdvanceRun(def, attempted, NextState(state, input.observed), others);
      } else {
        var attempted := Dispatch(run, action, input, AttemptUnknown, others);
        if action.hasProvider {
          var waiting := attempted.(status := WaitingReconcile, revision := attempted.revision + 1);
          Save(waiting, others);
          var token := ExecutionRun(waiting, "", input.now, others);
          after := ReconcileRun(def, waiting, state, input, pointId, others);
        } else {
          after := DecisionRun(attempted, state, pointId, others);
        }
      }
    }

    /** Resumes only after the provider has been asked about the last action. */
    method RecoverRun(def: Definition, run: Run, state: StateNode, input: TickInput, pointId: nat, ghost others: Entries)
      returns (after: Run)
      requires InStep(run, others) && !Terminal(run.status) && run.status == Recovering
      requires run.id in runs && runs[run.id] == run
      requires state.id in StateIds(def.states) && References(state) <= StateIds(def.states)
      modifies this`runs, this`resourceLeases, coordinator, coordinator.backend
      ensures coordinator.Valid() && Accounts(others)
      ensures after == Recover(def, run, state, input, pointId) && after.id == run.id
      ensures Saved(old(runs), old(resourceLeases), after, runs, resourceLeases)
    {
      hide Accounted, LeaseResourceCoordinator.Valid, StateIds, References, NextState, Advance, CreateDecision;
      NextStateIsReference(state, {});
      if !RecoveryRequired(run) {
        after := run.(status := Running, revision := run.revision + 1);
        Save(after, others);
      } else if WaitsUntilLater(run, input.now) {
        after := run;
        assert runs == runs[run.id := run];
      } else if state.action.None? || !state.action.value.hasProvider {
        after := DecisionRun(run, state, pointId, others);
      } else {
        var token := ExecutionRun(run, "", input.now, others);
        match input.classification
        case ConfirmedSuccess =>
          var recovered := run.(recovery := Some(Recovery(false, None)), revision := run.revision + 1);
          Save(recovered, others);
          after := AdvanceRun(def, recovered, NextState(state, {}), others);
        case ConfirmedNotStarted =>
          after := run.(recovery := Some(Recovery(false, None)), status := Running, revision := run.revision + 1);
          Save(after, others);
        case ConfirmedInProgress =>
          after := run.(recovery := Some(Recovery(true, Some(input.now + input.pollSeconds))), status := Recovering,
                        revision := run.revision + 1);
          Save(after, others);
        case _ =>
          var observed := run.(revision := run.revision + 1);
          Save(observed, others);
          after := DecisionRun(observed, state, pointId, others);
      }
    }

    /** One step of a drivable run. */
    method StepRun(def: Definition, run: Run, input: TickInput, pointId: nat, ghost others: Entries) returns (after: Run)
      requires InStep(run, others) && Drivable(run.status) && run.id in runs && runs[run.id] == run
      requires ValidDefinition(def) && OnState(def, run)
      modifies this`runs, this`resourceLeases, coordinator, coordinator.backend
      ensures coordinator.Valid() && Accounts(others)
      ensures after == Workflows.Tick(def, run, input, pointId) && after.id == run.id
      ensures Saved(old(runs), old(resourceLeases), after, runs, resourceLeases)
    {
      FoundReferences(def, run.currentState);
      hide Accounted, LeaseResourceCoordinator.Valid, StateIds, References, RunAction, Recover, Advance, CreateDecision, FindState,
        Workflows.ValidDefinition;
      var state := FindState(def.states, run.currentState);
      if run.status == Recovering {
        after := RecoverRun(def, run, state, input, pointId, others);
      } else if state.terminal {
        after := run.(status := Succeeded, revision := run.revision + 1);
        Save(after, others);
      } else if state.action.Some? {
        after := ActionRun(def, run, state, input, pointId, others);
      } else if state.options != [] {
        after := DecisionRun(run, state, pointId, others);
      } else {
        after := AdvanceRun(def, run, state.nextState, others);
      }
    }

    method Tick(id: string, input: TickInput, ghost others: Entries) returns (r: Option<Run>)
      requires Valid() && Accounts(others)
      modifies this`runs, this`resourceLeases, this`nextPoint, coordinator, coordinator.backend
      ensures Valid() && Accounts(others)
      ensures Answered(definitions, old(runs), old(resourceLeases), old(nextPoint), id, DoTick(input), r, runs, resourceLeases)
      ensures nextPoint == old(nextPoint) + if r.Some? then 1 else 0
    {
      hide Accounted, LeaseResourceCoordinator.Valid, Settled, OnState, Workflows.Tick, Workflows.ValidDefinition, Step, Known, Leased;
      if id !in runs {
        return None;
      }
      var run := runs[id];
      RunIsKnown(runs, definitions, nextPoint, id);
      LiveIsLeased(runs, resourceLeases, id);
      var def := definitions[run.definition];
      var pointId := nextPoint;
      if Drivable(run.status) {
        run := StepRun(def, run, input, pointId, others);
      } else {
        assert runs == runs[run.id := run];
      }
      nextPoint := nextPoint + 1;
      StepTicks(def, Machine(old(runs)[id], pointId), input);
      CallKeeps(definitions, old(runs), old(resourceLeases), pointId, id, DoTick(input), Machine(run, nextPoint), runs, resourceLeases);
      return Some(run);
    }

    /** The call turns the run into after and needs no new decision point. */
    ghost predicate IsStep(id: string, op: Op, after: Run)
      reads this
    {
      && id in runs && runs[id].definition in definitions
      && var def := definitions[runs[id].definition];
         ValidDefinition(def) && OnState(def, runs[id]) && Step(def, Machine(runs[id], nextPoint), op) == Machine(after, nextPoint)
    }

    /** Replaces a run as a call has decided, and saves it if the call changed it. */
    method Settle(id: string, after: Run, ghost op: Op, ghost others: Entries)
      requires Valid() && Accounts(others) && id in runs && (after != runs[id] ==> !Terminal(runs[id].status))
      requires IsStep(id, op, after)
      modifies this`runs, this`resourceLeases, coordinator, coordinator.backend
      ensures Valid() && Accounts(others)
      ensures Answered(definitions, old(runs), old(resourceLeases), nextPoint, id, op, Some(after), runs, resourceLeases)
    {
      hide Accounted, LeaseResourceCoordinator.Valid, Settled, OnState, Workflows.ValidDefinition, Step, Known, Leased;
      RunIsKnown(runs, definitions, nextPoint, id);
      LiveIsLeased(runs, resourceLeases, id);
      StepIdentity(definitions[runs[id].definition], Machine(runs[id], nextPoint), op);
      if after != runs[id] {
        Save(after, others);
      } else {
        assert runs == runs[id := after];
      }
      CallKeeps(definitions, old(runs), old(resourceLeases), nextPoint, id, op, Machine(after, nextPoint), runs, resourceLeases);
    }

    /** Fences a run that was in flight when its process stopped. A pending decision stands. */
    method MarkInterrupted(id: string, ghost others: Entries) returns (r: Option<Run>)
      requires Valid() && Accounts(others)
      modifies this`runs, this`resourceLeases, coordinator, coordinator.backend
      ensures Valid() && Accounts(others)
      ensures Answered(definitions, old(runs), old(resourceLeases), nextPoint, id, DoInterrupt, r, runs, resourceLeases)
    {
      hide Accounted, LeaseResourceCoordinator.Valid, Settled, OnState, Workflows.ValidDefinition, Known, Leased;
      if id !in runs {
        return None;
      }
      RunIsKnown(runs, definitions, nextPoint, id);
      var run := runs[id];
      if !Terminal(run.status) && run.status != WaitingDecision {
        run := run.(status := Paused, recovery := Some(Recovery(true, None)), revision := run.revision + 1);
      }
      Settle(id, run, DoInterrupt, others);
      return Some(run);
    }

    /** Pauses a live run; its last action is uncertain from now on. */
    method Pause(id: string, ghost others: Entries) returns (r: Option<Run>)
      requires Valid() && Accounts(others)
      modifies this`runs, this`resourceLeases, coordinator, coordinator.backend
      ensures Valid() && Accounts(others)
      ensures Answered(definitions, old(runs), old(resourceLeases), nextPoint, id, DoPause, r, runs, resourceLeases)
    {
      hide Accounted, LeaseResourceCoordinator.Valid, Settled, OnState, Workflows.ValidDefinition, Known, Leased;
      if id !in runs {
        return None;
      }
      RunIsKnown(runs, definitions, nextPoint, id);
      var run := runs[id];
      if !Terminal(run.status) {
        run := run.(status := Paused, recovery := Some(Recovery(true, None)), revision := run.revision + 1);
      }
      Settle(id, run, DoPause, others);
      return Some(run);
    }

    /** Lets a stopped run go on, through recovery if reconciliation is owed. */
    method Resume(id: string, ghost others: Entries) returns (r: Option<Run>)
      requires Valid() && Accounts(others)
      modifies this`runs, this`resourceLeases, coordinator, coordinator.backend
      ensures Valid() && Accounts(others)
      ensures Answered(definitions, old(runs), old(resourceLeases), nextPoint, id, DoResume, r, runs, resourceLeases)
    {
      hide Accounted, LeaseResourceCoordinator.Valid, Settled, OnState, Workflows.ValidDefinition, Known, Leased;
      if id !in runs {
        return None;
      }
      RunIsKnown(runs, definitions, nextPoint, id);
      var run := runs[id];
      if run.status in {Paused, WaitingDecision, Recovering} {
        var status := if RecoveryRequired(run) then Recovering else Running;
        run := run.(status := status, decisionPoint := None, revision := run.revision + 1);
      }
      Settle(id, run, DoResume, others);
      return Some(run);
    }

    /** Cancels a live run. */
    method Cancel(id: string, ghost others: Entries) returns (r: Option<Run>)
      requires Valid() && Accounts(others)
      modifies this`runs, this`resourceLeases, coordinator, coordinator.backend
      ensures Valid() && Accounts(others)
      ensures Answered(definitions, old(runs), old(resourceLeases), nextPoint, id, DoCancel, r, runs, resourceLeases)
    {
      hide Accounted, LeaseResourceCoordinator.Valid, Settled, OnState, Workflows.ValidDefinition, Known, Leased;
      if id !in runs {
        return None;
      }
      RunIsKnown(runs, definitions, nextPoint, id);
      var run := runs[id];
      if !Terminal(run.status) {
        run := run.(status := Cancelled, decisionPoint := None, revision := run.revision + 1);
      }
      Settle(id, run, DoCancel, others);
      return Some(run);
    }

    /** Applies a submitted decision, or refuses it and changes nothing. */
    method ApplyDecision(id: string, submission: Submission, ghost others: Entries) returns (r: Option<Run>, accepted: bool)
      requires Valid() && Accounts(others)
      modifies this`runs, this`resourceLeases, coordinator, coordinator.backend
      ensures Valid() && Accounts(others)
      ensures Answered(definitions, old(runs), old(resourceLeases), nextPoint, id, DoDecide(submission), r, runs, resourceLeases)
      ensures accepted <==> id in old(runs) && Chosen(old(runs)[id], submission).Some?
    {
      hide Accounted, LeaseResourceCoordinator.Valid, Workflows.ValidDefinition, Known, Leased, Chosen, StateIds, FindState;
      if id !in runs {
        return None, false;
      }
      RunIsKnown(runs, definitions, nextPoint, id);
      var run := runs[id];
      var def := definitions[run.definition];
      var chosen := Chosen(run, submission);
      if chosen.Some? {
        ChosenIsLive(def, Machine(run, nextPoint), submission);
        var option := chosen.value;
        var decided := run.(decisionPoint := None, outputs := run.outputs + {DecisionMade});
        if option.kind == Abort || option.kind == CancelRun {
          run := decided.(status := Cancelled, revision := run.revision + 1);
        } else if option.kind == Choice && option.nextState != "" && option.nextState in StateIds(def.states) {
          run := Advance(def, decided, option.nextState);
        } else {
          run := decided.(status := Running, revision := run.revision + 1);
        }
      }
      Settle(id, run, DoDecide(submission), others);
      return Some(run), chosen.Some?;
    }

    /** The outside lets a drive of the run come to an end. */
    ghost predicate DriveEnds(id: string, env: Env)
      reads this
    {
      && id in runs && runs[id].definition in definitions
      && EnvEnds(definitions[runs[id].definition], Machine(runs[id], nextPoint), env)
    }

    /** One round of the drive loop. */
    method DriveOnce(id: string, env: Env, k: nat, ghost def: Definition, ghost m: Machine, ghost runs0: map<string, Run>,
                     ghost leases0: Entries, ghost others: Entries)
      requires Valid() && Accounts(others)
      requires InDrive(def, m, env, k, id, runs0, leases0, runs, resourceLeases, nextPoint) && Drivable(runs[id].status)
      requires m.run.definition in definitions && definitions[m.run.definition] == def
      modifies this`runs, this`resourceLeases, this`nextPoint, coordinator, coordinator.backend
      ensures Valid() && Accounts(others) && id in runs
      ensures InDrive(def, m, env, k + 1, id, runs0, leases0, runs, resourceLeases, nextPoint)
    {
      hide Accounted, LeaseResourceCoordinator.Valid, OnState, Workflows.ValidDefinition, Known, Leased, Settled, Step, Driven, Registered;
      ghost var before := Machine(runs[id], nextPoint);
      var ticked := Tick(id, env(k), others);
      StepIdentity(def, before, DoTick(env(k)));
      StepTicks(def, before, env(k));
      DrivenOnce(def, m, env, k, before, Machine(runs[id], nextPoint));
      SavedTwice(runs0, leases0, before.run, old(runs), old(resourceLeases), runs[id], runs, resourceLeases);
    }

    /** Ticks a run until it is neither running nor recovering. */
    method RunUntilBlocked(id: string, env: Env, ghost others: Entries) returns (r: Option<Run>, ticks: nat)
      requires Valid() && Accounts(others) && (id in runs ==> DriveEnds(id, env))
      modifies this`runs, this`resourceLeases, this`nextPoint, coordinator, coordinator.backend
      ensures Valid() && Accounts(others) && (r.Some? <==> id in old(runs))
      ensures r.None? ==> runs == old(runs) && resourceLeases == old(resourceLeases)
      ensures r.Some? ==>
        && id in runs && old(runs)[id].definition in definitions
        && DrivenFor(definitions[old(runs)[id].definition], Machine(old(runs)[id], old(nextPoint)), env, ticks, Machine(runs[id], nextPoint))
        && r.value == runs[id] && !Drivable(r.value.status) && (Drivable(old(runs)[id].status) ==> Blocked(r.value.status))
        && Saved(old(runs), old(resourceLeases), r.value, runs, resourceLeases)
    {
      hide Accounted, LeaseResourceCoordinator.Valid, OnState, Workflows.ValidDefinition, Settled, Driven, DrivenFor, InDrive, Step;
      ticks := 0;
      if id !in runs {
        return None, 0;
      }
      RunIsKnown(runs, definitions, nextPoint, id);
      LiveIsLeased(runs, resourceLeases, id);
      ghost var def, m := definitions[runs[id].definition], Machine(runs[id], nextPoint);
      hide *;

      ghost var n := DriveStart(def, m, env, id, runs, resourceLeases, nextPoint);
      while Drivable(runs[id].status)
        invariant Valid() && Accounts(others)
        invariant InDrive(def, m, env, ticks, id, old(runs), old(resourceLeases), runs, resourceLeases, nextPoint)
        invariant id in runs
        decreases n - ticks
      {
        DriveBefore(def, m, env, ticks, id, old(runs), old(resourceLeases), runs, resourceLeases, nextPoint, n);
        DriveOnce(id, env, ticks, def, m, old(runs), old(resourceLeases), others);
        ticks := ticks + 1;
      }
      DriveDone(def, m, env, ticks, id, old(runs), old(resourceLeases), runs, resourceLeases, nextPoint);
      DriveLeaves(def, m, env, ticks, Machine(runs[id], nextPoint));
      return Some(runs[id]), ticks;
    }
  }

  /** What a drive of so many ticks, all of them needed, makes of the machine. */
  ghost predicate DrivenFor(def: Definition, m: Machine, env: Env, ticks: nat, now: Machine)
  {
    && ValidDefinition(def) && Settled(def, m) && now == Driven(def, m, env, ticks)
    && forall k :: 0 <= k < ticks ==> Drivable(Driven(def, m, env, k).run.status)
  }

  lemma DriveLeaves(def: Definition, m: Machine, env: Env, ticks: nat, now: Machine)
    requires DrivenFor(def, m, env, ticks, now) && !Drivable(now.run.status)
    ensures Drivable(m.run.status) ==> Blocked(now.run.status)
  {
    hide Settled, Workflows.ValidDefinition, Driven;
    if Drivable(m.run.status) {
      DriveBlocks(def, m, env, ticks);
    }
  }

  /** Some drive of a run that has just been started ends so. */
  lemma SomeDriveEnds(s: RunStatus, deviceId: string, runId: string, point: nat) returns (def: Definition, env: Env, now: Machine)
    requires Blocked(s)
    ensures ValidDefinition(def) && DrivenFor(def, Machine(Started(def, deviceId, runId), point), env, 1, now) && now.run.status == s
  {
    var action := Action("only", 1, {}, false, map[], false, false);
    var option := DecisionOption("retry", RetryAction, {}, false, InputSchema(map[], {}), "");
    var state := StateNode("only", if s == Failed then Some(action) else None, "", [], if s == WaitingDecision then [option] else [], s == Succeeded);
    def := Definition("workflow", "1", "only", [state]);
    env := k => TickInput(0, 0, false, {}, false, 0, Indeterminate);
    var m := Machine(Started(def, deviceId, runId), point);
    assert def.states[0].id in StateIds(def.states);
    assert References(state) == {};
    StartSettles(def, deviceId, runId, point);
    assert Driven(def, m, env, 0) == m;
    now := Driven(def, m, env, 1);
    assert now == Step(def, m, DoTick(env(0)));
    assert FindState(def.states, "only") == state;
  }

  /** For any limit and any answer that is not "in progress" there is a valid definition whose new run calls its handler at
      every tick and never blocks: the answer leads to a retry, and the action's id is not the state's. */
  lemma SomeRetryIsEndless(limit: nat, c: Classification, deviceId: string, runId: string, point: nat) returns (def: Definition, env: Env)
    requires limit >= 1 && c != ConfirmedInProgress
    ensures ValidDefinition(def) && Settled(def, Machine(Started(def, deviceId, runId), point))
    ensures def.states[0].action.Some? && def.states[0].action.value.maxAttempts == limit && KeepsFailing(env, c)
    ensures forall k: nat {:trigger Driven(def, Machine(Started(def, deviceId, runId), point), env, k)} ::
      var m := Machine(Started(def, deviceId, runId), point);
      Drivable(Driven(def, m, env, k).run.status) && HandlerCalls(def, m, env, k) == k
  {
    var action := Action("other", limit, {}, true, map[c := Retry], false, false);
    var state := StateNode("only", Some(action), "", [], [], false);
    def := Definition("workflow", "1", "only", [state]);
    env := k => TickInput(0, 0, false, {}, false, 0, c);
    var m := Machine(Started(def, deviceId, runId), point);
    assert def.states[0].id in StateIds(def.states);
    assert References(state) == {};
    StartSettles(def, deviceId, runId, point);
    assert FindState(def.states, "only") == state;
    forall k: nat ensures Drivable(Driven(def, m, env, k).run.status) && HandlerCalls(def, m, env, k) == k {
      MiskeyedRetriesForever(def, m, env, c, k);
    }
  }

  lemma DrivenOnce(def: Definition, m: Machine, env: Env, ticks: nat, before: Machine, after: Machine)
    requires DrivenFor(def, m, env, ticks, before) && Drivable(before.run.status)
    requires ValidDefinition(def) && OnState(def, before.run) && after == Step(def, before, DoTick(env(ticks)))
    ensures DrivenFor(def, m, env, ticks + 1, after)
  {
    hide Step, Settled, OnState, Workflows.ValidDefinition;
  }

  /** A drive in progress, and all it has saved so far. */
  ghost predicate InDrive(def: Definition, m: Machine, env: Env, ticks: nat, id: string, runs0: map<string, Run>, leases0: Entries,
                          runs: map<string, Run>, leases: Entries, nextPoint: nat)
  {
    && id in runs && runs[id].id == id && runs[id].definition == m.run.definition
    && DrivenFor(def, m, env, ticks, Machine(runs[id], nextPoint)) && Saved(runs0, leases0, runs[id], runs, leases)
  }

  lemma DriveStart(def: Definition, m: Machine, env: Env, id: string, runs: map<string, Run>, leases: Entries, nextPoint: nat)
    returns (n: nat)
    requires EnvEnds(def, m, env) && id in runs && m == Machine(runs[id], nextPoint) && m.run.id == id
    requires id in leases <==> !Terminal(m.run.status)
    ensures InDrive(def, m, env, 0, id, runs, leases, runs, leases, nextPoint)
    ensures !Drivable(Driven(def, m, env, n).run.status)
  {
    n :| !Drivable(Driven(def, m, env, n).run.status);
    assert runs == runs[id := runs[id]];
  }

  lemma DriveBefore(def: Definition, m: Machine, env: Env, ticks: nat, id: string, runs0: map<string, Run>, leases0: Entries,
                    runs: map<string, Run>, leases: Entries, nextPoint: nat, n: nat)
    requires InDrive(def, m, env, ticks, id, runs0, leases0, runs, leases, nextPoint)
    requires Drivable(runs[id].status) && !Drivable(Driven(def, m, env, n).run.status)
    ensures ticks < n
  {
    hide Driven;
  }

  lemma DriveDone(def: Definition, m: Machine, env: Env, ticks: nat, id: string, runs0: map<string, Run>, leases0: Entries,
                  runs: map<string, Run>, leases: Entries, nextPoint: nat)
    requires InDrive(def, m, env, ticks, id, runs0, leases0, runs, leases, nextPoint)
    ensures DrivenFor(def, m, env, ticks, Machine(runs[id], nextPoint)) && Saved(runs0, leases0, runs[id], runs, leases)
  {
  }

  /** A drive of the machine blocks at some point. */
  ghost predicate EnvEnds(def: Definition, m: Machine, env: Env)
  {
    ValidDefinition(def) && Settled(def, m) && exists n: nat :: !Drivable(Driven(def, m, env, n).run.status)
  }

  /** A drive of an acyclic definition ends once the providers stop answering "in progress". */
  lemma AcyclicDriveEnds(def: Definition, m: Machine, env: Env, p: nat)
    requires ValidDefinition(def) && Graphs.Acyclic(LeadsTo(def)) && WellKeyed(def) && Settled(def, m)
    requires ProgressEnds(env, p) && ClockRuns(def, m, env)
    ensures EnvEnds(def, m, env)
  {
    var n := DriveIsBounded(def, m, env, p);
  }

  lemma ChosenIsLive(def: Definition, m: Machine, s: Submission)
    requires ValidDefinition(def) && Settled(def, m) && Chosen(m.run, s).Some?
    ensures !Terminal(m.run.status)
  {
  }

  lemma StepTicks(def: Definition, m: Machine, input: TickInput)
    requires ValidDefinition(def) && OnState(def, m.run)
    ensures Step(def, m, DoTick(input)) ==
      Machine(if Drivable(m.run.status) then Workflows.Tick(def, m.run, input, m.nextPoint) else m.run, m.nextPoint + 1)
  {
  }

  lemma DispatchedIsLive(run: Run, action: Action, input: TickInput, status: AttemptStatus)
    ensures Dispatched(run, action, input, status).status == run.status && Dispatched(run, action, input, status).id == run.id
  {
  }
}
