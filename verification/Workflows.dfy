/** Workflow definitions, runs, and what each runtime call makes of a run. */
module Workflows {
  import opened Ids
  import opened Graphs

  datatype RunStatus =
    | Pending | Running | WaitingReconcile | WaitingDecision | Recovering | Paused | Succeeded | Failed | Cancelled

  predicate Terminal(s: RunStatus)
  {
    s == Succeeded || s == Failed || s == Cancelled
  }

  predicate Drivable(s: RunStatus)
  {
    s == Running || s == Recovering
  }

  /** Where a drive can leave a run. */
  predicate Blocked(s: RunStatus)
  {
    s == Succeeded || s == Failed || s == WaitingDecision
  }

  /** What a reconcile provider says about an action; providers may also answer with a text of their own. */
  datatype Classification =
    | ConfirmedSuccess | ConfirmedNotStarted | ConfirmedInProgress | ConfirmedFailed | Indeterminate | Unlisted(text: string)

  datatype Directive = Continue | Retry | Decide

  /** What an option does; every kind without a rule of its own is Choice. */
  datatype OptionKind = Abort | CancelRun | Reconnect | RetryAction | Choice

  /** properties gives the allowed values of each input, where they are restricted. */
  datatype InputSchema = InputSchema(properties: map<string, Option<set<string>>>, required: set<string>)

  datatype DecisionOption = DecisionOption(
    id: string, kind: OptionKind, allowedActors: set<string>, requiresReason: bool, schema: InputSchema, nextState: string)

  datatype Action = Action(
    id: string, maxAttempts: nat, terminalEvents: set<string>,
    hasProvider: bool, onClassification: map<Classification, Directive>, risky: bool, hasProbes: bool)

  datatype StateNode = StateNode(
    id: string, action: Option<Action>, nextState: string, transitions: seq<(string, string)>,
    options: seq<DecisionOption>, terminal: bool)

  datatype Definition = Definition(id: string, version: string, startState: string, states: seq<StateNode>)

  datatype AttemptStatus = AttemptRunning | AttemptSucceeded | AttemptUnknown

  datatype Attempt = Attempt(actionId: string, number: nat, status: AttemptStatus)

  /** The recovery record in a run's context; retryAt is the time before which nothing is probed again. */
  datatype Recovery = Recovery(required: bool, retryAt: Option<int>)

  /** A named result of a run: the facts of an action, or what a decision left. */
  datatype Output = FactsOf(actionId: string) | DecisionMade

  datatype DecisionPoint = DecisionPoint(id: nat, revision: nat, options: seq<DecisionOption>)

  datatype Run = Run(
    id: string,
    definition: (string, string),
    deviceId: string,
    status: RunStatus,
    currentState: string,
    revision: nat,
    recovery: Option<Recovery>,
    attempts: seq<Attempt>,
    decisionPoint: Option<DecisionPoint>,
    outputs: set<Output>)

  datatype Submission = Submission(
    pointId: nat, expectedRevision: nat, optionId: string, actorType: string, reason: string, inputs: map<string, string>)

  // ----- Definitions -----

  function StateIds(states: seq<StateNode>): set<string>
  {
    set i | 0 <= i < |states| :: states[i].id
  }

  function TransitionTargets(state: StateNode): set<string>
  {
    set i | 0 <= i < |state.transitions| :: state.transitions[i].1
  }

  /** The states a state refers to. An empty next state refers to none. */
  function References(state: StateNode): set<string>
  {
    TransitionTargets(state) + if state.nextState != "" then {state.nextState} else {}
  }

  predicate UniqueStates(states: seq<StateNode>)
  {
    forall i, j :: 0 <= i < j < |states| ==> states[i].id != states[j].id
  }

  predicate ValidDefinition(def: Definition)
  {
    && def.id != "" && def.version != "" && def.states != []
    && UniqueStates(def.states) && def.startState in StateIds(def.states)
    && (forall i :: 0 <= i < |def.states| ==> References(def.states[i]) <= StateIds(def.states))
    && (forall i :: 0 <= i < |def.states| && def.states[i].action.Some? ==>
         var a := def.states[i].action.value;
         a.maxAttempts >= 1 && (a.risky && !a.hasProvider ==> a.hasProbes))
  }

  /** The first state with the given id. */
  function FindState(states: seq<StateNode>, id: string): (s: StateNode)
    requires id in StateIds(states)
    ensures s in states && s.id == id
  {
    if states[0].id == id then states[0]
    else
      assert id in StateIds(states[1..]) by {
        var i :| 0 <= i < |states| && states[i].id == id;
        assert states[1..][i - 1].id == id;
      }
      FindState(states[1..], id)
  }

  ghost function LeadsTo(def: Definition): Graph
  {
    map n | n in StateIds(def.states) :: References(FindState(def.states, n))
  }

  // ----- Steps on a run -----

  /** Where a completed state leads: the first transition whose event was observed, else the next state. */
  function FirstTransition(transitions: seq<(string, string)>, observed: set<string>, otherwise: string): string
  {
    if transitions == [] then otherwise
    else if transitions[0].0 in observed then transitions[0].1
    else FirstTransition(transitions[1..], observed, otherwise)
  }

  function NextState(state: StateNode, observed: set<string>): string
  {
    FirstTransition(state.transitions, observed, state.nextState)
  }

  function AttemptsOf(attempts: seq<Attempt>, id: string): nat
  {
    if attempts == [] then 0
    else AttemptsOf(attempts[..|attempts| - 1], id) + if attempts[|attempts| - 1].actionId == id then 1 else 0
  }

  function Advance(def: Definition, run: Run, next: string): Run
    requires next == "" || next in StateIds(def.states)
  {
    if next == "" then run.(status := Succeeded, currentState := "", revision := run.revision + 1)
    else
      run.(status := if FindState(def.states, next).terminal then Succeeded else Running,
           currentState := next, decisionPoint := None, revision := run.revision + 1)
  }

  function CreateDecision(run: Run, state: StateNode, pointId: nat): Run
  {
    if state.options == [] then run.(status := Failed, revision := run.revision + 1)
    else
      run.(status := WaitingDecision, revision := run.revision + 1,
           decisionPoint := Some(DecisionPoint(pointId, run.revision + 1, state.options)))
  }

  /** Everything outside the runtime that one tick depends on: the time, what the handler reported and the provider
      answered. progressEvents counts the progress reports saved while the handler ran. */
  datatype TickInput = TickInput(
    now: int, pollSeconds: nat, succeeded: bool, observed: set<string>, hasFacts: bool, progressEvents: nat,
    classification: Classification)

  function DirectiveFor(action: Action, c: Classification): Directive
  {
    if c in action.onClassification then action.onClassification[c] else Decide
  }

  /** After a failed or timed-out action has been reconciled. */
  function ApplyReconcile(def: Definition, run: Run, state: StateNode, input: TickInput, pointId: nat): Run
    requires state.action.Some? && state.id in StateIds(def.states) && References(state) <= StateIds(def.states)
  {
    NextStateIsReference(state, {});
    var recovering := run.(status := Recovering, revision := run.revision + 1);
    if input.classification == ConfirmedInProgress then
      recovering.(recovery := Some(Recovery(true, Some(input.now + input.pollSeconds))))
    else match DirectiveFor(state.action.value, input.classification)
      case Continue => Advance(def, recovering, NextState(state, {}))
      case Retry =>
        if AttemptsOf(run.attempts, state.id) < state.action.value.maxAttempts then
          recovering.(status := Running, revision := recovering.revision + 1)
        else CreateDecision(recovering, state, pointId)
      case Decide => CreateDecision(recovering, state, pointId)
  }

  lemma {:induction false} FirstTransitionIsTarget(transitions: seq<(string, string)>, observed: set<string>, otherwise: string)
    ensures FirstTransition(transitions, observed, otherwise) == otherwise
      || exists i :: 0 <= i < |transitions| && transitions[i].1 == FirstTransition(transitions, observed, otherwise)
  {
    if transitions != [] && transitions[0].0 !in observed {
      FirstTransitionIsTarget(transitions[1..], observed, otherwise);
      var t := FirstTransition(transitions[1..], observed, otherwise);
      if i :| 0 <= i < |transitions[1..]| && transitions[1..][i].1 == t {
        assert transitions[i + 1].1 == t;
      }
    }
  }

  lemma NextStateIsReference(state: StateNode, observed: set<string>)
    ensures NextState(state, observed) == "" || NextState(state, observed) in References(state)
  {
    FirstTransitionIsTarget(state.transitions, observed, state.nextState);
  }

  /** Starts an attempt and lets the handler run. */
  function Dispatched(run: Run, action: Action, input: TickInput, status: AttemptStatus): Run
  {
    run.(attempts := run.attempts + [Attempt(action.id, AttemptsOf(run.attempts, action.id) + 1, status)],
         outputs := run.outputs + if input.hasFacts then {FactsOf(action.id)} else {},
         revision := run.revision + 2 + 2 * input.progressEvents)
  }

  predicate ActionSucceeds(action: Action, input: TickInput)
  {
    input.succeeded && action.terminalEvents <= input.observed
  }

  function RunAction(def: Definition, run: Run, state: StateNode, input: TickInput, pointId: nat): Run
    requires state.action.Some? && state.id in StateIds(def.states) && References(state) <= StateIds(def.states)
  {
    NextStateIsReference(state, input.observed);
    var action := state.action.value;
    if ActionSucceeds(action, input) then
      Advance(def, Dispatched(run, action, input, AttemptSucceeded), NextState(state, input.observed))
    else
      var attempted := Dispatched(run, action, input, AttemptUnknown);
      if action.hasProvider then
        ApplyReconcile(def, attempted.(status := WaitingReconcile, revision := attempted.revision + 1), state, input, pointId)
      else
        CreateDecision(attempted, state, pointId)
  }

  predicate RecoveryRequired(run: Run)
  {
    run.recovery.Some? && run.recovery.value.required
  }

  predicate WaitsUntilLater(run: Run, now: int)
  {
    RecoveryRequired(run) && run.recovery.value.retryAt.Some? && run.recovery.value.retryAt.value > now
  }

  /** Resumes only after the provider has observed the real state of the last action. */
  function Recover(def: Definition, run: Run, state: StateNode, input: TickInput, pointId: nat): Run
    requires state.id in StateIds(def.states) && References(state) <= StateIds(def.states)
  {
    NextStateIsReference(state, {});
    if !RecoveryRequired(run) then run.(status := Running, revision := run.revision + 1)
    else if WaitsUntilLater(run, input.now) then run
    else if state.action.None? || !state.action.value.hasProvider then CreateDecision(run, state, pointId)
    else match input.classification
      case ConfirmedSuccess =>
        Advance(def, run.(recovery := Some(Recovery(false, None)), revision := run.revision + 1), NextState(state, {}))
      case ConfirmedNotStarted =>
        run.(recovery := Some(Recovery(false, None)), status := Running, revision := run.revision + 1)
      case ConfirmedInProgress =>
        run.(recovery := Some(Recovery(true, Some(input.now + input.pollSeconds))), status := Recovering,
             revision := run.revision + 1)
      case _ =>
        CreateDecision(run.(revision := run.revision + 1), state, pointId)
  }

  /** A live run sits on a state of its definition. */
  predicate OnState(def: Definition, run: Run)
  {
    Terminal(run.status) || run.currentState in StateIds(def.states)
  }

  lemma FoundReferences(def: Definition, id: string)
    requires ValidDefinition(def) && id in StateIds(def.states)
    ensures References(FindState(def.states, id)) <= StateIds(def.states)
    ensures FindState(def.states, id).action.Some? ==> FindState(def.states, id).action.value.maxAttempts >= 1
  {
    var s := FindState(def.states, id);
    var i :| 0 <= i < |def.states| && def.states[i] == s;
  }

  function Tick(def: Definition, run: Run, input: TickInput, pointId: nat): Run
    requires ValidDefinition(def) && OnState(def, run)
  {
    if !Drivable(run.status) then run
    else
      FoundReferences(def, run.currentState);
      var state := FindState(def.states, run.currentState);
      if run.status == Recovering then Recover(def, run, state, input, pointId)
      else if state.terminal then run.(status := Succeeded, revision := run.revision + 1)
      else if state.action.Some? then RunAction(def, run, state, input, pointId)
      else if state.options != [] then CreateDecision(run, state, pointId)
      else Advance(def, run, state.nextState)
  }

  function Pause(run: Run): Run
  {
    if Terminal(run.status) then run
    else run.(status := Paused, recovery := Some(Recovery(true, None)), revision := run.revision + 1)
  }

  /** Fences a run that was in flight when its process stopped; a pending decision is left alone. */
  function MarkInterrupted(run: Run): Run
  {
    if Terminal(run.status) || run.status == WaitingDecision then run
    else run.(status := Paused, recovery := Some(Recovery(true, None)), revision := run.revision + 1)
  }

  function Resume(run: Run): Run
  {
    if run.status !in {Paused, WaitingDecision, Recovering} then run
    else
      run.(status := if RecoveryRequired(run) then Recovering else Running, decisionPoint := None,
           revision := run.revision + 1)
  }

  function Cancel(run: Run): Run
  {
    if Terminal(run.status) then run
    else run.(status := Cancelled, decisionPoint := None, revision := run.revision + 1)
  }

  function FindOption(options: seq<DecisionOption>, id: string): Option<DecisionOption>
  {
    if options == [] then None
    else if options[0].id == id then Some(options[0])
    else FindOption(options[1..], id)
  }

  predicate InputsAllowed(schema: InputSchema, inputs: map<string, string>)
  {
    && inputs.Keys <= schema.properties.Keys
    && schema.required <= inputs.Keys
    && (forall name :: name in inputs && schema.properties[name].Some? ==> inputs[name] in schema.properties[name].value)
  }

  /** The option a submission chooses, if the submission is allowed. */
  function Chosen(run: Run, s: Submission): Option<DecisionOption>
  {
    if run.decisionPoint.None? || run.decisionPoint.value.id != s.pointId then None
    else if s.expectedRevision != run.revision then None
    else
      match FindOption(run.decisionPoint.value.options, s.optionId)
      case None => None
      case Some(option) =>
        if s.actorType in option.allowedActors && (option.requiresReason ==> s.reason != "") && InputsAllowed(option.schema, s.inputs)
        then Some(option) else None
  }

  /** A submission that is not allowed changes nothing. */
  function ApplyDecision(def: Definition, run: Run, s: Submission): Run
  {
    match Chosen(run, s)
    case None => run
    case Some(option) =>
      var decided := run.(decisionPoint := None, outputs := run.outputs + {DecisionMade});
      if option.kind == Abort || option.kind == CancelRun then decided.(status := Cancelled, revision := run.revision + 1)
      else if option.kind == Choice && option.nextState != "" && option.nextState in StateIds(def.states) then
        Advance(def, decided, option.nextState)
      else decided.(status := Running, revision := run.revision + 1)
  }
}
