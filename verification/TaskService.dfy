/** The task service: it keeps the plan of each task and passes calls on to the orchestrator. */
module TaskService {
  import opened Ids
  import opened Graphs
  import opened ResourceBook
  import opened Resources
  import opened Holdings
  import opened Keeping
  import opened Workflows
  import opened RunTheory
  import opened Runtime
  import opened TaskPlans
  import opened PlanChecks
  import opened Batches
  import opened Passes
  import opened Histories
  import opened Drives
  import opened TaskChildren
  import opened Orchestrator

  // ----- Histories that calls leave -----

  ghost predicate Ungrouped(nodes: seq<WorkflowNode>)
  {
    forall n :: n in nodes ==> n.parallelGroup == ""
  }

  /** The history of a task with these nodes that has led to v. */
  ghost predicate LedTo(nodes: seq<WorkflowNode>, vs: seq<View>, v: View)
  {
    vs != [] && vs[|vs| - 1] == v && forall order :: IsDepthOrder(nodes, order) ==> IsHistory(None, nodes, order, vs)
  }

  ghost predicate Steps(nodes: seq<WorkflowNode>, v: View, w: View)
  {
    forall order :: IsDepthOrder(nodes, order) ==> TaskStep(None, nodes, order, v, w)
  }

  lemma OneStepFurther(nodes: seq<WorkflowNode>, vs: seq<View>, v: View, w: View)
    requires LedTo(nodes, vs, v) && Steps(nodes, v, w)
    ensures LedTo(nodes, vs + [w], w)
  {
    forall order | IsDepthOrder(nodes, order) ensures IsHistory(None, nodes, order, vs + [w]) {
      hide IsDepthOrder, IsHistory, TaskStep;
      HistoryGrows(None, nodes, order, vs, w);
    }
    hide IsDepthOrder, IsHistory;
  }

  ghost predicate OwnerIsSingle(tasks: map<string, TaskRun>, id: string)
  {
    id in tasks && forall t :: t in tasks && t != id ==> tasks[t].ownerId != tasks[id].ownerId
  }

  /** The task has an acceptable plan without groups and an owner of its own, and its history has led to what it looks like now. */
  ghost predicate IsFollowed(plans: map<string, TaskPlan>, vs: seq<View>, tasks: map<string, TaskRun>, runs: map<string, Run>,
                             leases: Entries, id: string)
  {
    && id in tasks && id in plans && ValidPlan(plans[id]) && Ungrouped(plans[id].nodes) && OwnerIsSingle(tasks, id)
    && LedTo(plans[id].nodes, vs, ViewOf(tasks[id], runs, leases))
  }

  ghost predicate Followed(plans: map<string, TaskPlan>, histories: map<string, seq<View>>, tasks: map<string, TaskRun>,
                           runs: map<string, Run>, leases: Entries)
  {
    forall id :: id in histories ==> IsFollowed(plans, histories[id], tasks, runs, leases, id)
  }

  /** Each history with what its task looks like now. */
  ghost function Advanced(histories: map<string, seq<View>>, tasks: map<string, TaskRun>, runs: map<string, Run>,
                          leases: Entries): map<string, seq<View>>
    requires histories.Keys <= tasks.Keys
  {
    map id | id in histories :: histories[id] + [ViewOf(tasks[id], runs, leases)]
  }

  lemma AloneIsStep(nodes: seq<WorkflowNode>, v: View, w: View)
    requires LeftAlone(v, w)
    ensures Steps(nodes, v, w)
  {
    hide LeftAlone, IsDepthOrder;
  }

  /** A call on one task takes the history of every task one step further. */
  lemma OneCall(plans: map<string, TaskPlan>, histories: map<string, seq<View>>, tasks: map<string, TaskRun>, runs: map<string, Run>,
                leases: Entries, tasks': map<string, TaskRun>, runs': map<string, Run>, leases': Entries, t: string)
    requires TasksKnown(tasks, runs) && Apart(tasks) && Followed(plans, histories, tasks, runs, leases)
    requires OnlyTask(tasks, tasks', t) && t in tasks && t in tasks' && tasks'[t].ownerId == tasks[t].ownerId
    requires Spares(tasks[t].nodeRuns, tasks[t].ownerId, runs, leases, tasks'[t].nodeRuns, runs', leases')
    requires t in histories && t in plans ==> Steps(plans[t].nodes, ViewOf(tasks[t], runs, leases), ViewOf(tasks'[t], runs', leases'))
    ensures histories.Keys <= tasks'.Keys && Followed(plans, Advanced(histories, tasks', runs', leases'), tasks', runs', leases')
  {
    hide IsFollowed, ViewOf, TasksKnown, Apart, Spares, Steps, OnlyTask;
    forall id | id in histories
      ensures id in tasks' && IsFollowed(plans, histories[id] + [ViewOf(tasks'[id], runs', leases')], tasks', runs', leases', id)
    {
      OneTask(plans, histories[id], tasks, runs, leases, tasks', runs', leases', t, id);
    }
  }

  lemma OneTask(plans: map<string, TaskPlan>, vs: seq<View>, tasks: map<string, TaskRun>, runs: map<string, Run>,
                leases: Entries, tasks': map<string, TaskRun>, runs': map<string, Run>, leases': Entries, t: string, id: string)
    requires TasksKnown(tasks, runs) && Apart(tasks) && IsFollowed(plans, vs, tasks, runs, leases, id)
    requires OnlyTask(tasks, tasks', t) && t in tasks && t in tasks' && tasks'[t].ownerId == tasks[t].ownerId
    requires Spares(tasks[t].nodeRuns, tasks[t].ownerId, runs, leases, tasks'[t].nodeRuns, runs', leases')
    requires t == id && t in plans ==> Steps(plans[t].nodes, ViewOf(tasks[t], runs, leases), ViewOf(tasks'[t], runs', leases'))
    ensures id in tasks' && IsFollowed(plans, vs + [ViewOf(tasks'[id], runs', leases')], tasks', runs', leases', id)
  {
    hide *;
    FollowedSays(plans, vs, tasks, runs, leases, id, t);
    SameOwners(tasks, tasks', t, id);
    var v := ViewOf(tasks[id], runs, leases);
    if id != t {
      OthersStay(tasks, runs, leases, tasks', runs', leases', t, id);
      AloneNow(v, ViewOf(tasks'[id], runs', leases'));
      AloneIsStep(plans[id].nodes, v, ViewOf(tasks'[id], runs', leases'));
    }
    OneStepFurther(plans[id].nodes, vs, v, ViewOf(tasks'[id], runs', leases'));
    StillFollowed(plans, vs + [ViewOf(tasks'[id], runs', leases')], tasks', runs', leases', id);
  }

  lemma StillFollowed(plans: map<string, TaskPlan>, vs: seq<View>, tasks: map<string, TaskRun>, runs: map<string, Run>, leases: Entries, id: string)
    requires id in tasks && id in plans && ValidPlan(plans[id]) && Ungrouped(plans[id].nodes) && OwnerIsSingle(tasks, id)
    requires LedTo(plans[id].nodes, vs, ViewOf(tasks[id], runs, leases))
    ensures IsFollowed(plans, vs, tasks, runs, leases, id)
  {
    hide LedTo, ViewOf, ValidPlan, Ungrouped, OwnerIsSingle;
  }

  lemma FollowedSays(plans: map<string, TaskPlan>, vs: seq<View>, tasks: map<string, TaskRun>, runs: map<string, Run>,
                     leases: Entries, id: string, t: string)
    requires IsFollowed(plans, vs, tasks, runs, leases, id)
    ensures id in tasks && id in plans && ValidPlan(plans[id]) && Ungrouped(plans[id].nodes) && OwnerIsSingle(tasks, id)
    ensures LedTo(plans[id].nodes, vs, ViewOf(tasks[id], runs, leases))
    ensures t in tasks && t != id ==> tasks[t].ownerId != tasks[id].ownerId
  {
    hide LedTo, ViewOf, ValidPlan, Ungrouped;
  }

  lemma AloneNow(v: View, w: View)
    requires w == v.(stray := w.stray) && (w.stray ==> v.stray)
    ensures LeftAlone(v, w)
  {
  }

  lemma SameOwners(tasks: map<string, TaskRun>, tasks': map<string, TaskRun>, t: string, id: string)
    requires OnlyTask(tasks, tasks', t) && t in tasks && t in tasks' && tasks'[t].ownerId == tasks[t].ownerId
    requires id in tasks && OwnerIsSingle(tasks, id)
    ensures id in tasks' && OwnerIsSingle(tasks', id)
  {
  }

  lemma ExecutionSteps(nodes: seq<WorkflowNode>, order: seq<WorkflowNode>, v: View, w: View)
    requires IsDepthOrder(nodes, order) && TaskStep(None, nodes, order, v, w)
    ensures Steps(nodes, v, w)
  {
    hide IsDepthOrder, TaskStep;
    forall other | IsDepthOrder(nodes, other) ensures TaskStep(None, nodes, other, v, w) {
      OrderIgnoresListing(nodes, nodes, order, other);
    }
  }

  lemma UngroupedOrder(nodes: seq<WorkflowNode>, order: seq<WorkflowNode>)
    requires IsDepthOrder(nodes, order) && Ungrouped(nodes)
    ensures forall n :: n in order ==> n.parallelGroup == ""
  {
    forall n | n in order ensures n in nodes {
      var i :| 0 <= i < |order| && order[i] == n;
    }
  }

  lemma CallSteps(nodes: seq<WorkflowNode>, v: View, w: View)
    requires PausedTask(v, w) || ResumedTask(v, w) || CancelledTask(v, w) || DecidedTask(v, w) || RestartedTask(nodes, v, w)
    ensures Steps(nodes, v, w)
  {
    hide IsDepthOrder, PausedTask, ResumedTask, CancelledTask, DecidedTask, RestartedTask;
  }

  lemma ExecutedSteps(plan: TaskPlan, order: seq<WorkflowNode>, v: View, w: View)
    requires ValidPlan(plan) && Ungrouped(plan.nodes) && IsDepthOrder(plan.nodes, order)
    requires BatchesFrom(order, {}).Some? && NonEmpty(BatchesFrom(order, {}).value)
    requires Executed(order, HeadMap(BatchesFrom(order, {}).value), InputsUpstream(plan.nodes), v, w)
    ensures Steps(plan.nodes, v, w)
  {
    hide *;
    PlanIsOrderable(plan);
    UngroupedOrder(plan.nodes, order);
    ExecutionIsStep(plan.nodes, order, v, w);
    ExecutionSteps(plan.nodes, order, v, w);
  }

  lemma FewerSpares(children: Children, ownerId: string, runs: map<string, Run>, leases: Entries, runs': map<string, Run>, leases': Entries,
                    kept: Children)
    requires Spares(children, ownerId, runs, leases, children, runs', leases') && ChildIds(kept) <= ChildIds(children)
    ensures Spares(children, ownerId, runs, leases, kept, runs', leases')
  {
    hide ChildIds;
  }

  lemma RestartSpares(task: TaskRun, dropped: set<string>, runs: map<string, Run>, leases: Entries, runs': map<string, Run>, leases': Entries)
    requires Spares(task.nodeRuns, task.ownerId, runs, leases, task.nodeRuns, runs', leases')
    ensures Spares(task.nodeRuns, task.ownerId, runs, leases, Restarted(task, dropped).nodeRuns, runs', leases')
    ensures Restarted(task, dropped).ownerId == task.ownerId
  {
    hide Spares, ChildIds;
    KeptChildren(task, dropped);
    FewerSpares(task.nodeRuns, task.ownerId, runs, leases, runs', leases', Restarted(task, dropped).nodeRuns);
  }

  // ----- The service -----

  /** Each history goes on. */
  ghost predicate GoOn(histories: map<string, seq<View>>, histories': map<string, seq<View>>)
  {
    histories'.Keys == histories.Keys && forall id :: id in histories ==> histories[id] <= histories'[id]
  }

  lemma AdvancedGoOn(histories: map<string, seq<View>>, tasks: map<string, TaskRun>, runs: map<string, Run>, leases: Entries)
    requires histories.Keys <= tasks.Keys
    ensures GoOn(histories, Advanced(histories, tasks, runs, leases))
  {
    hide ViewOf;
  }

  class TaskService {
    const orchestrator: TaskOrchestrator
    var plans: map<string, TaskPlan>
    /** What the tasks that are followed have been through. */
    ghost var histories: map<string, seq<View>>

    ghost predicate Valid()
      reads this, orchestrator, orchestrator.runtime, orchestrator.runtime.coordinator, orchestrator.runtime.coordinator.backend
    {
      && orchestrator.Valid()
      && Followed(plans, histories, orchestrator.tasks, orchestrator.runtime.runs, orchestrator.runtime.resourceLeases)
    }

    constructor (o: TaskOrchestrator)
      requires o.Valid()
      ensures Valid() && orchestrator == o && plans == map[] && histories == map[]
    {
      orchestrator, plans, histories := o, map[], map[];
    }

    /** One call on task t has been made since these tables were current. */
    ghost method Follow(t: string, tasks: map<string, TaskRun>, runs: map<string, Run>, leases: Entries)
      requires orchestrator.Valid() && TasksKnown(tasks, runs) && Apart(tasks) && Followed(plans, histories, tasks, runs, leases)
      requires OnlyTask(tasks, orchestrator.tasks, t) && t in tasks && t in orchestrator.tasks
      requires orchestrator.tasks[t].ownerId == tasks[t].ownerId
      requires Spares(tasks[t].nodeRuns, tasks[t].ownerId, runs, leases,
                      orchestrator.tasks[t].nodeRuns, orchestrator.runtime.runs, orchestrator.runtime.resourceLeases)
      requires t in histories && t in plans ==> Steps(plans[t].nodes, ViewOf(tasks[t], runs, leases), orchestrator.View(t))
      modifies this`histories
      ensures Valid() && GoOn(old(histories), histories)
    {
      hide Followed, TaskOrchestrator.Valid, ViewOf, Spares, TasksKnown, Apart, OnlyTask, Steps, GoOn, Advanced;
      OneCall(plans, histories, tasks, runs, leases, orchestrator.tasks, orchestrator.runtime.runs, orchestrator.runtime.resourceLeases, t);
      AdvancedGoOn(histories, orchestrator.tasks, orchestrator.runtime.runs, orchestrator.runtime.resourceLeases);
      histories := Advanced(histories, orchestrator.tasks, orchestrator.runtime.runs, orchestrator.runtime.resourceLeases);
    }

    /** Creates a task and keeps its plan. The task is followed if its plan has no groups and its owner is new; a task that
        shares its owner with the new one is followed no longer. */
    method Create(plan: TaskPlan, deviceId: string, ownerId: string, taskId: string, now: int) returns (r: Result<TaskRun, TaskError>)
      requires Valid() && taskId !in orchestrator.tasks && taskId !in plans
      modifies this, orchestrator`tasks, orchestrator`resourceLeases, orchestrator.coordinator, orchestrator.coordinator.backend
      ensures Valid()
      ensures r.Failure? ==> plans == old(plans) && histories == old(histories)
      ensures r.Success? ==> plans == old(plans)[taskId := plan] && taskId in orchestrator.tasks && r.value == orchestrator.tasks[taskId]
      ensures r.Success? ==>
        histories == AfterCreation(old(histories), plan, orchestrator.tasks, orchestrator.runtime.resourceLeases, taskId)
    {
      hide TaskOrchestrator.Valid, Followed, ValidPlan, ViewOf, LeaseResourceCoordinator.Valid, Grants, AfterCreation, OwnsNothing;
      ghost var tasks, runs, leases := orchestrator.tasks, orchestrator.runtime.runs, orchestrator.runtime.resourceLeases;
      r := orchestrator.Start(plan, deviceId, ownerId, taskId, now);
      if r.Success? {
        plans := plans[taskId := plan];
        CreationFollowed(old(plans), histories, tasks, runs, leases, plan, plans, orchestrator.tasks, taskId);
        histories := AfterCreation(histories, plan, orchestrator.tasks, leases, taskId);
      }
    }

    /** Executes the plan of a task. */
    method Execute(id: string, world: World) returns (r: Result<TaskRun, TaskError>, ghost order: seq<WorkflowNode>)
      requires Valid() && orchestrator.Expects(world)
      modifies this`histories, orchestrator`tasks, orchestrator`resourceLeases, orchestrator`moves, orchestrator.runtime
      modifies orchestrator.coordinator, orchestrator.coordinator.backend
      ensures Valid() && GoOn(old(histories), histories)
      ensures id !in plans || id !in old(orchestrator.tasks) <==> r == Failure(NoSuchTask)
      ensures r.Success? ==>
        && id in orchestrator.tasks && r.value == orchestrator.tasks[id]
        && IsDepthOrder(plans[id].nodes, order) && BatchesFrom(order, {}).Some? && NonEmpty(BatchesFrom(order, {}).value)
        && Executed(order, HeadMap(BatchesFrom(order, {}).value), InputsUpstream(plans[id].nodes),
                    old(orchestrator.View(id)), orchestrator.View(id))
    {
      hide Followed, TaskOrchestrator.Valid, Executed, IsDepthOrder, BatchesFrom, HeadMap, InputsUpstream, ValidPlan, Ungrouped, ViewOf,
        LeaseResourceCoordinator.Valid, Spares, Grants, TasksKnown, Apart, OnlyTask, FreshIds, Cataloged, DrivesEnd, ContinuedMarked, EndsWell, NonEmpty;
      if id !in plans {
        return Failure(NoSuchTask), [];
      }
      ghost var tasks, runs, leases := orchestrator.tasks, orchestrator.runtime.runs, orchestrator.runtime.resourceLeases;
      OrchestratorSays(orchestrator);
      r, order := orchestrator.Execute(id, plans[id], world);
      if r.Success? {
        if id in histories {
          PlanIsUngrouped(plans, histories, tasks, runs, leases, id);
          ExecutedSteps(plans[id], order, ViewOf(tasks[id], runs, leases), orchestrator.View(id));
        }
        Follow(id, tasks, runs, leases);
      }
    }

    /** Pauses a task. */
    method Pause(id: string) returns (r: Option<TaskRun>)
      requires Valid()
      modifies this`histories, orchestrator`tasks, orchestrator`resourceLeases, orchestrator.runtime
      modifies orchestrator.coordinator, orchestrator.coordinator.backend
      ensures Valid() && GoOn(old(histories), histories) && (r.Some? <==> id in old(orchestrator.tasks))
      ensures r.Some? ==>
        && id in orchestrator.tasks && r.value == orchestrator.tasks[id]
        && PausedTask(old(orchestrator.View(id)), orchestrator.View(id))
    {
      hide Followed, TaskOrchestrator.Valid, ViewOf, LeaseResourceCoordinator.Valid, Spares, TasksKnown, Apart, OnlyTask, ActiveCalled, PausedTask,
        Registered, Known, Leased;
      ghost var tasks, runs, leases, point := orchestrator.tasks, orchestrator.runtime.runs, orchestrator.runtime.resourceLeases, orchestrator.runtime.nextPoint;
      OrchestratorSays(orchestrator);
      r := orchestrator.Pause(id);
      if r.Some? {
        Passed(orchestrator, point, tasks, runs, leases, id, DoPause);
        if id in plans {
          CallSteps(plans[id].nodes, ViewOf(tasks[id], runs, leases), orchestrator.View(id));
        }
        Follow(id, tasks, runs, leases);
      }
    }

    /** Cancels a task. */
    method Cancel(id: string) returns (r: Option<TaskRun>)
      requires Valid()
      modifies this`histories, orchestrator`tasks, orchestrator`resourceLeases, orchestrator.runtime
      modifies orchestrator.coordinator, orchestrator.coordinator.backend
      ensures Valid() && GoOn(old(histories), histories) && (r.Some? <==> id in old(orchestrator.tasks))
      ensures r.Some? ==>
        && id in orchestrator.tasks && r.value == orchestrator.tasks[id]
        && CancelledTask(old(orchestrator.View(id)), orchestrator.View(id))
    {
      hide Followed, TaskOrchestrator.Valid, ViewOf, LeaseResourceCoordinator.Valid, Spares, TasksKnown, Apart, OnlyTask, ActiveCalled, CancelledTask,
        Registered, Known, Leased;
      ghost var tasks, runs, leases, point := orchestrator.tasks, orchestrator.runtime.runs, orchestrator.runtime.resourceLeases, orchestrator.runtime.nextPoint;
      OrchestratorSays(orchestrator);
      r := orchestrator.Cancel(id);
      if r.Some? {
        Passed(orchestrator, point, tasks, runs, leases, id, DoCancel);
        if id in plans {
          CallSteps(plans[id].nodes, ViewOf(tasks[id], runs, leases), orchestrator.View(id));
        }
        Follow(id, tasks, runs, leases);
      }
    }

    /** Resumes a task, at a step of its plan if one is given. */
    method Resume(id: string, step: string) returns (r: Result<TaskRun, TaskError>)
      requires Valid()
      modifies this`histories, orchestrator`tasks, orchestrator`resourceLeases, orchestrator.runtime
      modifies orchestrator.coordinator, orchestrator.coordinator.backend
      ensures Valid() && GoOn(old(histories), histories) && (r == Failure(NoSuchTask) <==> id !in old(orchestrator.tasks))
      ensures r.Success? ==>
        && id in orchestrator.tasks && r.value == orchestrator.tasks[id]
        && var v, w := old(orchestrator.View(id)), orchestrator.View(id);
          ResumedTask(v, w) || (id in plans && RestartedTask(plans[id].nodes, v, w) && (step != "" ==> RestartedFrom(plans[id].nodes, step, v, w)))
    {
      hide Followed, TaskOrchestrator.Valid, ViewOf, LeaseResourceCoordinator.Valid, Spares, TasksKnown, Apart, OnlyTask, ActiveCalled, ResumedTask,
        RestartedFrom, Registered, Known, Leased, Restarted, Restartable, FirstFailed, IsDepthOrder, Closed, Acyclic, DependencyGraph, StatusesOf;
      ghost var tasks, runs, leases, point := orchestrator.tasks, orchestrator.runtime.runs, orchestrator.runtime.resourceLeases, orchestrator.runtime.nextPoint;
      OrchestratorSays(orchestrator);
      ghost var from;
      r, from := orchestrator.Resume(id, if id in plans then Some(plans[id]) else None, step);
      if r.Success? {
        ActiveSpares(orchestrator.runtime.definitions, point, tasks[id].nodeRuns, if from == "" then DoResume else DoCancel, runs, leases,
                     orchestrator.runtime.runs, orchestrator.runtime.resourceLeases, tasks[id].ownerId);
        if from != "" {
          RestartSpares(tasks[id], Downstream(plans[id].nodes, from), runs, leases, orchestrator.runtime.runs, orchestrator.runtime.resourceLeases);
        }
        if id in plans {
          CallSteps(plans[id].nodes, ViewOf(tasks[id], runs, leases), orchestrator.View(id));
        }
        Follow(id, tasks, runs, leases);
      }
    }

    /** Applies a decision to the active child of a task. */
    method ApplyDecision(id: string, submission: Submission, reports: bool) returns (r: Result<TaskRun, TaskError>)
      requires Valid()
      modifies this`histories, orchestrator`tasks, orchestrator`resourceLeases, orchestrator.runtime
      modifies orchestrator.coordinator, orchestrator.coordinator.backend
      ensures Valid() && GoOn(old(histories), histories) && (r == Failure(NoSuchTask) <==> id !in old(orchestrator.tasks))
      ensures r.Success? ==>
        && id in orchestrator.tasks && r.value == orchestrator.tasks[id]
        && DecidedTask(old(orchestrator.View(id)), orchestrator.View(id))
    {
      hide Followed, TaskOrchestrator.Valid, ViewOf, LeaseResourceCoordinator.Valid, Spares, TasksKnown, Apart, OnlyTask, CalledOn, DecidedTask,
        Registered, Known, Leased, DecidedOn, Refuses, AllEnded;
      ghost var tasks, runs, leases, point := orchestrator.tasks, orchestrator.runtime.runs, orchestrator.runtime.resourceLeases, orchestrator.runtime.nextPoint;
      OrchestratorSays(orchestrator);
      ghost var active;
      r, active := orchestrator.ApplyDecision(id, submission, reports);
      if r.Success? {
        CalledIsActive(orchestrator.runtime.definitions, point, tasks[id].nodeRuns, active, DoDecide(submission), runs, leases,
                       orchestrator.runtime.runs, orchestrator.runtime.resourceLeases);
        ActiveSpares(orchestrator.runtime.definitions, point, tasks[id].nodeRuns, DoDecide(submission), runs, leases,
                     orchestrator.runtime.runs, orchestrator.runtime.resourceLeases, tasks[id].ownerId);
        OnlyTaskKept(tasks, tasks, id, orchestrator.tasks[id]);
        if id in plans {
          CallSteps(plans[id].nodes, ViewOf(tasks[id], runs, leases), orchestrator.View(id));
        }
        Follow(id, tasks, runs, leases);
      }
    }
  }

  lemma OrchestratorSays(o: TaskOrchestrator)
    requires o.Valid()
    ensures TasksKnown(o.tasks, o.runtime.runs) && Apart(o.tasks)
    ensures Registered(o.runtime.definitions) && Known(o.runtime.runs, o.runtime.definitions, o.runtime.nextPoint)
    ensures Leased(o.runtime.runs, o.runtime.resourceLeases)
  {
  }

  lemma PlanIsUngrouped(plans: map<string, TaskPlan>, histories: map<string, seq<View>>, tasks: map<string, TaskRun>, runs: map<string, Run>,
                        leases: Entries, id: string)
    requires Followed(plans, histories, tasks, runs, leases) && id in histories
    ensures id in plans && Ungrouped(plans[id].nodes)
  {
    hide LedTo, ViewOf, ValidPlan;
  }

  /** A call that was passed on to the active child, or came too late, has touched nothing but that child and the task. */
  lemma Passed(o: TaskOrchestrator, point: nat, tasks: map<string, TaskRun>, runs: map<string, Run>, leases: Entries, id: string, op: Op)
    requires id in tasks && id in o.tasks && Registered(o.runtime.definitions) && Known(runs, o.runtime.definitions, point) && Leased(runs, leases)
    requires Over(tasks[id].status) ==> o.tasks == tasks && o.runtime.runs == runs && o.runtime.resourceLeases == leases
    requires !Over(tasks[id].status) ==>
      && o.tasks == tasks[id := tasks[id].(status := o.tasks[id].status)]
      && ActiveCalled(o.runtime.definitions, point, tasks[id].nodeRuns, op, runs, leases, o.runtime.runs, o.runtime.resourceLeases)
    ensures OnlyTask(tasks, o.tasks, id) && o.tasks[id].ownerId == tasks[id].ownerId
    ensures Spares(tasks[id].nodeRuns, tasks[id].ownerId, runs, leases, o.tasks[id].nodeRuns, o.runtime.runs, o.runtime.resourceLeases)
  {
    hide Registered, Known, Leased, ActiveCalled, Spares, OnlyTask;
    OnlyTaskKept(tasks, tasks, id, o.tasks[id]);
    if Over(tasks[id].status) {
      SparesAll(tasks[id].nodeRuns, tasks[id].ownerId, runs, leases);
    } else {
      ActiveSpares(o.runtime.definitions, point, tasks[id].nodeRuns, op, runs, leases, o.runtime.runs, o.runtime.resourceLeases, tasks[id].ownerId);
    }
  }

  lemma CalledIsActive(definitions: map<(string, string), Definition>, point: nat, children: Children, n: string, op: Op, runs: map<string, Run>,
                       leases: Entries, runs': map<string, Run>, leases': Entries)
    requires CalledOn(definitions, point, children, n, op, runs, leases, runs', leases')
    ensures ActiveCalled(definitions, point, children, op, runs, leases, runs', leases')
  {
    hide Answered;
  }

  /** Another task has been created, under another owner. */
  lemma KeptFollowed(plans: map<string, TaskPlan>, vs: seq<View>, tasks: map<string, TaskRun>, runs: map<string, Run>, leases: Entries, id: string,
                     plans': map<string, TaskPlan>, tasks': map<string, TaskRun>, t: string)
    requires IsFollowed(plans, vs, tasks, runs, leases, id) && t !in tasks && t !in plans && t in plans' && t in tasks'
    requires plans' == plans[t := plans'[t]] && tasks' == tasks[t := tasks'[t]] && OwnerIsSingle(tasks', id)
    ensures IsFollowed(plans', vs, tasks', runs, leases, id)
  {
    hide LedTo, ViewOf, ValidPlan, Ungrouped, OwnerIsSingle;
  }

  /** The new task is followed if its plan has no groups and its owner is new; those that share their owner with it are not
      followed any longer. */
  ghost function AfterCreation(histories: map<string, seq<View>>, plan: TaskPlan, tasks: map<string, TaskRun>, leases: Entries,
                               t: string): map<string, seq<View>>
    requires t in tasks
  {
    var kept := map id | id in histories && OwnerIsSingle(tasks, id) :: histories[id];
    if Ungrouped(plan.nodes) && OwnerIsSingle(tasks, t) && OwnsNothing(leases, tasks[t].ownerId) then kept[t := [FRESH]] else kept
  }

  lemma CreationFollowed(plans: map<string, TaskPlan>, histories: map<string, seq<View>>, tasks: map<string, TaskRun>, runs: map<string, Run>,
                         leases: Entries, plan: TaskPlan, plans': map<string, TaskPlan>, tasks': map<string, TaskRun>, t: string)
    requires Followed(plans, histories, tasks, runs, leases) && t !in tasks && t !in plans && ValidPlan(plan)
    requires plans' == plans[t := plan] && t in tasks' && tasks' == tasks[t := tasks'[t]]
    requires OwnsNothing(leases, tasks'[t].ownerId) ==> ViewOf(tasks'[t], runs, leases) == FRESH
    ensures Followed(plans', AfterCreation(histories, plan, tasks', leases, t), tasks', runs, leases)
  {
    hide IsFollowed, ViewOf, ValidPlan, Ungrouped, OwnerIsSingle, OwnsNothing;
    var after := AfterCreation(histories, plan, tasks', leases, t);
    forall id | id in after ensures IsFollowed(plans', after[id], tasks', runs, leases, id) {
      if id == t && Ungrouped(plan.nodes) && OwnerIsSingle(tasks', t) && OwnsNothing(leases, tasks'[t].ownerId) {
        NewFollowed(plans', tasks', runs, leases, t);
      } else {
        KeptFollowed(plans, histories[id], tasks, runs, leases, id, plans', tasks', t);
      }
    }
  }

  lemma NewFollowed(plans: map<string, TaskPlan>, tasks: map<string, TaskRun>, runs: map<string, Run>, leases: Entries, id: string)
    requires id in tasks && id in plans && ValidPlan(plans[id]) && Ungrouped(plans[id].nodes) && OwnerIsSingle(tasks, id)
    requires ViewOf(tasks[id], runs, leases) == FRESH
    ensures IsFollowed(plans, [FRESH], tasks, runs, leases, id)
  {
    hide ViewOf, ValidPlan, Ungrouped, OwnerIsSingle, IsDepthOrder;
  }

  // ----- What all calls together keep -----

  /** Whatever calls have been made, on this task and on others, in whatever order: a task that is followed has at most one
      live child and none forgotten, if no node but the last has a condition or continues after a failure, or its plan is
      refused. */
  lemma FollowedIsSingle(s: TaskService, id: string, order: seq<WorkflowNode>)
    requires s.Valid() && id in s.histories && id in s.plans && IsDepthOrder(s.plans[id].nodes, order)
    requires InputsUpstream(s.plans[id].nodes) ==> OnlyLastSpecial(order)
    ensures id in s.orchestrator.tasks && AtMostOneLive(s.orchestrator.View(id))
  {
    hide *;
    ServiceSays(s, id);
    var o := s.orchestrator;
    FollowedSays(s.plans, s.histories[id], o.tasks, o.runtime.runs, o.runtime.resourceLeases, id, id);
    ViewNow(o, id);
    HistoryOf(s.plans[id].nodes, s.histories[id], o.View(id), order);
    PlanIsOrderable(s.plans[id]);
    SingleChild(s.plans[id].nodes, order);
  }

  lemma ServiceSays(s: TaskService, id: string)
    requires s.Valid() && id in s.histories
    ensures var o := s.orchestrator;
      o.Valid() && IsFollowed(s.plans, s.histories[id], o.tasks, o.runtime.runs, o.runtime.resourceLeases, id)
  {
    hide IsFollowed, TaskOrchestrator.Valid;
  }

  /** A task as it is at a moment. */
  lemma ViewNow(o: TaskOrchestrator, id: string)
    requires id in o.tasks
    ensures o.View(id) == ViewOf(o.tasks[id], o.runtime.runs, o.runtime.resourceLeases)
  {
  }

  lemma HistoryOf(nodes: seq<WorkflowNode>, vs: seq<View>, v: View, order: seq<WorkflowNode>)
    requires LedTo(nodes, vs, v) && IsDepthOrder(nodes, order)
    ensures IsHistory(None, nodes, order, vs) && vs != [] && vs[|vs| - 1] == v
  {
    hide IsHistory, IsDepthOrder;
  }

  /** Once such a task is over, and no node continues after a failure, its owner has no claim and no count left. */
  lemma FollowedOwnsNothing(s: TaskService, id: string, order: seq<WorkflowNode>)
    requires s.Valid() && id in s.histories && id in s.plans && IsDepthOrder(s.plans[id].nodes, order)
    requires InputsUpstream(s.plans[id].nodes) ==> NoneContinues(order)
    ensures id in s.orchestrator.tasks
    ensures s.orchestrator.Exclusive(id) && Over(s.orchestrator.tasks[id].status) ==>
      && (forall k :: k in s.orchestrator.coordinator.claims ==> s.orchestrator.coordinator.claims[k].ownerId != s.orchestrator.tasks[id].ownerId)
      && (forall r :: r in s.orchestrator.coordinator.refs ==> r.ownerId != s.orchestrator.tasks[id].ownerId)
  {
    hide *;
    ServiceSays(s, id);
    var o := s.orchestrator;
    FollowedSays(s.plans, s.histories[id], o.tasks, o.runtime.runs, o.runtime.resourceLeases, id, id);
    ViewNow(o, id);
    HistoryOf(s.plans[id].nodes, s.histories[id], o.View(id), order);
    PlanIsOrderable(s.plans[id]);
    if o.Exclusive(id) && Over(o.tasks[id].status) {
      OverTaskOwnsNothing(o, id, None, s.plans[id].nodes, order, s.histories[id]);
    }
  }
}
