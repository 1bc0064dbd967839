/** The task orchestrator: tasks, the children it starts for them in the runtime, and the leases it keeps. */
module Orchestrator {
  import opened Ids
  import opened Graphs
  import opened DeviceLeases
  import opened ResourceBook
  import opened Resources
  import opened Holdings
  import opened Keeping
  import opened Workflows
  import opened RunTheory
  import opened Drives
  import opened Runtime
  import opened TaskPlans
  import opened PlanChecks
  import opened Batches
  import opened Passes
  import opened PassSafety
  import opened Histories
  import opened TaskChildren

  class TaskOrchestrator {
    const runtime: WorkflowRuntime
    const coordinator: LeaseResourceCoordinator
    var tasks: map<string, TaskRun>
    var resourceLeases: Entries
    var moves: nat

    constructor (rt: WorkflowRuntime)
      requires rt.Valid() && rt.resourceLeases == map[] && rt.coordinator.claims == map[]
      ensures runtime == rt && coordinator == rt.coordinator && tasks == map[] && resourceLeases == map[]
      ensures Sound()
    {
      runtime, coordinator := rt, rt.coordinator;
      tasks, resourceLeases, moves := map[], map[], 0;
    }

    /** The runtime is sound and the two tables of entries account for every count. */
    ghost predicate Sound()
      reads this, runtime, runtime.coordinator, runtime.coordinator.backend
    {
      runtime.coordinator == coordinator && runtime.Valid() && runtime.Accounts(resourceLeases)
    }

    ghost predicate Expects(world: World)
      reads this, runtime
    {
      FreshIds(world, moves, runtime.runs) && Cataloged(world, runtime.definitions) && DrivesEnd(world)
    }

    /** Drives a run until it blocks. */
    method DriveChild(id: string, world: World) returns (status: RunStatus)
      requires Sound() && Expects(world) && id in runtime.runs
      modifies this`moves, runtime, coordinator, coordinator.backend
      ensures Sound() && Expects(world) && id in runtime.runs
      ensures status == runtime.runs[id].status && !Drivable(status) && runtime.runs[id].id == id
      ensures Drivable(old(runtime.runs)[id].status) ==> Blocked(status)
      ensures Drove(old(runtime.definitions), old(runtime.runs)[id], old(runtime.nextPoint), world.drives(old(moves)),
                    runtime.runs[id], runtime.nextPoint)
      ensures runtime.definitions == old(runtime.definitions) && moves == old(moves) + 1
      ensures Saved(old(runtime.runs), old(runtime.resourceLeases), runtime.runs[id], runtime.runs, runtime.resourceLeases)
    {
      hide LeaseResourceCoordinator.Valid, Accounted, Workflows.ValidDefinition, Settled, KnownRun, Known, EnvEnds, DrivenFor, Leased,
        FreshIds, Registered, DrivesEnd;
      var i := moves;
      RunIsKnown(runtime.runs, runtime.definitions, runtime.nextPoint, id);
      DriveEndsAt(world, i, runtime.definitions, runtime.runs[id].definition, Machine(runtime.runs[id], runtime.nextPoint));
      var driven, ticks := runtime.RunUntilBlocked(id, world.drives(i), resourceLeases);
      RunIsKnown(runtime.runs, runtime.definitions, runtime.nextPoint, id);
      moves := i + 1;
      FreshLater(world, i, old(runtime.runs), runtime.runs);
      status := driven.value.status;
    }

    /** Starts a run for the owner under a new id. */
    method StartChild(ownerId: string, prep: Preparation, world: World) returns (child: Option<string>)
      requires Sound() && Expects(world) && ownerId != "" && InCatalog(world, prep.def)
      modifies this`moves, runtime, coordinator, coordinator.backend
      ensures Sound() && Expects(world)
      ensures child.None? <==> !CanStart(prep, ownerId, old(coordinator.claims), world.times(old(moves)))
      ensures child.None? ==> !CanStart(prep, ownerId, coordinator.claims, world.times(old(moves)))
      ensures child.None? ==> runtime.runs == old(runtime.runs) && runtime.resourceLeases == old(runtime.resourceLeases)
      ensures moves == old(moves) + 1
      ensures child.Some? ==>
        && child.value == world.childIds(old(moves)) && child.value in runtime.runs
        && runtime.runs[child.value] == Started(prep.def, prep.deviceId, child.value) && runtime.nextPoint == old(runtime.nextPoint)
        && KeyOf(prep.def) in runtime.definitions && runtime.definitions[KeyOf(prep.def)] == prep.def
      ensures child.Some? ==> ChildStarted(old(runtime.runs), old(runtime.resourceLeases), ownerId, child.value, runtime.runs, runtime.resourceLeases)
    {
      hide LeaseResourceCoordinator.Valid, Accounted, Workflows.ValidDefinition, Settled, KnownRun, Known, Leased, DrivesEnd, FreshIds, Registered;
      var i := moves;
      MayRegisterCataloged(runtime, world, prep.def);
      FreshAt(world, i, runtime.runs);
      var started := runtime.Start(prep.def, prep.deviceId, ownerId, world.childIds(i), world.times(i), resourceLeases);
      moves := i + 1;
      FreshLater(world, i, old(runtime.runs), runtime.runs);
      child := if started.Success? then Some(world.childIds(i)) else None;
    }

    /** What holds between calls: every task is known, a task that is over holds no lease, no two tasks share a child. */
    ghost predicate Valid()
      reads this, runtime, runtime.coordinator, runtime.coordinator.backend
    {
      Sound() && TasksKnown(tasks, runtime.runs) && TaskLeases(tasks, resourceLeases) && Apart(tasks)
    }

    /** A task as its plan sees it. */
    ghost function View(id: string): View
      requires id in tasks
      reads this, runtime
    {
      ViewOf(tasks[id], runtime.runs, runtime.resourceLeases)
    }

    /** Starts a child for the node, records it, and drives it until it blocks. */
    method Attempt(children: Children, nodeId: string, ownerId: string, prep: Preparation, world: World)
      returns (grown: Children, ending: Option<RunStatus>)
      requires Sound() && Expects(world) && Family(children, runtime.runs) && ownerId != "" && InCatalog(world, prep.def)
      modifies this`moves, runtime, coordinator, coordinator.backend
      ensures Sound() && Expects(world) && Family(grown, runtime.runs)
      ensures ending.None? <==> !CanStart(prep, ownerId, old(coordinator.claims), world.times(old(moves)))
      ensures ending.None? ==> !CanStart(prep, ownerId, coordinator.claims, world.times(old(moves)))
      ensures ending.None? ==> grown == children && runtime.runs == old(runtime.runs) && runtime.resourceLeases == old(runtime.resourceLeases)
      ensures moves == old(moves) + if ending.None? then 1 else 2
      ensures ending.Some? ==>
        && nodeId in grown && grown[nodeId] in runtime.runs
        && Drove(runtime.definitions, Started(prep.def, prep.deviceId, grown[nodeId]), old(runtime.nextPoint), world.drives(old(moves) + 1),
                 runtime.runs[grown[nodeId]], runtime.nextPoint)
      ensures ending.Some? ==>
        Grown(children, old(runtime.runs), old(runtime.resourceLeases), nodeId, ownerId, ending.value,
              grown, runtime.runs, runtime.resourceLeases)
    {
      hide LeaseResourceCoordinator.Valid, Accounted, Known, Leased, Family, DrivesEnd, FreshIds, Grown, Registered, Cataloged, Saved, ChildStarted;
      assert Leased(runtime.runs, runtime.resourceLeases);
      ghost var runs0, leases0 := runtime.runs, runtime.resourceLeases;
      var child := StartChild(ownerId, prep, world);
      if child.None? {
        return children, None;
      }
      ghost var runs1, leases1 := runtime.runs, runtime.resourceLeases;
      StartedIsThere(runs0, leases0, ownerId, child.value, runs1, leases1);
      var status := DriveChild(child.value, world);
      grown, ending := children[nodeId := child.value], Some(status);
      DrivenIsGrown(children, runs0, leases0, nodeId, ownerId, child.value, runs1, leases1,
                    runtime.runs[child.value], runtime.runs, runtime.resourceLeases);
      GrownStatuses(children, runs0, leases0, nodeId, ownerId, status, grown, runtime.runs, runtime.resourceLeases);
    }

    /** Cancels one run if it is live. */
    method CancelOne(id: string)
      requires Sound() && id in runtime.runs
      modifies runtime, coordinator, coordinator.backend
      ensures Sound() && runtime.definitions == old(runtime.definitions)
      ensures CancelledOne(id, old(runtime.runs), old(runtime.resourceLeases), runtime.runs, runtime.resourceLeases)
    {
      hide LeaseResourceCoordinator.Valid, Accounted, Known, Registered, Workflows.ValidDefinition, OnState, Settled, Answered, Leased;
      RunIsKnown(runtime.runs, runtime.definitions, runtime.nextPoint, id);
      if !Terminal(runtime.runs[id].status) {
        ghost var runs1, leases1, point := runtime.runs, runtime.resourceLeases, runtime.nextPoint;
        var cancelled := runtime.Cancel(id, resourceLeases);
        CancelAnswer(runtime.definitions, runs1, leases1, point, id, cancelled, runtime.runs, runtime.resourceLeases);
      }
    }

    /** Cancels those of the runs that are live. */
    method CancelLive(ids: set<string>)
      requires Sound() && ids <= runtime.runs.Keys
      modifies runtime, coordinator, coordinator.backend
      ensures Sound() && runtime.definitions == old(runtime.definitions)
      ensures AllStopped(ids, old(runtime.runs), old(runtime.resourceLeases), runtime.runs, runtime.resourceLeases)
    {
      hide LeaseResourceCoordinator.Valid, Accounted, Known, Registered, AllStopped, CancelledOne, Leased;
      ghost var runs0, leases0 := runtime.runs, runtime.resourceLeases;
      NothingStopped(runs0, leases0);
      var rest := ids;
      assert ids - rest == {};
      while rest != {}
        invariant Sound() && rest <= ids <= runtime.runs.Keys && runtime.definitions == old(runtime.definitions)
        invariant AllStopped(ids - rest, runs0, leases0, runtime.runs, runtime.resourceLeases)
        decreases |rest|
      {
        var id :| id in rest;
        ghost var runs1, leases1 := runtime.runs, runtime.resourceLeases;
        CancelOne(id);
        OneMoreStopped(ids - rest, runs0, leases0, runs1, leases1, id, runtime.runs, runtime.resourceLeases);
        assert (ids - rest) + {id} == ids - (rest - {id});
        rest := rest - {id};
      }
      assert ids - rest == ids;
    }

    /** The orchestrator is sound and knows its tasks and the one it is working on. */
    ghost predicate Working(task: TaskRun, world: World)
      reads this, runtime, runtime.coordinator, runtime.coordinator.backend
    {
      Sound() && Expects(world) && TasksKnown(tasks, runtime.runs) && TaskKnown(task, task.id, runtime.runs)
    }

    /** Saves a task; one that is over gives its lease back. */
    method SaveTask(task: TaskRun)
      requires Sound()
      modifies this`tasks, this`resourceLeases, coordinator, coordinator.backend
      ensures Sound() && tasks == old(tasks)[task.id := task]
      ensures resourceLeases == if Over(task.status) then old(resourceLeases) - {task.id} else old(resourceLeases)
    {
      hide LeaseResourceCoordinator.Valid, Accounted, Known, Registered, Leased;
      tasks := tasks[task.id := task];
      if Over(task.status) && task.id in resourceLeases {
        AccountedSwap(coordinator, runtime.resourceLeases, resourceLeases);
        var kept := GiveBack(coordinator, task.id, resourceLeases, runtime.resourceLeases);
        resourceLeases := kept;
        AccountedSwap(coordinator, resourceLeases, runtime.resourceLeases);
      }
    }

    /** One attempt at a node: its child is recorded, driven and saved. */
    method AttemptNode(task: TaskRun, node: WorkflowNode, prep: Preparation, world: World, ghost base: TaskRun,
                       ghost runs0: map<string, Run>, ghost leases0: Entries, ghost endings: seq<RunStatus>)
      returns (after: TaskRun, ending: Option<RunStatus>)
      requires Working(task, world) && InCatalog(world, prep.def)
      requires task == base.(nodeRuns := task.nodeRuns, status := task.status) && node.id !in base.nodeRuns
      requires endings != [] ==> Terminal(endings[|endings| - 1])
      requires Ran(base.nodeRuns, runs0, leases0, base.ownerId, node.id, endings, task.nodeRuns, runtime.runs, runtime.resourceLeases)
      modifies this`tasks, this`resourceLeases, this`moves, runtime, coordinator, coordinator.backend
      ensures Working(after, world) && resourceLeases == old(resourceLeases)
      ensures after == base.(nodeRuns := after.nodeRuns, status := after.status)
      ensures tasks == if ending.Some? then old(tasks)[task.id := after] else old(tasks)
      ensures ending.None? <==> !CanStart(prep, task.ownerId, old(coordinator.claims), world.times(old(moves)))
      ensures ending.None? ==> after == task && !CanStart(prep, task.ownerId, coordinator.claims, world.times(old(moves)))
      ensures moves == old(moves) + if ending.None? then 1 else 2
      ensures ending.Some? ==>
        && Blocked(ending.value) && after.status == WaitingChild
        && node.id in after.nodeRuns && after.nodeRuns[node.id] in runtime.runs
        && Drove(runtime.definitions, Started(prep.def, prep.deviceId, after.nodeRuns[node.id]), old(runtime.nextPoint),
                 world.drives(old(moves) + 1), runtime.runs[after.nodeRuns[node.id]], runtime.nextPoint)
      ensures Ran(base.nodeRuns, runs0, leases0, base.ownerId, node.id, if ending.None? then endings else endings + [ending.value],
                  after.nodeRuns, runtime.runs, runtime.resourceLeases)
    {
      hide LeaseResourceCoordinator.Valid, Accounted, Known, Registered, TasksKnown, Ran, Family, Grown, FreshIds, Cataloged, DrivesEnd,
        CanStart, Drove;
      ghost var runs1, leases1 := runtime.runs, runtime.resourceLeases;
      LeasedNow(runtime);
      hide Leased;
      after := task;
      var grown;
      grown, ending := Attempt(task.nodeRuns, node.id, task.ownerId, prep, world);
      if ending.Some? {
        RanOnce(base.nodeRuns, runs0, leases0, base.ownerId, node.id, endings, task.nodeRuns, runs1, leases1, ending.value,
                grown, runtime.runs, runtime.resourceLeases);
        RanKeys(task.nodeRuns, runs1, leases1, node.id, task.ownerId, ending.value, grown, runtime.runs, runtime.resourceLeases);
        TasksStay(tasks, runs1, runtime.runs);
        after := task.(nodeRuns := grown, status := WaitingChild);
        TaskSaved(tasks, runtime.runs, after);
        SaveTask(after);
      }
    }

    /** Runs a node's children one after the other: retries of a failed one, then the next iteration. */
    method RunNode(task: TaskRun, node: WorkflowNode, prep: Preparation, world: World)
      returns (after: TaskRun, position: Position, repeated: bool, ghost endings: seq<RunStatus>)
      requires Working(task, world) && node.id !in task.nodeRuns && InCatalog(world, prep.def)
      modifies this`tasks, this`resourceLeases, this`moves, runtime, coordinator, coordinator.backend
      ensures Working(after, world) && resourceLeases == old(resourceLeases) && OnlyTask(old(tasks), tasks, task.id)
      ensures Proper(node, endings) && position == PositionAfter(node, endings)
      ensures endings == [] <==> !CanStart(prep, task.ownerId, old(coordinator.claims), world.times(old(moves)))
      ensures position.At? ==> moves > 0 && !CanStart(prep, task.ownerId, coordinator.claims, world.times(moves - 1))
      ensures after == task.(nodeRuns := after.nodeRuns, status := after.status)
      ensures Ran(task.nodeRuns, old(runtime.runs), old(runtime.resourceLeases), task.ownerId, node.id, endings,
                  after.nodeRuns, runtime.runs, runtime.resourceLeases)
    {
      hide LeaseResourceCoordinator.Valid, Accounted, Known, Registered, Leased, TasksKnown, Ran, Family, Proper, PositionAfter, Grown,
        FreshIds, Cataloged, DrivesEnd, OnlyTask, Moved, AttemptLimit, IterationLimit, CanStart, Drove;
      LeasedNow(runtime);
      after, position, repeated, endings := task, At(0, 0), false, [];
      ghost var runs0, leases0 := runtime.runs, runtime.resourceLeases;
      NothingRan(task.nodeRuns, runs0, leases0, task.ownerId, node.id, node);
      OnlyTaskKept(tasks, tasks, task.id, task);
      var going := true;
      while going && position.At?
        invariant Working(after, world) && resourceLeases == old(resourceLeases) && OnlyTask(old(tasks), tasks, task.id)
        invariant after == task.(nodeRuns := after.nodeRuns, status := after.status)
        invariant Proper(node, endings) && position == PositionAfter(node, endings)
        invariant position.At? && endings != [] ==> Terminal(endings[|endings| - 1])
        invariant endings == [] && going ==> coordinator.claims == old(coordinator.claims) && moves == old(moves)
        invariant endings != [] ==> CanStart(prep, task.ownerId, old(coordinator.claims), world.times(old(moves)))
        invariant endings == [] && !going ==> !CanStart(prep, task.ownerId, old(coordinator.claims), world.times(old(moves)))
        invariant !going ==> moves > 0 && !CanStart(prep, task.ownerId, coordinator.claims, world.times(moves - 1))
        invariant Ran(task.nodeRuns, runs0, leases0, task.ownerId, node.id, endings, after.nodeRuns, runtime.runs, runtime.resourceLeases)
        decreases going, IterationLimit(node) * AttemptLimit(node) - |endings|
      {
        var ending;
        ghost var tasks0 := tasks;
        after, ending := AttemptNode(after, node, prep, world, task, runs0, leases0, endings);
        if ending.None? {
          going := false;
        } else {
          ProperLonger(node, endings, ending.value);
          OnlyTaskKept(old(tasks), tasks0, task.id, after);
          repeated := repeated || ending.value == Succeeded;
          position, endings := Moved(node, position, ending.value), endings + [ending.value];
        }
      }
    }

    /** What an exception does to the task: all these children, live, are cancelled. */
    method RaiseTask(task: TaskRun, world: World) returns (after: TaskRun)
      requires Working(task, world)
      modifies runtime, coordinator, coordinator.backend
      ensures Working(after, world) && after == task.(status := TaskFailed)
      ensures Progressed(task, old(runtime.runs), old(runtime.resourceLeases), after, runtime.runs, runtime.resourceLeases)
      ensures LooksLike(after, runtime.runs, runtime.resourceLeases, Raised(ViewOf(task, old(runtime.runs), old(runtime.resourceLeases))))
    {
      hide LeaseResourceCoordinator.Valid, Accounted, Known, Registered, Leased, TasksKnown, Family, FreshIds, Cataloged, DrivesEnd, AllStopped,
        StatusesOf, StrayIn, AllCancelled, Spares, ChildIds;
      ghost var runs0, leases0 := runtime.runs, runtime.resourceLeases;
      LeasedNow(runtime);
      ChildrenAreRuns(task.nodeRuns, runs0);
      CancelLive(ChildIds(task.nodeRuns));
      StoppedKeys(ChildIds(task.nodeRuns), runs0, leases0, runtime.runs, runtime.resourceLeases);
      StoppedStatuses(task.nodeRuns, ChildIds(task.nodeRuns), runs0, leases0, runtime.runs, runtime.resourceLeases);
      StoppedStray(task.nodeRuns, ChildIds(task.nodeRuns), runs0, leases0, runtime.runs, runtime.resourceLeases, task.ownerId);
      StoppedSpares(task.nodeRuns, ChildIds(task.nodeRuns), runs0, leases0, runtime.runs, runtime.resourceLeases, task.ownerId);
      TasksStay(tasks, runs0, runtime.runs);
      FreshSame(world, moves, moves, runs0, runtime.runs);
      after := task.(status := TaskFailed);
    }

    /** What becomes of a task once its visit of a node is out of the loops, or has been refused a child. */
    method FinishNode(task: TaskRun, ran: TaskRun, node: WorkflowNode, position: Position, repeated: bool, reports: bool, world: World,
                      ghost runs0: map<string, Run>, ghost leases0: Entries, ghost endings: seq<RunStatus>)
      returns (after: TaskRun, goes: bool)
      requires Working(ran, world) && ran == task.(nodeRuns := ran.nodeRuns, status := ran.status)
      requires position == PositionAfter(node, endings)
      requires Ran(task.nodeRuns, runs0, leases0, task.ownerId, node.id, endings, ran.nodeRuns, runtime.runs, runtime.resourceLeases)
      modifies this`tasks, this`resourceLeases, runtime, coordinator, coordinator.backend
      ensures Working(after, world) && resourceLeases == old(resourceLeases) && OnlyTask(old(tasks), tasks, task.id)
      ensures Progressed(task, runs0, leases0, after, runtime.runs, runtime.resourceLeases)
      ensures MovesAs(after, goes, runtime.runs, runtime.resourceLeases,
                      VisitNew(ViewOf(task, runs0, leases0), node,
                               Fate(false, Succeeded, endings, if position.At? then repeated else repeated || reports)))
    {
      hide LeaseResourceCoordinator.Valid, Accounted, Known, Registered, Leased, TasksKnown, Family, FreshIds, Cataloged, DrivesEnd,
        StatusesOf, StrayIn, AllCancelled, Proper, PositionAfter, Ran, OnlyTask, Spares, Progressed;
      ghost var v, runs1, leases1 := ViewOf(task, runs0, leases0), runtime.runs, runtime.resourceLeases;
      goes := false;
      ghost var fate := Fate(false, Succeeded, endings, if position.At? then repeated else repeated || reports);
      RanView(v, task, runs0, leases0, node, fate, ran, runs1, leases1);
      LeasedNow(runtime);
      RanProgress(task, runs0, leases0, node.id, endings, ran, runs1, leases1);
      OnlyTaskKept(tasks, tasks, task.id, ran);
      match position {
        case At(_, _) =>
          var reported := ran.(outputs := Reported(ran.outputs, node.id, repeated));
          NoProgress(ran, reported, runs1, leases1);
          ProgressedTwice(task, runs0, leases0, ran, runs1, leases1, reported, runs1, leases1);
          after := RaiseTask(reported, world);
          ProgressedTwice(task, runs0, leases0, reported, runs1, leases1, after, runtime.runs, runtime.resourceLeases);
          return;
        case Finished =>
          after, goes := ran.(outputs := ran.outputs + {node.id}, status := TaskRunning), true;
        case Stopped(ending) =>
          if ContinuesPast(node, ending) {
            after, goes := ran.(outputs := ran.outputs + {node.id}, continued := ran.continued + {node.id}, status := TaskRunning), true;
          } else {
            after := ran.(outputs := Reported(ran.outputs, node.id, repeated || reports), status := Aggregate(ending));
          }
      }
      NoProgress(ran, after, runs1, leases1);
      ProgressedTwice(task, runs0, leases0, ran, runs1, leases1, after, runs1, leases1);
      if goes {
        TaskSaved(tasks, runtime.runs, after);
        OnlyTaskSaved(old(tasks), tasks, task.id, after);
        SaveTask(after);
      }
    }

    /** Visits a node that has no recorded child. */
    method VisitNewNode(task: TaskRun, node: WorkflowNode, world: World)
      returns (after: TaskRun, goes: bool, ghost fate: Fate)
      requires Working(task, world) && node.id !in task.nodeRuns
      modifies this`tasks, this`resourceLeases, this`moves, runtime, coordinator, coordinator.backend
      ensures Working(after, world) && resourceLeases == old(resourceLeases) && OnlyTask(old(tasks), tasks, task.id)
      ensures Progressed(task, old(runtime.runs), old(runtime.resourceLeases), after, runtime.runs, runtime.resourceLeases) && Likely(node, fate)
      ensures fate.skips <==> node.conditional && world.skips(old(moves))
      ensures !fate.skips ==>
        (fate.endings != [] <==>
          && world.prepared(old(moves)).Some?
          && CanStart(world.prepared(old(moves)).value, task.ownerId, old(coordinator.claims), world.times(old(moves) + 1)))
      ensures MovesAs(after, goes, runtime.runs, runtime.resourceLeases,
                      VisitNew(ViewOf(task, old(runtime.runs), old(runtime.resourceLeases)), node, fate))
    {
      hide LeaseResourceCoordinator.Valid, Accounted, Known, Registered, Leased, TasksKnown, Family, FreshIds, Cataloged, DrivesEnd,
        StatusesOf, StrayIn, AllCancelled, Proper, PositionAfter, Ran, OnlyTask, Spares, Progressed, CanStart;
      ghost var v := ViewOf(task, runtime.runs, runtime.resourceLeases);
      ghost var runs0, leases0 := runtime.runs, runtime.resourceLeases;
      LeasedNow(runtime);
      var i := moves;
      moves := i + 1;
      FreshSame(world, i, i + 1, runtime.runs, runtime.runs);
      OnlyTaskKept(tasks, tasks, task.id, task);
      NoEndings(node);
      if node.conditional && world.skips(i) {
        after := task.(outputs := task.outputs + {node.id}, status := TaskRunning);
        goes, fate := true, Fate(true, Succeeded, [], false);
        TaskSaved(tasks, runtime.runs, after);
        OnlyTaskKept(tasks, tasks, task.id, after);
        NoProgress(task, after, runs0, leases0);
        SaveTask(after);
        return;
      }
      fate := IDLE;
      goes := false;
      var prep := world.prepared(i);
      if prep.None? {
        after := RaiseTask(task, world);
        return;
      }
      PreparedIsCataloged(world, runtime.definitions, i);
      var ran, position, repeated;
      ghost var endings;
      ran, position, repeated, endings := RunNode(task, node, prep.value, world);
      ghost var tasks1 := tasks;
      ghost var shown := if position.At? then repeated else repeated || world.reports(i, node.id);
      fate := Fate(false, Succeeded, endings, shown);
      after, goes := FinishNode(task, ran, node, position, repeated, world.reports(i, node.id), world, runs0, leases0, endings);
      OnlyTaskTwice(old(tasks), tasks1, tasks, task.id);
    }

    /** Visits a node that has a recorded child. */
    method VisitRecordedNode(task: TaskRun, node: WorkflowNode, world: World)
      returns (after: TaskRun, goes: bool, ghost fate: Fate)
      requires Working(task, world) && node.id in task.nodeRuns
      modifies this`moves, runtime, coordinator, coordinator.backend
      ensures Working(after, world) && Likely(node, fate)
      ensures Progressed(task, old(runtime.runs), old(runtime.resourceLeases), after, runtime.runs, runtime.resourceLeases)
      ensures node.id in ViewOf(task, old(runtime.runs), old(runtime.resourceLeases)).recorded
      ensures MovesAs(after, goes, runtime.runs, runtime.resourceLeases,
                      VisitRecorded(ViewOf(task, old(runtime.runs), old(runtime.resourceLeases)), node, fate))
    {
      hide LeaseResourceCoordinator.Valid, Accounted, Known, Registered, Leased, TasksKnown, Family, FreshIds, Cataloged, DrivesEnd,
        StatusesOf, StrayIn, Proper, PositionAfter, Saved, Spares, ChildIds;
      ghost var v, runs0, leases0 := ViewOf(task, runtime.runs, runtime.resourceLeases), runtime.runs, runtime.resourceLeases;
      var i := moves;
      NoEndings(node);
      RecordedAt(task.nodeRuns, runtime.runs, node.id);
      var child := task.nodeRuns[node.id];
      var status := runtime.runs[child].status;
      if Drivable(status) {
        LeasedNow(runtime);
        status := DriveChild(child, world);
        SavedGrows(runs0, leases0, runtime.runs[child], runtime.runs, runtime.resourceLeases);
        TasksStay(tasks, runs0, runtime.runs);
        DrivenRecorded(task.nodeRuns, runs0, leases0, node.id, runtime.runs[child], runtime.runs, runtime.resourceLeases, task.ownerId);
        ChildIdIn(task.nodeRuns, node.id);
        SavedSpares(task.nodeRuns, task.ownerId, runs0, leases0, runtime.runs[child], runtime.runs, runtime.resourceLeases);
      } else {
        NothingDriven(task.nodeRuns, runs0, node.id);
        LeasedNow(runtime);
        SparesAll(task.nodeRuns, task.ownerId, runs0, leases0);
      }
      fate := Fate(false, if Drivable(runs0[child].status) then status else Succeeded, [], world.reports(i, node.id));
      if status == Succeeded {
        after, goes := task.(outputs := task.outputs + {node.id}), true;
      } else if node.id in task.continued || ContinuesPast(node, status) {
        after, goes := task.(outputs := task.outputs + {node.id}, continued := task.continued + {node.id}), true;
      } else {
        after, goes := task.(outputs := Reported(task.outputs, node.id, world.reports(i, node.id)), status := Aggregate(status)), false;
      }
    }

    /** One step of one branch: its condition and its preparation, or its next attempt. */
    method StepBranch(task: TaskRun, u: Unit, n: WorkflowNode, b: Branches, world: World, ghost runs0: map<string, Run>,
                      ghost leases0: Entries, ghost endings: Endings)
      returns (b': Branches, raised: bool, ghost endings': Endings)
      requires Working(task, world) && UniqueIds(u) && n in u && !BranchDone(n.id, b)
      requires BatchOk(u, task.nodeRuns, runs0, leases0, task.ownerId, b.children, runtime.runs, runtime.resourceLeases, endings)
      requires BranchesOk(u, b, endings, world)
      modifies this`tasks, this`resourceLeases, this`moves, runtime, coordinator, coordinator.backend
      ensures Working(task, world) && resourceLeases == old(resourceLeases) && OnlyTask(old(tasks), tasks, task.id)
      ensures BatchOk(u, task.nodeRuns, runs0, leases0, task.ownerId, b'.children, runtime.runs, runtime.resourceLeases, endings')
      ensures BranchesOk(u, b', endings', world)
      ensures forall m :: m in u && m != n ==> BranchDone(m.id, b') == BranchDone(m.id, b)
      ensures raised ==> !BranchDone(n.id, b')
      ensures n.id !in b.positions ==>
        && (n.id in b'.skipped <==> n.conditional && world.skips(old(moves)))
        && (raised <==> !(n.conditional && world.skips(old(moves))) && world.prepared(old(moves)).None?)
      ensures n.id in b.positions ==>
        && n.id in b.preps
        && (raised <==> !CanStart(b.preps[n.id], task.ownerId, old(coordinator.claims), world.times(old(moves) + 1)))
      ensures !raised ==> Left(u, b', endings') < Left(u, b, endings)
    {
      hide LeaseResourceCoordinator.Valid, Accounted, Known, Registered, Leased, TasksKnown, Family, FreshIds, Cataloged, DrivesEnd,
        StatusesOf, StrayIn, Proper, PositionAfter, OnlyTask, BatchOk, BranchesOk, Grown, Left, Moved, CanStart, Drove, UniqueIds, IdSet,
        Started, InCatalog, Drivable;
      var i := moves;
      moves := i + 1;
      FreshSame(world, i, i + 1, runtime.runs, runtime.runs);
      OnlyTaskKept(tasks, tasks, task.id, task);
      b', raised, endings' := b, false, endings;
      if n.id !in b.positions {
        if n.conditional && world.skips(i) {
          b' := b.(skipped := b.skipped + {n.id});
        } else if world.prepared(i).None? {
          raised := true;
          return;
        } else {
          PreparedIsCataloged(world, runtime.definitions, i);
          b' := b.(preps := b.preps[n.id := world.prepared(i).value], positions := b.positions[n.id := At(0, 0)]);
        }
        BranchBegins(u, n, b, b', endings, world);
      } else {
        PrepIsThere(u, n, b, endings, world);
        ghost var runs1, leases1 := runtime.runs, runtime.resourceLeases;
        LeasedNow(runtime);
        BatchFamily(u, task.nodeRuns, runs0, leases0, task.ownerId, b.children, runtime.runs, runtime.resourceLeases, endings);
        var grown, ending := Attempt(b.children, n.id, task.ownerId, b.preps[n.id], world);
        if ending.None? {
          raised := true;
          return;
        }
        BatchGrows(u, task.nodeRuns, runs0, leases0, task.ownerId, n, b.children, runs1, leases1, endings, ending.value,
                   grown, runtime.runs, runtime.resourceLeases);
        RanKeys(b.children, runs1, leases1, n.id, task.ownerId, ending.value, grown, runtime.runs, runtime.resourceLeases);
        TasksStay(tasks, runs1, runtime.runs);
        FamilyStays(task.nodeRuns, runs1, runtime.runs);
        b' := b.(children := grown, positions := b.positions[n.id := Moved(n, b.positions[n.id], ending.value)]);
        endings' := endings[n.id := endings[n.id] + [ending.value]];
        BranchMoves(u, n, b, b', endings, ending.value, world);
        var recorded := task.(nodeRuns := grown, status := WaitingChild);
        TaskSaved(tasks, runtime.runs, recorded);
        OnlyTaskSaved(old(tasks), tasks, task.id, recorded);
        SaveTask(recorded);
      }
    }

    /** Runs the branches of a batch in any interleaving of their steps, until all are done or one raises. */
    method RunBatch(task: TaskRun, u: Unit, world: World) returns (b: Branches, raised: bool, ghost endings: Endings)
      requires Working(task, world) && UniqueIds(u) && Intact(u, task.nodeRuns.Keys)
      modifies this`tasks, this`resourceLeases, this`moves, runtime, coordinator, coordinator.backend
      ensures Working(task, world) && resourceLeases == old(resourceLeases) && OnlyTask(old(tasks), tasks, task.id)
      ensures BatchOk(u, task.nodeRuns, old(runtime.runs), old(runtime.resourceLeases), task.ownerId, b.children,
                      runtime.runs, runtime.resourceLeases, endings)
      ensures BranchesOk(u, b, endings, world)
      ensures raised ==> exists n :: n in u && !BranchDone(n.id, b)
      ensures !raised ==> forall n :: n in u ==> BranchDone(n.id, b)
    {
      hide LeaseResourceCoordinator.Valid, Accounted, Known, Registered, Leased, TasksKnown, Family, FreshIds, Cataloged, DrivesEnd,
        OnlyTask, BatchOk, BranchesOk, Left, IdSet, Intact;
      ghost var runs0, leases0 := runtime.runs, runtime.resourceLeases;
      LeasedNow(runtime);
      b, raised, endings := Branches(task.nodeRuns, map[], map[], {}), false, NoneEnded(u);
      BatchStarts(u, task.nodeRuns, runs0, leases0, task.ownerId, world);
      OnlyTaskKept(tasks, tasks, task.id, task);
      var todo := set n | n in u;
      while todo != {} && !raised
        invariant Working(task, world) && resourceLeases == old(resourceLeases) && OnlyTask(old(tasks), tasks, task.id)
        invariant BatchOk(u, task.nodeRuns, runs0, leases0, task.ownerId, b.children, runtime.runs, runtime.resourceLeases, endings)
        invariant BranchesOk(u, b, endings, world)
        invariant forall n :: n in todo ==> n in u && !BranchDone(n.id, b)
        invariant forall n :: n in u && n !in todo ==> BranchDone(n.id, b)
        invariant raised ==> todo != {}
        decreases !raised, Left(u, b, endings), |todo|
      {
        var n :| n in todo;
        ghost var tasks0 := tasks;
        ghost var left := Left(u, b, endings);
        b, raised, endings := StepBranch(task, u, n, b, world, runs0, leases0, endings);
        OnlyTaskTwice(old(tasks), tasks0, tasks, task.id);
        if BranchDone(n.id, b) {
          todo := todo - {n};
        }
      }
      if raised {
        var n :| n in todo;
        assert n in u && !BranchDone(n.id, b);
      }
    }

    /** Gives up a batch: cancels these children, among them all that the batch has started, and forgets the latter. */
    method AbandonBatch(task: TaskRun, u: Unit, children: Children, ids: set<string>, world: World, ghost runs0: map<string, Run>,
                        ghost leases0: Entries, ghost endings: Endings)
      requires Working(task, world) && Family(task.nodeRuns, runs0) && Intact(u, task.nodeRuns.Keys)
      requires BatchOk(u, task.nodeRuns, runs0, leases0, task.ownerId, children, runtime.runs, runtime.resourceLeases, endings)
      requires ids <= ChildIds(children) && forall n :: n in children && n in IdSet(u) ==> children[n] in ids
      modifies runtime, coordinator, coordinator.backend
      ensures Working(task, world)
      ensures StrayIn(task.nodeRuns, runtime.resourceLeases, task.ownerId) == StrayIn(task.nodeRuns, leases0, task.ownerId)
      ensures Spares(task.nodeRuns, task.ownerId, runs0, leases0, task.nodeRuns, runtime.runs, runtime.resourceLeases)
      ensures (forall n :: n in task.nodeRuns ==> task.nodeRuns[n] in ids) ==>
        StatusesOf(task.nodeRuns, runtime.runs) == AllCancelled(StatusesOf(task.nodeRuns, runs0))
      ensures (forall n :: n in task.nodeRuns ==> task.nodeRuns[n] !in ids) ==>
        StatusesOf(task.nodeRuns, runtime.runs) == StatusesOf(task.nodeRuns, runs0)
    {
      hide LeaseResourceCoordinator.Valid, Accounted, Known, Registered, Leased, TasksKnown, FreshIds, Cataloged, DrivesEnd,
        BatchOk, IdSet, Intact, AllStopped, StrayIn, StatusesOf, AllCancelled, Family, Spares, ChildIds;
      ghost var runs1, leases1 := runtime.runs, runtime.resourceLeases;
      LeasedNow(runtime);
      BatchFamily(u, task.nodeRuns, runs0, leases0, task.ownerId, children, runs1, leases1, endings);
      ChildrenAreRuns(children, runs1);
      CancelLive(ids);
      BatchDropped(u, task.nodeRuns, runs0, leases0, task.ownerId, children, runs1, leases1, endings, ids,
                   runtime.runs, runtime.resourceLeases);
      StoppedKeys(ids, runs1, leases1, runtime.runs, runtime.resourceLeases);
      TasksStay(tasks, runs1, runtime.runs);
      FreshSame(world, moves, moves, runs1, runtime.runs);
    }

    /** Visits a batch none of whose members has a recorded child. */
    method VisitParallel(task: TaskRun, u: Unit, world: World, ghost order: seq<WorkflowNode>)
      returns (after: TaskRun, goes: bool, ghost fates: Fates)
      requires Working(task, world) && UniqueIds(u) && Intact(u, task.nodeRuns.Keys)
      requires UniqueIds(order) && forall n :: n in u ==> n in order
      modifies this`tasks, this`resourceLeases, this`moves, runtime, coordinator, coordinator.backend
      ensures Working(after, world) && resourceLeases == old(resourceLeases) && OnlyTask(old(tasks), tasks, task.id)
      ensures Progressed(task, old(runtime.runs), old(runtime.resourceLeases), after, runtime.runs, runtime.resourceLeases) && AllLikely(order, fates)
      ensures MovesAs(after, goes, runtime.runs, runtime.resourceLeases,
                      VisitBatch(ViewOf(task, old(runtime.runs), old(runtime.resourceLeases)), u, fates))
    {
      hide LeaseResourceCoordinator.Valid, Accounted, Known, Registered, Leased, TasksKnown, FreshIds, Cataloged, DrivesEnd,
        OnlyTask, BatchOk, BranchesOk, IdSet, Intact, AllStopped, StrayIn, StatusesOf, UniqueIds, AllLikely, FatesOf, RecordAll,
        FirstFailure, ContinuedIn, ReportedIn, SomeRaises, AllCancelled, Family, Spares, ChildIds;
      ghost var runs0, leases0 := runtime.runs, runtime.resourceLeases;
      ghost var v := ViewOf(task, runs0, leases0);
      StatusKeys(task.nodeRuns, runs0);
      var i := moves;
      var b, raised;
      ghost var endings;
      b, raised, endings := RunBatch(task, u, world);
      ghost var runs1, leases1 := runtime.runs, runtime.resourceLeases;
      BatchFamily(u, task.nodeRuns, runs0, leases0, task.ownerId, b.children, runs1, leases1, endings);
      var reported := set n | n in u && (world.reports(i, n.id) || (IterationLimit(n) > 1 && n.id in b.positions && b.positions[n.id].Finished?)) :: n.id;
      fates, goes := FatesOf(b, endings, reported), false;
      BatchLikely(order, u, b, endings, reported, world);
      BatchRaises(u, b, endings, reported, world);
      if raised {
        AllOrNone(u, task.nodeRuns, runs0, leases0, task.ownerId, b.children, runs1, leases1, endings);
        AbandonBatch(task, u, b.children, ChildIds(b.children), world, runs0, leases0, endings);
        after := task.(status := TaskFailed);
        return;
      }
      FirstStopIsFailure(u, u, b, endings, reported, world);
      ContinuedNowIs(u, b, endings, reported, world);
      var stop := FirstStop(u, b);
      if stop.Some? {
        ReportedNowIs(u, b, endings, reported, world);
        BatchChildrenAre(u, task.nodeRuns, runs0, leases0, task.ownerId, b.children, runs1, leases1, endings);
        AbandonBatch(task, u, b.children, BatchChildIds(u, b.children), world, runs0, leases0, endings);
        after := task.(outputs := task.outputs + ReportedNow(u, b, reported), status := Aggregate(stop.value));
        return;
      }
      BatchRecorded(u, task.nodeRuns, runs0, leases0, task.ownerId, b.children, runs1, leases1, endings, b, reported, world);
      BatchStray(u, task.nodeRuns, runs0, leases0, task.ownerId, b.children, runs1, leases1, endings);
      goes := true;
      after := task.(nodeRuns := b.children, outputs := task.outputs + IdSet(u), continued := task.continued + ContinuedNow(u, b),
                     status := TaskRunning);
      TaskSaved(tasks, runtime.runs, after);
      OnlyTaskSaved(old(tasks), tasks, task.id, after);
      SaveTask(after);
    }

    /** Visits one position of the order. */
    method VisitPosition(task: TaskRun, order: seq<WorkflowNode>, heads: map<string, Unit>, k: nat, completed: set<string>, world: World,
                         ghost s: PassState)
      returns (after: TaskRun, skip: set<string>, goes: bool, ghost t: PassState)
      requires Working(task, world) && HeadsFit(order, heads) && k < |order|
      requires s.running && s.skip == completed && LooksLike(task, runtime.runs, runtime.resourceLeases, s.view)
      modifies this`tasks, this`resourceLeases, this`moves, runtime, coordinator, coordinator.backend
      ensures Working(after, world) && resourceLeases == old(resourceLeases) && OnlyTask(old(tasks), tasks, task.id)
      ensures Progressed(task, old(runtime.runs), old(runtime.resourceLeases), after, runtime.runs, runtime.resourceLeases)
      ensures Moves(order, heads, s, order[k], t) && t.running == goes && t.skip == skip
      ensures LooksLike(after, runtime.runs, runtime.resourceLeases, t.view) && (!goes ==> after.status == t.view.status)
    {
      hide LeaseResourceCoordinator.Valid, Accounted, Known, Registered, Leased, TasksKnown, FreshIds, Cataloged, DrivesEnd, OnlyTask,
        IdSet, Intact, StrayIn, StatusesOf, Family, AllLikely, Likely, VisitNew, VisitRecorded, VisitBatch, HeadsFit, Only, Progressed, CanStart,
        UniqueIds, Drivable;
      var node := order[k];
      OnlyTaskKept(tasks, tasks, task.id, task);
      StatusKeys(task.nodeRuns, runtime.runs);
      ghost var v := ViewOf(task, runtime.runs, runtime.resourceLeases);
      ghost var fates: Fates := Only(node.id, IDLE);
      if node.id in completed {
        SkipMoves(order, heads, s, node);
        LeasedNow(runtime);
        NoProgress(task, task, runtime.runs, runtime.resourceLeases);
        after, skip, goes, t := task, completed, true, s;
        return;
      }
      if node.id in heads && Intact(heads[node.id], task.nodeRuns.Keys) {
        HeadFits(order, heads, node.id);
        var u := heads[node.id];
        after, goes, fates := VisitParallel(task, u, world, order);
        BatchIgnoresStatus(v, u, fates, s.view.status);
        skip := completed + IdSet(u);
      } else {
        ghost var fate;
        if node.id in task.nodeRuns {
          after, goes, fate := VisitRecordedNode(task, node, world);
          RecordedIgnoresStatus(v, node, fate, s.view.status);
        } else {
          after, goes, fate := VisitNewNode(task, node, world);
          NewIgnoresStatus(v, node, fate, s.view.status);
        }
        NodeLikely(order, heads, node, fate);
        fates := Only(node.id, fate);
        assert fates(node.id) == fate by {
          OnlyAt(node.id, fate);
        }
        skip := completed;
      }
      t := VisitAt(s, node, heads, fates);
      assert Moves(order, heads, s, node, t);
    }

    /** One pass over the plan, until a node stops it. */
    method PassOver(task: TaskRun, order: seq<WorkflowNode>, heads: map<string, Unit>, world: World)
      returns (after: TaskRun, ghost states: seq<PassState>)
      requires Working(task, world) && HeadsFit(order, heads)
      modifies this`tasks, this`resourceLeases, this`moves, runtime, coordinator, coordinator.backend
      ensures Working(after, world) && resourceLeases == old(resourceLeases) && OnlyTask(old(tasks), tasks, task.id)
      ensures Progressed(task, old(runtime.runs), old(runtime.resourceLeases), after, runtime.runs, runtime.resourceLeases)
      ensures states != [] && IsPass(order, heads, ViewOf(task, old(runtime.runs), old(runtime.resourceLeases)), states)
      ensures ViewOf(after, runtime.runs, runtime.resourceLeases) == Outcome(states)
    {
      hide LeaseResourceCoordinator.Valid, Accounted, Known, Registered, Leased, TasksKnown, FreshIds, Cataloged, DrivesEnd, OnlyTask,
        StrayIn, StatusesOf, Family, HeadsFit, Moves, PassGoes, IsPass, Progressed;
      ghost var v := ViewOf(task, runtime.runs, runtime.resourceLeases);
      after, states := task, [PassState(v, {}, [], true)];
      PassBegins(order, heads, v);
      ghost var runs0, leases0 := runtime.runs, runtime.resourceLeases;
      LeasedNow(runtime);
      NoProgress(task, task, runs0, leases0);
      OnlyTaskKept(tasks, tasks, task.id, task);
      var completed: set<string>, k := {}, 0;
      while k < |order|
        invariant k <= |order| && |states| == k + 1
        invariant Working(after, world) && resourceLeases == old(resourceLeases) && OnlyTask(old(tasks), tasks, task.id)
        invariant Progressed(task, runs0, leases0, after, runtime.runs, runtime.resourceLeases)
        invariant PassGoes(order, heads, v, states) && states[k].running && states[k].skip == completed
        invariant LooksLike(after, runtime.runs, runtime.resourceLeases, states[k].view)
      {
        var goes;
        ghost var t;
        ghost var tasks0, before, runs1, leases1 := tasks, after, runtime.runs, runtime.resourceLeases;
        ProgressedId(task, runs0, leases0, after, runs1, leases1);
        after, completed, goes, t := VisitPosition(after, order, heads, k, completed, world, states[k]);
        ProgressedTwice(task, runs0, leases0, before, runs1, leases1, after, runtime.runs, runtime.resourceLeases);
        OnlyTaskTwice(old(tasks), tasks0, tasks, task.id);
        PassAdvances(order, heads, v, states, t);
        states := states + [t];
        if !goes {
          return;
        }
        k := k + 1;
      }
      PassEnds(order, heads, v, states);
      LeasedNow(runtime);
      NoProgress(after, after.(status := TaskSucceeded), runtime.runs, runtime.resourceLeases);
      ProgressedTwice(task, runs0, leases0, after, runtime.runs, runtime.resourceLeases,
                      after.(status := TaskSucceeded), runtime.runs, runtime.resourceLeases);
      after := after.(status := TaskSucceeded);
    }

    // ----- Calls on a task -----

    /** Creates a task that holds a lease on its device. */
    method Start(plan: TaskPlan, deviceId: string, ownerId: string, taskId: string, now: int) returns (r: Result<TaskRun, TaskError>)
      requires Valid() && (taskId in tasks ==> Over(tasks[taskId].status))
      modifies this`tasks, this`resourceLeases, coordinator, coordinator.backend
      ensures Valid()
      ensures r.Success? <==> ValidPlan(plan) && deviceId != "" && Grants(old(coordinator.claims), DeviceRequest(deviceId, taskId), now)
      ensures r.Failure? ==> tasks == old(tasks) && resourceLeases == old(resourceLeases)
      ensures r.Success? ==>
        && tasks == old(tasks)[taskId := r.value] && taskId in resourceLeases
        && resourceLeases == old(resourceLeases)[taskId := resourceLeases[taskId]]
        && resourceLeases[taskId].key == Key(Device, deviceId) && IsCurrent(coordinator.claims, resourceLeases[taskId])
        && r.value == TaskRun(taskId, plan.id, deviceId, if ownerId == "" then taskId else ownerId, TaskRunning, map[], {}, {})
        && (OwnsNothing(runtime.resourceLeases, r.value.ownerId) ==> View(taskId) == FRESH)
    {
      hide LeaseResourceCoordinator.Valid, Accounted, Known, Registered, Leased, Family, ValidPlan, TasksKnown, StatusesOf, StrayIn,
        TaskLeases, OnlyTask, OwnsNothing, Apart, Grants;
      var error := Validate(plan);
      if error.Some? {
        return Failure(BadPlan(error.value));
      }
      if deviceId == "" {
        return Failure(NoDevice);
      }
      OverHoldsNothing(tasks, resourceLeases, taskId);
      var refused := HoldFor(taskId, deviceId, taskId, now);
      if refused.Some? {
        return Failure(NotHeld(refused.value));
      }
      var task := TaskRun(taskId, plan.id, deviceId, if ownerId == "" then taskId else ownerId, TaskRunning, map[], {}, {});
      NoChildren(runtime.runs, runtime.resourceLeases, task.ownerId);
      StartsApart(tasks, taskId, task);
      HeldNeedsOwner(old(coordinator.claims), taskId, deviceId, taskId, now);
      TaskSaved(tasks, runtime.runs, task);
      OnlyTaskKept(tasks, tasks, taskId, task);
      TaskLeasesSaved(tasks, old(resourceLeases), tasks, resourceLeases, task);
      tasks := tasks[taskId := task];
      return Success(task);
    }

    /** Sees to it that the task holds a lease on its device. */
    method HoldFor(taskId: string, deviceId: string, ownerId: string, now: int) returns (r: Option<LeaseError>)
      requires Sound()
      modifies this`resourceLeases, coordinator, coordinator.backend
      ensures Sound()
      ensures r.Some? ==> resourceLeases == old(resourceLeases)
      ensures r.None? ==> taskId in resourceLeases && resourceLeases == old(resourceLeases)[taskId := resourceLeases[taskId]]
      ensures r.None? <==> taskId in old(resourceLeases) || Grants(old(coordinator.claims), DeviceRequest(deviceId, ownerId), now)
      ensures taskId in old(resourceLeases) ==> resourceLeases == old(resourceLeases) && coordinator.claims == old(coordinator.claims)
      ensures r.None? && taskId !in old(resourceLeases) ==>
        resourceLeases[taskId].key == Key(Device, deviceId) && IsCurrent(coordinator.claims, resourceLeases[taskId])
    {
      hide LeaseResourceCoordinator.Valid, Accounted, Known, Registered, Leased, Grants;
      r := None;
      if taskId !in resourceLeases {
        AccountedSwap(coordinator, runtime.resourceLeases, resourceLeases);
        var lease, kept := Hold(coordinator, DeviceRequest(deviceId, ownerId), now, taskId, resourceLeases, runtime.resourceLeases);
        AccountedSwap(coordinator, kept, runtime.resourceLeases);
        if lease.Failure? {
          return Some(lease.error);
        }
        resourceLeases := kept;
      }
    }

    /** Makes one pass over a valid plan; a plan whose input references are out of order fails the task. */
    method RunPlan(task: TaskRun, plan: TaskPlan, world: World) returns (after: TaskRun, ghost order: seq<WorkflowNode>)
      requires Working(task, world) && ValidPlan(plan)
      modifies this`tasks, this`resourceLeases, this`moves, runtime, coordinator, coordinator.backend
      ensures Working(after, world) && resourceLeases == old(resourceLeases) && OnlyTask(old(tasks), tasks, task.id)
      ensures Progressed(task, old(runtime.runs), old(runtime.resourceLeases), after, runtime.runs, runtime.resourceLeases)
      ensures IsDepthOrder(plan.nodes, order) && BatchesFrom(order, {}).Some? && NonEmpty(BatchesFrom(order, {}).value)
      ensures Executed(order, HeadMap(BatchesFrom(order, {}).value), InputsUpstream(plan.nodes),
                       ViewOf(task, old(runtime.runs), old(runtime.resourceLeases)), ViewOf(after, runtime.runs, runtime.resourceLeases))
    {
      hide LeaseResourceCoordinator.Valid, Accounted, Known, Registered, Leased, Family, FreshIds, Cataloged, DrivesEnd, IsPass, HeadsFit,
        StatusesOf, StrayIn, OnlyTask, IsDepthOrder, Closed, Acyclic, HeadsApart, UniqueIds, KnownDependencies, NamedWorkflows,
        IndependentGroups, InputsUpstream, BatchesFrom, HeadMap, Executed, ValidPlan, TasksKnown, NonEmpty, DependencyGraph, Outcome;
      PlanIsOrderable(plan);
      ghost var v := ViewOf(task, runtime.runs, runtime.resourceLeases);
      OnlyTaskKept(tasks, tasks, task.id, task);
      var ok := ValidateInputDependencies(plan.nodes);
      var batches;
      batches, order := ExecutionBatches(plan.nodes);
      HeadsOfPlan(plan.nodes, order);
      if !ok {
        after := RaiseTask(task, world);
        RefusedIsExecuted(order, HeadMap(batches.value), v, after, runtime.runs, runtime.resourceLeases);
      } else {
        var ordered := OrderedNodes(plan.nodes);
        OrderIgnoresListing(plan.nodes, plan.nodes, order, ordered.value);
        ghost var states;
        after, states := PassOver(task, ordered.value, HeadMap(batches.value), world);
        PassedIsExecuted(order, HeadMap(batches.value), v, states);
      }
    }

    /** Executes the plan from wherever the task is: validates, takes the lease, makes one pass and saves what it came to. */
    method Execute(id: string, plan: TaskPlan, world: World) returns (r: Result<TaskRun, TaskError>, ghost order: seq<WorkflowNode>)
      requires Valid() && Expects(world)
      modifies this`tasks, this`resourceLeases, this`moves, runtime, coordinator, coordinator.backend
      ensures Valid()
      ensures r == Failure(NoSuchTask) <==> id !in old(tasks)
      ensures r.Failure? && r.error.BadPlan? <==> id in old(tasks) && !ValidPlan(plan)
      ensures r == Failure(OtherPlan) <==> id in old(tasks) && ValidPlan(plan) && old(tasks)[id].planId != plan.id
      ensures r.Success? <==>
        && id in old(tasks) && ValidPlan(plan) && old(tasks)[id].planId == plan.id
        && (id in old(resourceLeases) || Grants(old(coordinator.claims), OwnerRequest(old(tasks)[id]), world.times(old(moves))))
      ensures r.Failure? ==> tasks == old(tasks) && resourceLeases == old(resourceLeases)
      ensures r.Failure? ==> runtime.runs == old(runtime.runs) && runtime.resourceLeases == old(runtime.resourceLeases)
      ensures r.Success? ==>
        && id in tasks && tasks[id] == r.value && OnlyTask(old(tasks), tasks, id)
        && Progressed(old(tasks)[id], old(runtime.runs), old(runtime.resourceLeases), tasks[id], runtime.runs, runtime.resourceLeases)
        && ValidPlan(plan) && IsDepthOrder(plan.nodes, order)
        && BatchesFrom(order, {}).Some? && NonEmpty(BatchesFrom(order, {}).value)
        && Executed(order, HeadMap(BatchesFrom(order, {}).value), InputsUpstream(plan.nodes), old(View(id)), View(id))
      ensures r.Success? && ContinuedMarked(order, old(tasks)[id].continued) ==>
        && ContinuedMarked(order, r.value.continued)
        && (r.value.status == TaskSucceeded ==> forall n :: n in order ==> EndsWell(n, View(id).recorded, n.conditional))
    {
      hide LeaseResourceCoordinator.Valid, Accounted, Known, Registered, Leased, Family, FreshIds, Cataloged, DrivesEnd, IsPass, HeadsFit,
        StatusesOf, StrayIn, OnlyTask, IsDepthOrder, ValidPlan, InputsUpstream, BatchesFrom, HeadMap, Executed, TasksKnown, TaskLeases,
        NonEmpty, KnownDependencies, Grants, Apart, Progressed, ContinuedMarked, EndsWell, Closed, Acyclic, UniqueIds, DependencyGraph;
      order := [];
      if id !in tasks {
        return Failure(NoSuchTask), order;
      }
      var error := Validate(plan);
      if error.Some? {
        return Failure(BadPlan(error.value)), order;
      }
      var task := tasks[id];
      if task.planId != plan.id {
        return Failure(OtherPlan), order;
      }
      TaskIsKnown(tasks, runtime.runs, id);
      var refused := HoldFor(id, task.deviceId, task.ownerId, world.times(moves));
      if refused.Some? {
        return Failure(NotHeld(refused.value)), order;
      }
      ghost var before := task;
      task, order := RunPlan(task, plan, world);
      ProgressedId(before, old(runtime.runs), old(runtime.resourceLeases), task, runtime.runs, runtime.resourceLeases);
      TaskSaved(tasks, runtime.runs, task);
      ghost var tasks1 := tasks;
      SaveTask(task);
      OnlyTaskSaved(old(tasks), tasks1, id, task);
      ghost var heads := HeadMap(BatchesFrom(order, {}).value);
      PlanIsOrderable(plan);
      HeadsOfPlan(plan.nodes, order);
      ghost var v, w := old(View(id)), ViewOf(task, runtime.runs, runtime.resourceLeases);
      if ContinuedMarked(order, v.continued) {
        ExecutionIsSound(order, heads, InputsUpstream(plan.nodes), v, w);
      }
      ProgressApart(old(tasks), old(runtime.runs), old(runtime.resourceLeases), tasks, id, runtime.runs, runtime.resourceLeases);
      TaskLeasesSaved(old(tasks), old(resourceLeases), tasks1, resourceLeases, task);
      return Success(task), order;
    }

    /** A node whose child is live, if there is one. */
    method ActiveChild(task: TaskRun) returns (node: Option<string>)
      requires Family(task.nodeRuns, runtime.runs)
      ensures var v := ViewOf(task, runtime.runs, runtime.resourceLeases);
        && (node.None? <==> NoneLive(v)) && (node.None? <==> AllEnded(task.nodeRuns, runtime.runs))
        && (node.Some? ==> Live(v, node.value) && node.value in task.nodeRuns && task.nodeRuns[node.value] in runtime.runs)
        && (node.Some? ==> !Terminal(runtime.runs[task.nodeRuns[node.value]].status))
    {
      hide StrayIn;
      StatusKeys(task.nodeRuns, runtime.runs);
      var live := set n | n in task.nodeRuns && !Terminal(runtime.runs[task.nodeRuns[n]].status);
      if live == {} {
        forall n | n in task.nodeRuns ensures Terminal(runtime.runs[task.nodeRuns[n]].status) {
          assert n !in live;
        }
        return None;
      }
      var n :| n in live;
      return Some(n);
    }

    /** Saves what a call has made of a task. */
    method Conclude(task: TaskRun)
      requires Sound() && TasksKnown(tasks, runtime.runs) && TaskKnown(task, task.id, runtime.runs)
      requires TaskLeases(tasks, resourceLeases) && Apart(tasks)
      requires task.id in tasks && ChildIds(task.nodeRuns) <= ChildIds(tasks[task.id].nodeRuns)
      modifies this`tasks, this`resourceLeases, coordinator, coordinator.backend
      ensures Valid() && tasks == old(tasks)[task.id := task] && OnlyTask(old(tasks), tasks, task.id)
    {
      hide LeaseResourceCoordinator.Valid, Accounted, Known, Registered, Leased, Family, TaskLeases, OnlyTask, TasksKnown, Apart, ChildIds;
      ghost var leases0 := resourceLeases;
      TaskSaved(tasks, runtime.runs, task);
      OnlyTaskKept(tasks, tasks, task.id, task);
      SaveTask(task);
      TaskLeasesSaved(old(tasks), leases0, old(tasks), resourceLeases, task);
      FewerApart(old(tasks), tasks, task.id);
    }

    /** Pauses the active child and has the task wait for reconciliation. */
    method Pause(id: string) returns (r: Option<TaskRun>)
      requires Valid()
      modifies this`tasks, this`resourceLeases, runtime, coordinator, coordinator.backend
      ensures Valid() && (r.Some? <==> id in old(tasks))
      ensures runtime.definitions == old(runtime.definitions)
      ensures r.None? || Over(old(tasks)[id].status) ==>
        tasks == old(tasks) && runtime.runs == old(runtime.runs) && runtime.resourceLeases == old(runtime.resourceLeases)
      ensures r.Some? && !Over(old(tasks)[id].status) ==>
        && tasks == old(tasks)[id := old(tasks)[id].(status := ReconcilePending)]
        && ActiveCalled(runtime.definitions, old(runtime.nextPoint), old(tasks)[id].nodeRuns, DoPause, old(runtime.runs), old(runtime.resourceLeases),
                          runtime.runs, runtime.resourceLeases)
      ensures r.Some? ==> r.value == tasks[id] && PausedTask(old(View(id)), View(id))
    {
      hide LeaseResourceCoordinator.Valid, Accounted, Known, Registered, Leased, Family, StatusesOf, StrayIn, OnlyTask, TasksKnown,
        TaskLeases, NoneLive, Live, Answered, Saved, Apart, ChildIds, AllEnded;
      if id !in tasks {
        return None;
      }
      var task := tasks[id];
      TaskIsKnown(tasks, runtime.runs, id);
      OnlyTaskKept(tasks, tasks, id, task);
      if Over(task.status) {
        return Some(task);
      }
      ghost var v := ViewOf(task, runtime.runs, runtime.resourceLeases);
      var active := ActiveChild(task);
      if active.Some? {
        ghost var runs0, leases0, point := runtime.runs, runtime.resourceLeases, runtime.nextPoint;
        var child := task.nodeRuns[active.value];
        RunIsKnown(runtime.runs, runtime.definitions, runtime.nextPoint, child);
        var paused := runtime.Pause(child, resourceLeases);
        ChildAnswered(runtime.definitions, runs0, leases0, point, child, DoPause, paused, runtime.runs, runtime.resourceLeases);
        ChildView(task, runs0, leases0, active.value, paused.value, runtime.runs, runtime.resourceLeases);
        TasksStay(tasks, runs0, runtime.runs);
        assert CalledOn(runtime.definitions, point, task.nodeRuns, active.value, DoPause, runs0, leases0, runtime.runs, runtime.resourceLeases);
        PauseSays(v, active.value, ViewOf(task, runtime.runs, runtime.resourceLeases));
      } else {
        NobodyActive(v, Paused);
      }
      Conclude(task.(status := ReconcilePending));
      return Some(tasks[id]);
    }

    /** Cancels the active child and the task, which gives the task's lease back. */
    method Cancel(id: string) returns (r: Option<TaskRun>)
      requires Valid()
      modifies this`tasks, this`resourceLeases, runtime, coordinator, coordinator.backend
      ensures Valid() && (r.Some? <==> id in old(tasks))
      ensures runtime.definitions == old(runtime.definitions)
      ensures r.None? || Over(old(tasks)[id].status) ==>
        tasks == old(tasks) && runtime.runs == old(runtime.runs) && runtime.resourceLeases == old(runtime.resourceLeases)
      ensures r.Some? && !Over(old(tasks)[id].status) ==>
        && tasks == old(tasks)[id := old(tasks)[id].(status := TaskCancelled)]
        && ActiveCalled(runtime.definitions, old(runtime.nextPoint), old(tasks)[id].nodeRuns, DoCancel, old(runtime.runs), old(runtime.resourceLeases),
                          runtime.runs, runtime.resourceLeases)
      ensures r.Some? ==> r.value == tasks[id] && CancelledTask(old(View(id)), View(id))
    {
      hide LeaseResourceCoordinator.Valid, Accounted, Known, Registered, Leased, Family, StatusesOf, StrayIn, OnlyTask, TasksKnown,
        TaskLeases, NoneLive, Live, Answered, Saved, Apart, ChildIds, AllEnded;
      if id !in tasks {
        return None;
      }
      var task := tasks[id];
      TaskIsKnown(tasks, runtime.runs, id);
      OnlyTaskKept(tasks, tasks, id, task);
      if Over(task.status) {
        return Some(task);
      }
      CancelActive(task);
      Conclude(task.(status := TaskCancelled));
      return Some(tasks[id]);
    }

    /** Cancels the active child of a task. */
    method CancelActive(task: TaskRun)
      requires Sound() && TasksKnown(tasks, runtime.runs) && TaskKnown(task, task.id, runtime.runs)
      modifies runtime, coordinator, coordinator.backend
      ensures Sound() && TasksKnown(tasks, runtime.runs) && TaskKnown(task, task.id, runtime.runs)
      ensures runtime.definitions == old(runtime.definitions)
      ensures var v, w := old(ViewOf(task, runtime.runs, runtime.resourceLeases)), ViewOf(task, runtime.runs, runtime.resourceLeases);
        w == v.(recorded := w.recorded) && ActiveBecomes(v, Cancelled, w.recorded)
      ensures ActiveCalled(runtime.definitions, old(runtime.nextPoint), task.nodeRuns, DoCancel, old(runtime.runs), old(runtime.resourceLeases),
                          runtime.runs, runtime.resourceLeases)
    {
      hide LeaseResourceCoordinator.Valid, Accounted, Known, Registered, Leased, Family, StatusesOf, StrayIn, OnlyTask, TasksKnown,
        TaskLeases, NoneLive, Live, Answered, Saved, Apart, ChildIds, AllEnded;
      ghost var v := ViewOf(task, runtime.runs, runtime.resourceLeases);
      var active := ActiveChild(task);
      if active.Some? {
        ghost var runs0, leases0, point := runtime.runs, runtime.resourceLeases, runtime.nextPoint;
        var child := task.nodeRuns[active.value];
        RunIsKnown(runtime.runs, runtime.definitions, runtime.nextPoint, child);
        var cancelled := runtime.Cancel(child, resourceLeases);
        ChildAnswered(runtime.definitions, runs0, leases0, point, child, DoCancel, cancelled, runtime.runs, runtime.resourceLeases);
        ChildView(task, runs0, leases0, active.value, cancelled.value, runtime.runs, runtime.resourceLeases);
        TasksStay(tasks, runs0, runtime.runs);
        assert CalledOn(runtime.definitions, point, task.nodeRuns, active.value, DoCancel, runs0, leases0, runtime.runs, runtime.resourceLeases);
        BecomesAt(v, active.value, Cancelled, ViewOf(task, runtime.runs, runtime.resourceLeases).recorded);
      } else {
        NobodyActive(v, Cancelled);
      }
    }

    /** Restarts a task at a step: cancels the active child, and forgets the step and everything that depends on it. */
    method RestartAt(task: TaskRun, plan: TaskPlan, step: string) returns (after: TaskRun)
      requires Valid() && task.id in tasks && tasks[task.id] == task && step in IdSet(plan.nodes)
      modifies this`tasks, this`resourceLeases, runtime, coordinator, coordinator.backend
      ensures Valid() && task.id in tasks && after == tasks[task.id] && OnlyTask(old(tasks), tasks, task.id)
      ensures runtime.definitions == old(runtime.definitions)
      ensures RestartedFrom(plan.nodes, step, old(View(task.id)), View(task.id))
      ensures after == Restarted(task, Downstream(plan.nodes, step))
      ensures ActiveCalled(runtime.definitions, old(runtime.nextPoint), task.nodeRuns, DoCancel, old(runtime.runs), old(runtime.resourceLeases),
                          runtime.runs, runtime.resourceLeases)
    {
      hide LeaseResourceCoordinator.Valid, Accounted, Known, Registered, Leased, Family, StatusesOf, StrayIn, OnlyTask, TasksKnown,
        TaskLeases, NoneLive, Live, Answered, Saved, Apart, ChildIds, AllEnded;
      TaskIsKnown(tasks, runtime.runs, task.id);
      ghost var v := ViewOf(task, runtime.runs, runtime.resourceLeases);
      var downstream := DownstreamNodeIds(plan.nodes, step);
      DownstreamIs(plan.nodes, step, downstream);
      CancelActive(task);
      LeasedNow(runtime);
      ghost var w := ViewOf(task, runtime.runs, runtime.resourceLeases);
      var kept := map n | n in task.nodeRuns && n !in downstream :: task.nodeRuns[n];
      after := task.(status := TaskRunning, nodeRuns := kept, outputs := task.outputs - downstream);
      KeptChildren(task, downstream);
      KeptView(task, runtime.runs, runtime.resourceLeases, downstream, after);
      ghost var restarted := ViewOf(after, runtime.runs, runtime.resourceLeases);
      Conclude(after);
      RestartSays(plan.nodes, step, v, w, restarted);
    }

    /** Resumes a task: at the given step, with its active child, or at the first step that failed. */
    method Resume(id: string, plan: Option<TaskPlan>, step: string) returns (r: Result<TaskRun, TaskError>, ghost from: string)
      requires Valid()
      modifies this`tasks, this`resourceLeases, runtime, coordinator, coordinator.backend
      ensures Valid()
      ensures runtime.definitions == old(runtime.definitions)
      ensures r == Failure(NoSuchTask) <==> id !in old(tasks)
      ensures r == Failure(UnknownStep) <==> id in old(tasks) && step != "" && (plan.None? || step !in IdSet(plan.value.nodes))
      ensures r.Failure? && r != Failure(NoSuchTask) && r != Failure(UnknownStep) <==>
        && id in old(tasks) && step == "" && Restartable(old(tasks)[id], plan, old(runtime.runs))
        && !(Closed(DependencyGraph(plan.value.nodes)) && Acyclic(DependencyGraph(plan.value.nodes)))
      ensures r.Failure? ==>
        tasks == old(tasks) && runtime.runs == old(runtime.runs) && runtime.resourceLeases == old(runtime.resourceLeases)
      ensures r.Success? ==> id in tasks && OnlyTask(old(tasks), tasks, id) && r.value == tasks[id]
      ensures r.Success? && from != "" ==>
        && plan.Some? && RestartedFrom(plan.value.nodes, from, old(View(id)), View(id))
        && tasks[id] == Restarted(old(tasks)[id], Downstream(plan.value.nodes, from))
        && ActiveCalled(runtime.definitions, old(runtime.nextPoint), old(tasks)[id].nodeRuns, DoCancel, old(runtime.runs), old(runtime.resourceLeases),
                          runtime.runs, runtime.resourceLeases)
      ensures r.Success? && from == "" ==>
        && tasks[id] == old(tasks)[id].(status := TaskRunning) && ResumedTask(old(View(id)), View(id))
        && ActiveCalled(runtime.definitions, old(runtime.nextPoint), old(tasks)[id].nodeRuns, DoResume, old(runtime.runs), old(runtime.resourceLeases),
                          runtime.runs, runtime.resourceLeases)
      ensures r.Success? && (step != "" || !Restartable(old(tasks)[id], plan, old(runtime.runs))) ==> from == step
      ensures r.Success? && step == "" && Restartable(old(tasks)[id], plan, old(runtime.runs)) ==>
        exists order :: IsDepthOrder(plan.value.nodes, order) && FirstFailed(order, StatusesOf(old(tasks)[id].nodeRuns, old(runtime.runs)), from)
    {
      hide LeaseResourceCoordinator.Valid, Accounted, Known, Registered, Leased, Family, StatusesOf, StrayIn, OnlyTask, TasksKnown,
        TaskLeases, NoneLive, Live, Answered, Saved, RestartedFrom, Apart, ChildIds, AllEnded, ActiveCalled;
      from := step;
      if id !in tasks {
        return Failure(NoSuchTask), from;
      }
      var task := tasks[id];
      TaskIsKnown(tasks, runtime.runs, id);
      if step != "" {
        if plan.None? || step !in IdSet(plan.value.nodes) {
          return Failure(UnknownStep), from;
        }
        task := RestartAt(task, plan.value, step);
        return Success(task), from;
      }
      ghost var v := ViewOf(task, runtime.runs, runtime.resourceLeases);
      var active := ActiveChild(task);
      if active.Some? {
        ResumeChild(task, active.value);
      } else {
        NobodyResumed(runtime.definitions, runtime.nextPoint, task, runtime.runs, runtime.resourceLeases);
        if plan.Some? && task.status == TaskFailed {
          var failed := FailedChildStep(task, plan.value);
          if failed.Failure? {
            return Failure(failed.error), from;
          }
          if failed.value != "" {
            from := failed.value;
            task := RestartAt(task, plan.value, failed.value);
            return Success(task), from;
          }
        }
      }
      Conclude(task.(status := TaskRunning));
      return Success(tasks[id]), from;
    }

    /** Resumes a live child of a task. */
    method ResumeChild(task: TaskRun, n: string)
      requires Sound() && TasksKnown(tasks, runtime.runs) && TaskKnown(task, task.id, runtime.runs)
      requires n in task.nodeRuns && task.nodeRuns[n] in runtime.runs && !Terminal(runtime.runs[task.nodeRuns[n]].status)
      modifies runtime, coordinator, coordinator.backend
      ensures Sound() && TasksKnown(tasks, runtime.runs) && TaskKnown(task, task.id, runtime.runs)
      ensures runtime.definitions == old(runtime.definitions)
      ensures ActiveCalled(runtime.definitions, old(runtime.nextPoint), task.nodeRuns, DoResume, old(runtime.runs), old(runtime.resourceLeases),
                           runtime.runs, runtime.resourceLeases)
      ensures ResumedTask(old(ViewOf(task, runtime.runs, runtime.resourceLeases)),
                          ViewOf(task, runtime.runs, runtime.resourceLeases).(status := TaskRunning))
    {
      hide LeaseResourceCoordinator.Valid, Accounted, Known, Registered, Leased, Family, StatusesOf, StrayIn, TasksKnown, NoneLive, Live,
        Answered, Saved;
      ghost var v, runs0, leases0, point := ViewOf(task, runtime.runs, runtime.resourceLeases), runtime.runs, runtime.resourceLeases, runtime.nextPoint;
      var child := task.nodeRuns[n];
      RunIsKnown(runtime.runs, runtime.definitions, runtime.nextPoint, child);
      var resumed := runtime.Resume(child, resourceLeases);
      ChildAnswered(runtime.definitions, runs0, leases0, point, child, DoResume, resumed, runtime.runs, runtime.resourceLeases);
      ChildView(task, runs0, leases0, n, resumed.value, runtime.runs, runtime.resourceLeases);
      TasksStay(tasks, runs0, runtime.runs);
      LiveAt(task, runs0, leases0, n);
      assert CalledOn(runtime.definitions, point, task.nodeRuns, n, DoResume, runs0, leases0, runtime.runs, runtime.resourceLeases);
      assert Live(v, n) by {
        LiveSays(v, n, runs0[child].status);
      }
      ResumeSays(v, n, runs0[child].status, resumed.value.status, ViewOf(task, runtime.runs, runtime.resourceLeases));
    }

    /** The first node in order whose child failed or was cancelled, or nothing. */
    method FailedChildStep(task: TaskRun, plan: TaskPlan) returns (step: Result<string, TaskError>)
      requires Family(task.nodeRuns, runtime.runs)
      ensures step.Failure? <==> !(Closed(DependencyGraph(plan.nodes)) && Acyclic(DependencyGraph(plan.nodes)))
      ensures step.Failure? ==> step.error == BadPlan(DependencyCycle)
      ensures step.Success? && step.value != "" ==> step.value in IdSet(plan.nodes)
      ensures step.Success? ==>
        exists order :: IsDepthOrder(plan.nodes, order) && FirstFailed(order, StatusesOf(task.nodeRuns, runtime.runs), step.value)
    {
      hide Closed, Acyclic, DependencyGraph, IsDepthOrder, Family;
      var ordered := OrderedNodes(plan.nodes);
      if ordered.None? {
        return Failure(BadPlan(DependencyCycle));
      }
      var order := ordered.value;
      OrderIds(plan.nodes, order);
      ChildrenAreRuns(task.nodeRuns, runtime.runs);
      StatusKeys(task.nodeRuns, runtime.runs);
      ghost var recorded := StatusesOf(task.nodeRuns, runtime.runs);
      var k := 0;
      while k < |order|
        invariant k <= |order|
        invariant forall i :: 0 <= i < k ==> !Failing(recorded, order[i].id)
      {
        var n := order[k].id;
        if n in task.nodeRuns {
          RecordedAt(task.nodeRuns, runtime.runs, n);
          if runtime.runs[task.nodeRuns[n]].status in {Failed, Cancelled} {
            assert FailedAt(order, recorded, k);
            assert FirstFailed(order, recorded, n);
            assert n in IdSet(order);
            return Success(n);
          }
        }
        k := k + 1;
      }
      assert FirstFailed(order, recorded, "");
      return Success("");
    }

    /** Applies a decision to the active child and says what that makes of the task. */
    method ApplyDecision(id: string, submission: Submission, reports: bool) returns (r: Result<TaskRun, TaskError>, ghost active: string)
      requires Valid()
      modifies this`tasks, this`resourceLeases, runtime, coordinator, coordinator.backend
      ensures Valid()
      ensures runtime.definitions == old(runtime.definitions)
      ensures r == Failure(NoSuchTask) <==> id !in old(tasks)
      ensures r.Failure? ==> tasks == old(tasks) && runtime.runs == old(runtime.runs) && runtime.resourceLeases == old(runtime.resourceLeases)
      ensures r.Failure? && id in old(tasks) ==> r.error == NothingToDecide && Refuses(old(tasks)[id].nodeRuns, submission, old(runtime.runs))
      ensures r.Success? ==>
        && id in old(tasks) && DecidedOn(old(tasks)[id].nodeRuns, submission, old(runtime.runs), active)
        && CalledOn(runtime.definitions, old(runtime.nextPoint), old(tasks)[id].nodeRuns, active, DoDecide(submission),
                    old(runtime.runs), old(runtime.resourceLeases), runtime.runs, runtime.resourceLeases)
        && tasks == old(tasks)[id := Decided(old(tasks)[id], active, runtime.runs[old(tasks)[id].nodeRuns[active]].status, reports)]
        && r.value == tasks[id] && DecidedTask(old(View(id)), View(id))
    {
      hide LeaseResourceCoordinator.Valid, Accounted, Known, Registered, Leased, Family, StatusesOf, StrayIn, OnlyTask, TasksKnown,
        TaskLeases, NoneLive, Live, Answered, Saved, Chosen, DecidedTask, Apart, ChildIds, AllEnded;
      active := "";
      if id !in tasks {
        return Failure(NoSuchTask), active;
      }
      var task := tasks[id];
      TaskIsKnown(tasks, runtime.runs, id);
      ghost var v := ViewOf(task, runtime.runs, runtime.resourceLeases);
      var node := ActiveChild(task);
      if node.None? {
        NothingPending(task.nodeRuns, submission, runtime.runs);
        return Failure(NothingToDecide), active;
      }
      active := node.value;
      ghost var runs0, leases0, point := runtime.runs, runtime.resourceLeases, runtime.nextPoint;
      var child := task.nodeRuns[node.value];
      RunIsKnown(runtime.runs, runtime.definitions, runtime.nextPoint, child);
      var decided, accepted := runtime.ApplyDecision(child, submission, resourceLeases);
      ChildAnswered(runtime.definitions, runs0, leases0, point, child, DoDecide(submission), decided, runtime.runs, runtime.resourceLeases);
      ChildView(task, runs0, leases0, active, decided.value, runtime.runs, runtime.resourceLeases);
      TasksStay(tasks, runs0, runtime.runs);
      LiveAt(task, runs0, leases0, active);
      if !accepted {
        RefusalKeeps(runtime.definitions, runs0, leases0, point, child, submission, decided, runtime.runs, runtime.resourceLeases);
        RefusedBy(task.nodeRuns, active, submission, runs0);
        return Failure(NothingToDecide), active;
      }
      assert CalledOn(runtime.definitions, point, task.nodeRuns, active, DoDecide(submission), runs0, leases0, runtime.runs, runtime.resourceLeases);
      var after := Decided(task, node.value, decided.value.status, reports);
      DecisionSays(v, active, decided.value.status, reports, ViewOf(after, runtime.runs, runtime.resourceLeases));
      Conclude(after);
      return Success(tasks[id]), active;
    }

    // ----- What a task that is over leaves behind -----

    /** No other task keeps an entry in this owner's name. */
    ghost predicate Exclusive(id: string)
      requires id in tasks
      reads this
    {
      forall t :: t in resourceLeases && t != id ==> resourceLeases[t].ownerId != tasks[id].ownerId
    }
  }

  /** Once a task is over, without a live child, its owner has no claim and no count left in the coordinator. */
  lemma OwnerReleased(o: TaskOrchestrator, id: string)
    requires o.Valid() && id in o.tasks && o.Exclusive(id)
    requires Over(o.tasks[id].status) && NoneLive(o.View(id)) && !o.View(id).stray
    ensures forall k :: k in o.coordinator.claims ==> o.coordinator.claims[k].ownerId != o.tasks[id].ownerId
    ensures forall r :: r in o.coordinator.refs ==> r.ownerId != o.tasks[id].ownerId
  {
    var task, leases, runs := o.tasks[id], o.runtime.resourceLeases, o.runtime.runs;
    TaskIsKnown(o.tasks, runs, id);
    forall e | e in leases ensures leases[e].ownerId != task.ownerId {
      LiveIsLeased(runs, leases, e);
      if IsChild(task.nodeRuns, e) {
        var n :| n in task.nodeRuns && task.nodeRuns[n] == e;
        RecordedAt(task.nodeRuns, runs, n);
      }
    }
    OverHoldsNothing(o.tasks, o.resourceLeases, id);
    NoEntryNoClaim(o.coordinator, leases, o.resourceLeases, task.ownerId);
  }

  /** Whatever calls a task has been through, if no node continues after a failure and only the last has a condition, or
      the plan is refused: once the task is over its owner has no claim and no count left in the coordinator. */
  lemma OverTaskOwnsNothing(o: TaskOrchestrator, id: string, answers: Option<Answers>, nodes: seq<WorkflowNode>,
                            order: seq<WorkflowNode>, vs: seq<View>)
    requires o.Valid() && id in o.tasks && o.Exclusive(id) && Over(o.tasks[id].status)
    requires IsDepthOrder(nodes, order) && Closed(DependencyGraph(nodes)) && Acyclic(DependencyGraph(nodes))
    requires InputsUpstream(nodes) ==> NoneContinues(order)
    requires IsHistory(answers, nodes, order, vs) && o.View(id) == vs[|vs| - 1]
    ensures forall k :: k in o.coordinator.claims ==> o.coordinator.claims[k].ownerId != o.tasks[id].ownerId
    ensures forall r :: r in o.coordinator.refs ==> r.ownerId != o.tasks[id].ownerId
  {
    hide *;
    HistoryNotEmpty(answers, nodes, order, vs);
    SingleChild(nodes, order);
    OverHasNoLiveChild(nodes, order);
    if InputsUpstream(nodes) {
      ContinuesOrLast(order);
    }
    IdleAndTidy(o, id, vs[|vs| - 1]);
    OwnerReleased(o, id);
  }

  lemma IdleAndTidy(o: TaskOrchestrator, id: string, v: View)
    requires id in o.tasks && v == o.View(id) && Over(o.tasks[id].status) && AtMostOneLive(v) && OverMeansIdle(v)
    ensures NoneLive(v) && !v.stray
  {
  }
}
