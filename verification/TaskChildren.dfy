/** Tasks and their children as values: what a call on one task does to its children, to the runs and to the entries,
    and what that looks like from its plan. */
module TaskChildren {
  import opened Ids
  import opened Graphs
  import opened DeviceLeases
  import opened ResourceBook
  import opened Resources
  import opened Holdings
  import opened Keeping
  import opened Workflows
  import opened RunTheory
  import opened Drives
  import opened Runtime
  import opened TaskPlans
  import opened PlanChecks
  import opened Batches
  import opened Passes
  import opened PassSafety
  import opened Histories

  /** A task. outputs are the keys of its outputs, continued the nodes whose failure it has continued past. */
  datatype TaskRun = TaskRun(
    id: string, planId: string, deviceId: string, ownerId: string, status: TaskStatus,
    nodeRuns: map<string, string>, outputs: set<string>, continued: set<string>)

  /** A child can be started now for this owner. */
  predicate CanStart(prep: Preparation, ownerId: string, claims: Claims, now: int)
  {
    Startable(prep.def, DeviceRequest(prep.deviceId, ownerId), claims, now)
  }

  /** What driving a run with the outside of this move makes of it. */
  ghost predicate Drove(definitions: map<(string, string), Definition>, run: Run, point: nat, env: Env, after: Run, point': nat)
  {
    && run.definition in definitions
    && exists ticks :: DrivenFor(definitions[run.definition], Machine(run, point), env, ticks, Machine(after, point'))
  }

  /** The workflow that was built for a node, and the device it is for. */
  datatype Preparation = Preparation(def: Definition, deviceId: string)

  /** What the outside contributes, move by move: what a condition says, the prepared workflow unless preparing raises,
      the id of a new child, the time, how a drive goes, and whether a child reports outputs. The catalog says which
      definition is meant by an id and a version. */
  datatype World = World(
    skips: nat -> bool,
    prepared: nat -> Option<Preparation>,
    childIds: nat -> string,
    times: nat -> int,
    drives: nat -> Env,
    reports: (nat, string) -> bool,
    catalog: ((string, string)) -> Definition)

  type Children = map<string, string>

  datatype TaskError = NoSuchTask | BadPlan(error: PlanError) | NoDevice | OtherPlan | UnknownStep | NotHeld(cause: LeaseError)
                     | NothingToDecide

  // ----- Assumptions on the outside -----

  ghost predicate FreshIds(world: World, moves: nat, runs: map<string, Run>)
  {
    && (forall i: nat, j: nat :: moves <= i < j ==> world.childIds(i) != world.childIds(j))
    && (forall i: nat :: i >= moves ==> world.childIds(i) !in runs)
  }

  ghost predicate Cataloged(world: World, definitions: map<(string, string), Definition>)
  {
    && (forall k :: k in definitions ==> definitions[k] == world.catalog(k))
    && (forall i: nat :: world.prepared(i).Some? ==> InCatalog(world, world.prepared(i).value.def))
  }

  ghost predicate InCatalog(world: World, def: Definition)
  {
    world.catalog(KeyOf(def)) == def
  }

  /** Every drive of a run of a cataloged definition comes to an end. */
  ghost predicate DrivesEnd(world: World)
  {
    forall i: nat, d, m {:trigger EnvEnds(d, m, world.drives(i))} ::
      ValidDefinition(d) && InCatalog(world, d) && Settled(d, m) ==> EnvEnds(d, m, world.drives(i))
  }

  // ----- Children -----

  /** Each node has a child of its own among the runs. */
  ghost predicate Family(children: Children, runs: map<string, Run>)
  {
    && (forall n :: n in children ==> children[n] in runs)
    && (forall m, n :: m in children && n in children && children[m] == children[n] ==> m == n)
  }

  function StatusesOf(children: Children, runs: map<string, Run>): map<string, RunStatus>
  {
    map n | n in children && children[n] in runs :: runs[children[n]].status
  }

  ghost predicate IsChild(children: Children, id: string)
  {
    exists n :: n in children && children[n] == id
  }

  /** The owner has a leased run that is no longer recorded. */
  ghost predicate StrayIn(children: Children, leases: Entries, ownerId: string)
  {
    exists id :: id in leases && leases[id].ownerId == ownerId && !IsChild(children, id)
  }

  /** The task as its plan sees it. */
  ghost function ViewOf(task: TaskRun, runs: map<string, Run>, leases: Entries): View
  {
    View(StatusesOf(task.nodeRuns, runs), StrayIn(task.nodeRuns, leases, task.ownerId), task.outputs, task.continued, task.status)
  }

  /** A child was started for the node, recorded and driven to its ending. */
  ghost predicate Grown(children: Children, runs: map<string, Run>, leases: Entries, nodeId: string, ownerId: string,
                        ending: RunStatus, children': Children, runs': map<string, Run>, leases': Entries)
  {
    && nodeId in children' && Blocked(ending)
    && var c := children'[nodeId];
       && c !in runs && c in runs' && children' == children[nodeId := c]
       && runs' == runs[c := runs'[c]] && runs'[c].status == ending
       && (c in leases' <==> !Terminal(ending)) && (c in leases' ==> leases'[c].ownerId == ownerId)
       && (forall id :: id != c ==> SameEntry(leases, leases', id))
  }

  ghost predicate SameEntry(leases: Entries, leases': Entries, id: string)
  {
    (id in leases' <==> id in leases) && (id in leases ==> leases'[id] == leases[id])
  }

  /** What a call on a task does not touch: the runs that were there before and are not its children, and their entries.
      Entries are only added for new runs, in the owner's name, and only such runs become children. */
  ghost predicate Spares(children: Children, ownerId: string, runs: map<string, Run>, leases: Entries,
                         children': Children, runs': map<string, Run>, leases': Entries)
  {
    && (forall id :: id in runs ==> id in runs')
    && (forall id :: id in runs && id !in ChildIds(children) ==> runs'[id] == runs[id] && SameEntry(leases, leases', id))
    && (forall id :: id in leases' && id in runs ==> id in leases && leases'[id] == leases[id])
    && (forall id :: id in leases' && id !in runs ==> leases'[id].ownerId == ownerId)
    && (forall id :: id in ChildIds(children') ==> id in ChildIds(children) || id !in runs)
  }

  lemma SparesTwice(children: Children, ownerId: string, runs: map<string, Run>, leases: Entries,
                    children': Children, runs': map<string, Run>, leases': Entries,
                    children'': Children, runs'': map<string, Run>, leases'': Entries)
    requires Spares(children, ownerId, runs, leases, children', runs', leases')
    requires Spares(children', ownerId, runs', leases', children'', runs'', leases'')
    ensures Spares(children, ownerId, runs, leases, children'', runs'', leases'')
  {
    hide ChildIds;
    forall id | id in leases'' && id !in runs ensures leases''[id].ownerId == ownerId {
      if id in runs' {
        assert id in leases' && leases''[id] == leases'[id];
      }
    }
  }

  lemma SparesAll(children: Children, ownerId: string, runs: map<string, Run>, leases: Entries)
    requires Leased(runs, leases)
    ensures Spares(children, ownerId, runs, leases, children, runs, leases)
  {
    hide ChildIds;
  }

  /** Forgetting children spares as much. */
  lemma SparesFewer(children: Children, ownerId: string, runs: map<string, Run>, leases: Entries,
                    children': Children, runs': map<string, Run>, leases': Entries, kept: Children)
    requires Spares(children, ownerId, runs, leases, children', runs', leases')
    requires ChildIds(kept) <= ChildIds(children) + ChildIds(children')
    ensures Spares(children, ownerId, runs, leases, kept, runs', leases')
  {
    hide ChildIds;
  }

  lemma GrownSpares(children: Children, runs: map<string, Run>, leases: Entries, nodeId: string, ownerId: string,
                    ending: RunStatus, children': Children, runs': map<string, Run>, leases': Entries)
    requires Grown(children, runs, leases, nodeId, ownerId, ending, children', runs', leases') && Leased(runs, leases)
    ensures Spares(children, ownerId, runs, leases, children', runs', leases')
  {
    var c := children'[nodeId];
    forall id | id in ChildIds(children') ensures id in ChildIds(children) || id !in runs {
      var n :| n in children' && children'[n] == id;
      if n != nodeId {
        assert children[n] == id;
      }
    }
    forall id | id in leases' && id in runs ensures id in leases && leases'[id] == leases[id] {
      assert SameEntry(leases, leases', id);
    }
    forall id | id in leases' && id !in runs ensures leases'[id].ownerId == ownerId {
      assert id != c ==> SameEntry(leases, leases', id);
    }
  }

  /** Saving one child spares all other runs. */
  lemma SavedSpares(children: Children, ownerId: string, runs: map<string, Run>, leases: Entries, run: Run,
                    runs': map<string, Run>, leases': Entries)
    requires Saved(runs, leases, run, runs', leases') && Leased(runs, leases) && run.id in runs && run.id in ChildIds(children)
    ensures Spares(children, ownerId, runs, leases, children, runs', leases')
  {
    hide ChildIds;
  }

  lemma GrownStatuses(children: Children, runs: map<string, Run>, leases: Entries, nodeId: string, ownerId: string,
                      ending: RunStatus, children': Children, runs': map<string, Run>, leases': Entries)
    requires Grown(children, runs, leases, nodeId, ownerId, ending, children', runs', leases') && Family(children, runs)
    ensures Family(children', runs')
    ensures StatusesOf(children', runs') == StatusesOf(children, runs)[nodeId := ending]
  {
    ChildAdded(children, runs, nodeId, children'[nodeId], runs'[children'[nodeId]]);
  }

  lemma ChildAdded(children: Children, runs: map<string, Run>, nodeId: string, c: string, run: Run)
    requires Family(children, runs) && c !in runs
    ensures Family(children[nodeId := c], runs[c := run])
    ensures StatusesOf(children[nodeId := c], runs[c := run]) == StatusesOf(children, runs)[nodeId := run.status]
  {
    var grown, runs' := children[nodeId := c], runs[c := run];
    forall m, n | m in grown && n in grown && grown[m] == grown[n] ensures m == n {
      if m != nodeId && n != nodeId {
        assert children[m] == children[n];
      }
    }
    hide Family;
    StatusAdded(children, runs, nodeId, c, run);
  }

  lemma StatusAdded(children: Children, runs: map<string, Run>, nodeId: string, c: string, run: Run)
    requires Family(children, runs) && c !in runs
    ensures StatusesOf(children[nodeId := c], runs[c := run]) == StatusesOf(children, runs)[nodeId := run.status]
  {
    var after, before := StatusesOf(children[nodeId := c], runs[c := run]), StatusesOf(children, runs)[nodeId := run.status];
    assert after.Keys == before.Keys;
  }

  lemma GrownStray(children: Children, runs: map<string, Run>, leases: Entries, nodeId: string, ownerId: string,
                   ending: RunStatus, children': Children, runs': map<string, Run>, leases': Entries)
    requires Grown(children, runs, leases, nodeId, ownerId, ending, children', runs', leases') && Family(children, runs)
    requires Leased(runs, leases) && (nodeId in children ==> Terminal(runs[children[nodeId]].status))
    ensures StrayIn(children', leases', ownerId) == StrayIn(children, leases, ownerId)
  {
    var c := children'[nodeId];
    forall id | id != c && id in leases ensures IsChild(children', id) <==> IsChild(children, id) {
      assert SameEntry(leases, leases', id);
      if IsChild(children, id) {
        var n :| n in children && children[n] == id;
        assert n != nodeId && children'[n] == id;
      }
      if IsChild(children', id) {
        var n :| n in children' && children'[n] == id;
        assert n != nodeId && children[n] == id;
      }
    }
    assert IsChild(children', c);
    assert c !in leases;
    if StrayIn(children, leases, ownerId) {
      var id :| id in leases && leases[id].ownerId == ownerId && !IsChild(children, id);
      assert SameEntry(leases, leases', id);
    }
    if StrayIn(children', leases', ownerId) {
      var id :| id in leases' && leases'[id].ownerId == ownerId && !IsChild(children', id);
      assert SameEntry(leases, leases', id);
    }
  }

  /** The request for the task's own lease. */
  function OwnerRequest(task: TaskRun): ResourceRequest
  {
    DeviceRequest(task.deviceId, task.ownerId)
  }

  ghost predicate TaskKnown(task: TaskRun, id: string, runs: map<string, Run>)
  {
    task.id == id && task.ownerId != "" && Family(task.nodeRuns, runs)
  }

  ghost predicate TasksKnown(tasks: map<string, TaskRun>, runs: map<string, Run>)
  {
    forall id :: id in tasks ==> TaskKnown(tasks[id], id, runs)
  }

  /** Only tasks that are not over hold a lease. */
  ghost predicate TaskLeases(tasks: map<string, TaskRun>, leases: Entries)
  {
    forall id :: id in leases ==> id in tasks && !Over(tasks[id].status)
  }

  /** No two tasks have a child in common. */
  ghost predicate Apart(tasks: map<string, TaskRun>)
  {
    forall t, u, id :: t in tasks && u in tasks && t != u && id in ChildIds(tasks[t].nodeRuns) ==> id !in ChildIds(tasks[u].nodeRuns)
  }

  /** Children that are new runs are nobody else's. */
  lemma StaysApart(tasks: map<string, TaskRun>, runs: map<string, Run>, leases: Entries, tasks': map<string, TaskRun>, id: string,
                   ownerId: string, runs': map<string, Run>, leases': Entries)
    requires Apart(tasks) && TasksKnown(tasks, runs) && OnlyTask(tasks, tasks', id) && id in tasks && id in tasks'
    requires Spares(tasks[id].nodeRuns, ownerId, runs, leases, tasks'[id].nodeRuns, runs', leases')
    ensures Apart(tasks')
  {
    forall u, x | u in tasks && u != id && x in ChildIds(tasks[u].nodeRuns) ensures x !in ChildIds(tasks'[id].nodeRuns) {
      assert TaskKnown(tasks[u], u, runs);
      ChildrenAreRuns(tasks[u].nodeRuns, runs);
    }
    hide ChildIds, Spares, TasksKnown;
  }

  lemma FewerApart(tasks: map<string, TaskRun>, tasks': map<string, TaskRun>, id: string)
    requires Apart(tasks) && OnlyTask(tasks, tasks', id) && id in tasks && id in tasks'
    requires ChildIds(tasks'[id].nodeRuns) <= ChildIds(tasks[id].nodeRuns)
    ensures Apart(tasks')
  {
    hide ChildIds;
  }

  lemma StartsApart(tasks: map<string, TaskRun>, id: string, task: TaskRun)
    requires Apart(tasks) && task.nodeRuns == map[]
    ensures Apart(tasks[id := task])
  {
  }

  /** A call on one task leaves what other owners' tasks look like alone: at most, they can lose a stray run. */
  lemma OthersStay(tasks: map<string, TaskRun>, runs: map<string, Run>, leases: Entries,
                   tasks': map<string, TaskRun>, runs': map<string, Run>, leases': Entries, id: string, other: string)
    requires TasksKnown(tasks, runs) && Apart(tasks) && OnlyTask(tasks, tasks', id)
    requires id in tasks && id in tasks' && other in tasks && other != id
    requires Spares(tasks[id].nodeRuns, tasks[id].ownerId, runs, leases, tasks'[id].nodeRuns, runs', leases')
    requires tasks[other].ownerId != tasks[id].ownerId
    ensures other in tasks' && tasks'[other] == tasks[other]
    ensures var v, w := ViewOf(tasks[other], runs, leases), ViewOf(tasks[other], runs', leases');
      w == v.(stray := w.stray) && (w.stray ==> v.stray)
  {
    var task := tasks[other];
    assert TaskKnown(task, other, runs);
    assert forall n :: n in task.nodeRuns ==> task.nodeRuns[n] in ChildIds(task.nodeRuns);
    OtherStatuses(task.nodeRuns, runs, runs');
    if StrayIn(task.nodeRuns, leases', task.ownerId) {
      var e :| e in leases' && leases'[e].ownerId == task.ownerId && !IsChild(task.nodeRuns, e);
      assert e in runs;
    }
  }

  lemma OtherStatuses(children: Children, runs: map<string, Run>, runs': map<string, Run>)
    requires forall n :: n in children ==> children[n] in runs && children[n] in runs' && runs'[children[n]] == runs[children[n]]
    ensures StatusesOf(children, runs') == StatusesOf(children, runs)
  {
    assert StatusesOf(children, runs).Keys == StatusesOf(children, runs').Keys;
  }

  lemma TaskLeasesSaved(tasks: map<string, TaskRun>, leases: Entries, tasks': map<string, TaskRun>, leases': Entries, task: TaskRun)
    requires TaskLeases(tasks, leases) && OnlyTask(tasks, tasks', task.id)
    requires forall id :: id in leases' && id != task.id ==> id in leases
    requires task.id in leases' ==> !Over(task.status)
    ensures TaskLeases(tasks'[task.id := task], leases')
  {
  }

  lemma TasksStay(tasks: map<string, TaskRun>, runs: map<string, Run>, runs': map<string, Run>)
    requires TasksKnown(tasks, runs) && runs.Keys <= runs'.Keys
    ensures TasksKnown(tasks, runs')
  {
    hide Family;
    forall id | id in tasks ensures TaskKnown(tasks[id], id, runs') {
      FamilyStays(tasks[id].nodeRuns, runs, runs');
    }
  }

  lemma TaskSaved(tasks: map<string, TaskRun>, runs: map<string, Run>, task: TaskRun)
    requires TasksKnown(tasks, runs) && TaskKnown(task, task.id, runs)
    ensures TasksKnown(tasks[task.id := task], runs)
  {
    hide TaskKnown;
  }

  /** The task looks like the view, apart from its status. */
  ghost predicate LooksLike(task: TaskRun, runs: map<string, Run>, leases: Entries, v: View)
  {
    ViewOf(task, runs, leases) == v.(status := task.status)
  }

  /** What running a node has done to the children: its last child, if any was started, is recorded with its ending. */
  ghost predicate Ran(children: Children, runs: map<string, Run>, leases: Entries, ownerId: string, nodeId: string,
                      endings: seq<RunStatus>, children': Children, runs': map<string, Run>, leases': Entries)
  {
    && Family(children', runs') && runs.Keys <= runs'.Keys
    && StatusesOf(children', runs') ==
         (if endings == [] then StatusesOf(children, runs) else StatusesOf(children, runs)[nodeId := endings[|endings| - 1]])
    && StrayIn(children', leases', ownerId) == StrayIn(children, leases, ownerId)
    && Spares(children, ownerId, runs, leases, children', runs', leases')
  }

  lemma RanOnce(children0: Children, runs0: map<string, Run>, leases0: Entries, ownerId: string, nodeId: string, endings: seq<RunStatus>,
                children: Children, runs: map<string, Run>, leases: Entries, ending: RunStatus,
                children': Children, runs': map<string, Run>, leases': Entries)
    requires Ran(children0, runs0, leases0, ownerId, nodeId, endings, children, runs, leases) && Leased(runs, leases)
    requires Grown(children, runs, leases, nodeId, ownerId, ending, children', runs', leases')
    requires nodeId !in children0 && (endings != [] ==> Terminal(endings[|endings| - 1]))
    ensures Ran(children0, runs0, leases0, ownerId, nodeId, endings + [ending], children', runs', leases')
  {
    hide StatusesOf, StrayIn, Family, Grown, Leased, Spares;
    GrownSpares(children, runs, leases, nodeId, ownerId, ending, children', runs', leases');
    SparesTwice(children0, ownerId, runs0, leases0, children, runs, leases, children', runs', leases');
    LastEnded(children0, runs0, leases0, ownerId, nodeId, endings, children, runs, leases);
    GrownStatuses(children, runs, leases, nodeId, ownerId, ending, children', runs', leases');
    GrownStray(children, runs, leases, nodeId, ownerId, ending, children', runs', leases');
    RanKeys(children, runs, leases, nodeId, ownerId, ending, children', runs', leases');
    assert (endings + [ending])[|endings + [ending]| - 1] == ending;
  }

  lemma LastEnded(children0: Children, runs0: map<string, Run>, leases0: Entries, ownerId: string, nodeId: string, endings: seq<RunStatus>,
                  children: Children, runs: map<string, Run>, leases: Entries)
    requires Ran(children0, runs0, leases0, ownerId, nodeId, endings, children, runs, leases)
    requires nodeId !in children0 && (endings != [] ==> Terminal(endings[|endings| - 1]))
    ensures nodeId in children ==> children[nodeId] in runs && Terminal(runs[children[nodeId]].status)
  {
    hide StrayIn;
    if nodeId in children {
      assert children[nodeId] in runs;
      assert nodeId in StatusesOf(children, runs) && StatusesOf(children, runs)[nodeId] == runs[children[nodeId]].status;
      assert endings == [] ==> nodeId !in StatusesOf(children0, runs0);
    }
  }

  lemma RanKeys(children: Children, runs: map<string, Run>, leases: Entries, nodeId: string, ownerId: string,
                ending: RunStatus, children': Children, runs': map<string, Run>, leases': Entries)
    requires Grown(children, runs, leases, nodeId, ownerId, ending, children', runs', leases')
    ensures runs.Keys <= runs'.Keys && Blocked(ending)
  {
  }

  lemma ProperLonger(node: WorkflowNode, endings: seq<RunStatus>, ending: RunStatus)
    requires Proper(node, endings) && PositionAfter(node, endings).At? && Blocked(ending)
    ensures Proper(node, endings + [ending])
    ensures PositionAfter(node, endings + [ending]) == Moved(node, PositionAfter(node, endings), ending)
    ensures PositionAfter(node, endings + [ending]).At? ==> Terminal(ending)
    ensures |endings| < IterationLimit(node) * AttemptLimit(node)
  {
    var longer := endings + [ending];
    assert longer[..|longer| - 1] == endings;
    forall k {:trigger longer[..k]} | 0 <= k < |longer| ensures PositionAfter(node, longer[..k]).At? {
      if k < |endings| {
        assert longer[..k] == endings[..k];
      }
    }
    AttemptsFit(node, longer);
  }

  function ChildIds(children: Children): set<string>
  {
    set n | n in children :: children[n]
  }

  lemma ChildIdsAre(children: Children, id: string)
    ensures id in ChildIds(children) <==> IsChild(children, id)
  {
  }

  lemma ChildIdIn(children: Children, n: string)
    requires n in children
    ensures children[n] in ChildIds(children)
  {
  }

  /** These runs are cancelled, as far as they were live, and nothing else happens. */
  ghost predicate AllStopped(ids: set<string>, runs: map<string, Run>, leases: Entries, runs': map<string, Run>, leases': Entries)
  {
    && runs'.Keys == runs.Keys
    && (forall id :: id in runs ==>
         runs'[id] == if id in ids && !Terminal(runs[id].status) then Workflows.Cancel(runs[id]) else runs[id])
    && (forall id :: id in leases' <==> id in leases && id !in ids)
    && (forall id :: id in leases' ==> leases'[id] == leases[id])
  }

  lemma StoppedStatus(ids: set<string>, runs: map<string, Run>, leases: Entries, runs': map<string, Run>, leases': Entries)
    requires AllStopped(ids, runs, leases, runs', leases')
    ensures runs'.Keys == runs.Keys
    ensures forall id :: id in runs ==>
      runs'[id].status == if id in ids && !Terminal(runs[id].status) then Cancelled else runs[id].status
  {
  }

  lemma StoppedStatuses(children: Children, ids: set<string>, runs: map<string, Run>, leases: Entries,
                        runs': map<string, Run>, leases': Entries)
    requires Family(children, runs) && AllStopped(ids, runs, leases, runs', leases') && ChildIds(children) <= ids
    ensures Family(children, runs') && StatusesOf(children, runs') == AllCancelled(StatusesOf(children, runs))
  {
    hide AllStopped, StatusesOf, Family;
    StoppedStatus(ids, runs, leases, runs', leases');
    FamilyStays(children, runs, runs');
    StatusKeys(children, runs);
    StatusKeys(children, runs');
    forall n | n in children ensures StatusesOf(children, runs')[n] == AllCancelled(StatusesOf(children, runs))[n] {
      RecordedAt(children, runs, n);
      RecordedAt(children, runs', n);
      assert children[n] in ChildIds(children);
    }
    assert AllCancelled(StatusesOf(children, runs)).Keys == children.Keys;
  }

  lemma StoppedStray(children: Children, ids: set<string>, runs: map<string, Run>, leases: Entries,
                     runs': map<string, Run>, leases': Entries, ownerId: string)
    requires AllStopped(ids, runs, leases, runs', leases') && ids <= ChildIds(children)
    ensures StrayIn(children, leases', ownerId) == StrayIn(children, leases, ownerId)
  {
    if StrayIn(children, leases, ownerId) {
      var id :| id in leases && leases[id].ownerId == ownerId && !IsChild(children, id);
      ChildIdsAre(children, id);
      assert id in leases';
    }
    if StrayIn(children, leases', ownerId) {
      var id :| id in leases' && leases'[id].ownerId == ownerId && !IsChild(children, id);
      assert id in leases;
    }
  }

  /** Cancelling some of the children spares all other runs. */
  lemma StoppedSpares(children: Children, ids: set<string>, runs: map<string, Run>, leases: Entries,
                      runs': map<string, Run>, leases': Entries, ownerId: string)
    requires AllStopped(ids, runs, leases, runs', leases') && ids <= ChildIds(children) && Leased(runs, leases)
    ensures Spares(children, ownerId, runs, leases, children, runs', leases')
  {
    hide ChildIds, Workflows.Cancel;
  }

  /** Forgetting children that hold no lease leaves nothing stray. */
  lemma ForgetEnded(children: Children, kept: Children, leases: Entries, ownerId: string)
    requires forall n :: n in kept ==> n in children && children[n] == kept[n]
    requires forall n :: n in children && n !in kept ==> children[n] !in leases
    ensures StrayIn(kept, leases, ownerId) == StrayIn(children, leases, ownerId)
  {
    forall id | id in leases ensures IsChild(kept, id) <==> IsChild(children, id) {
      if IsChild(children, id) {
        var n :| n in children && children[n] == id;
        assert n in kept;
      }
      if IsChild(kept, id) {
        var n :| n in kept && kept[n] == id;
        assert n in children;
      }
    }
  }

  lemma FamilyStays(children: Children, runs: map<string, Run>, runs': map<string, Run>)
    requires Family(children, runs) && runs.Keys <= runs'.Keys
    ensures Family(children, runs')
  {
  }

  lemma FreshAt(world: World, i: nat, runs: map<string, Run>)
    requires FreshIds(world, i, runs)
    ensures world.childIds(i) !in runs
  {
  }

  lemma FreshLater(world: World, i: nat, runs: map<string, Run>, runs': map<string, Run>)
    requires FreshIds(world, i, runs) && runs'.Keys <= runs.Keys + {world.childIds(i)}
    ensures FreshIds(world, i + 1, runs')
  {
  }

  lemma DriveEndsAt(world: World, i: nat, definitions: map<(string, string), Definition>, k: (string, string), m: Machine)
    requires DrivesEnd(world) && Cataloged(world, definitions) && Registered(definitions) && k in definitions
    requires Settled(definitions[k], m)
    ensures EnvEnds(definitions[k], m, world.drives(i))
  {
  }

  ghost predicate ChildStarted(runs: map<string, Run>, leases: Entries, ownerId: string, c: string, runs1: map<string, Run>, leases1: Entries)
  {
    && c !in runs && c in runs1 && runs1 == runs[c := runs1[c]]
    && c in leases1 && leases1 == leases[c := leases1[c]] && leases1[c].ownerId == ownerId
  }

  lemma StartedIsThere(runs: map<string, Run>, leases: Entries, ownerId: string, c: string, runs1: map<string, Run>, leases1: Entries)
    requires ChildStarted(runs, leases, ownerId, c, runs1, leases1)
    ensures c in runs1
  {
  }

  /** A child that was started and then driven has grown the family. */
  lemma DrivenIsGrown(children: Children, runs: map<string, Run>, leases: Entries, nodeId: string, ownerId: string, c: string,
                      runs1: map<string, Run>, leases1: Entries, run: Run, runs': map<string, Run>, leases': Entries)
    requires ChildStarted(runs, leases, ownerId, c, runs1, leases1) && Leased(runs, leases)
    requires Saved(runs1, leases1, run, runs', leases') && run.id == c && Blocked(run.status)
    ensures Grown(children, runs, leases, nodeId, ownerId, run.status, children[nodeId := c], runs', leases')
  {
  }

  lemma MayRegisterCataloged(rt: WorkflowRuntime, world: World, def: Definition)
    requires rt.Valid() && Cataloged(world, rt.definitions) && InCatalog(world, def)
    ensures rt.MayRegister(def)
  {
    forall id | id in rt.runs && !Terminal(rt.runs[id].status) && rt.runs[id].definition == KeyOf(def)
      ensures KeyOf(def) in rt.definitions && rt.definitions[KeyOf(def)] == def
    {
      RunIsKnown(rt.runs, rt.definitions, rt.nextPoint, id);
    }
  }

  // ----- Calls on the active child -----

  predicate Failing(recorded: map<string, RunStatus>, n: string)
  {
    n in recorded && (recorded[n] == Failed || recorded[n] == Cancelled)
  }

  /** The node at this position has a child that failed or was cancelled, and none before it has. */
  ghost predicate FailedAt(order: seq<WorkflowNode>, recorded: map<string, RunStatus>, k: nat)
  {
    k < |order| && Failing(recorded, order[k].id) && forall j :: 0 <= j < k ==> !Failing(recorded, order[j].id)
  }

  /** The first node in order whose child failed or was cancelled; no name if there is none. */
  ghost predicate FirstFailed(order: seq<WorkflowNode>, recorded: map<string, RunStatus>, step: string)
  {
    || (exists k: nat :: FailedAt(order, recorded, k) && order[k].id == step)
    || (step == "" && forall k :: 0 <= k < |order| ==> !Failing(recorded, order[k].id))
  }

  /** Resuming looks for a failed step: nothing is live, the task has failed and the plan is at hand. */
  predicate Restartable(task: TaskRun, plan: Option<TaskPlan>, runs: map<string, Run>)
  {
    AllEnded(task.nodeRuns, runs) && plan.Some? && task.status == TaskFailed
  }

  lemma NobodyResumed(definitions: map<(string, string), Definition>, point: nat, task: TaskRun, runs: map<string, Run>, leases: Entries)
    requires AllEnded(task.nodeRuns, runs)
    ensures ActiveCalled(definitions, point, task.nodeRuns, DoResume, runs, leases, runs, leases)
    ensures ResumedTask(ViewOf(task, runs, leases), ViewOf(task, runs, leases).(status := TaskRunning))
  {
    hide AllEnded, StatusesOf, StrayIn;
  }

  /** A decision is refused: no child is live, or some live child does not accept it. */
  ghost predicate Refuses(children: Children, submission: Submission, runs: map<string, Run>)
  {
    || AllEnded(children, runs)
    || exists n :: n in children && children[n] in runs && !Terminal(runs[children[n]].status) && Chosen(runs[children[n]], submission).None?
  }

  /** The live child of this node accepts the decision. */
  ghost predicate DecidedOn(children: Children, submission: Submission, runs: map<string, Run>, n: string)
  {
    n in children && children[n] in runs && !Terminal(runs[children[n]].status) && Chosen(runs[children[n]], submission).Some?
  }

  /** What a decision makes of the task: it goes on if the child runs or has succeeded, and otherwise follows the child. */
  function Decided(task: TaskRun, n: string, s: RunStatus, reports: bool): TaskRun
  {
    task.(status := if s == Running || s == Succeeded then TaskRunning else Aggregate(s), outputs := Reported(task.outputs, n, reports))
  }

  lemma NothingPending(children: Children, submission: Submission, runs: map<string, Run>)
    requires AllEnded(children, runs)
    ensures Refuses(children, submission, runs)
  {
  }

  lemma RefusedBy(children: Children, n: string, submission: Submission, runs: map<string, Run>)
    requires n in children && children[n] in runs && !Terminal(runs[children[n]].status) && Chosen(runs[children[n]], submission).None?
    ensures Refuses(children, submission, runs)
  {
  }

  lemma LiveSays(v: View, n: string, s: RunStatus)
    requires n in v.recorded && v.recorded[n] == s && !Terminal(s)
    ensures Live(v, n)
  {
  }

  predicate AllEnded(children: Children, runs: map<string, Run>)
  {
    forall n :: n in children && children[n] in runs ==> Terminal(runs[children[n]].status)
  }

  /** The runtime has answered a call on the live child of this node. */
  ghost predicate CalledOn(definitions: map<(string, string), Definition>, point: nat, children: Children, n: string, op: Op,
                           runs: map<string, Run>, leases: Entries, runs': map<string, Run>, leases': Entries)
  {
    && n in children && children[n] in runs && !Terminal(runs[children[n]].status) && children[n] in runs'
    && Answered(definitions, runs, leases, point, children[n], op, Some(runs'[children[n]]), runs', leases')
  }

  /** A call is passed on to a live child, if there is one, and nothing else happens to the runs. */
  ghost predicate ActiveCalled(definitions: map<(string, string), Definition>, point: nat, children: Children, op: Op,
                               runs: map<string, Run>, leases: Entries, runs': map<string, Run>, leases': Entries)
  {
    if AllEnded(children, runs) then runs' == runs && leases' == leases
    else exists n :: CalledOn(definitions, point, children, n, op, runs, leases, runs', leases')
  }

  lemma ActiveSpares(definitions: map<(string, string), Definition>, point: nat, children: Children, op: Op, runs: map<string, Run>,
                     leases: Entries, runs': map<string, Run>, leases': Entries, ownerId: string)
    requires ActiveCalled(definitions, point, children, op, runs, leases, runs', leases')
    requires Registered(definitions) && Known(runs, definitions, point) && Leased(runs, leases)
    ensures Spares(children, ownerId, runs, leases, children, runs', leases')
  {
    hide Registered, Known, Leased, Spares, Answered, ChildIds;
    if AllEnded(children, runs) {
      SparesAll(children, ownerId, runs, leases);
    } else {
      var n :| CalledOn(definitions, point, children, n, op, runs, leases, runs', leases');
      RunIsKnown(runs, definitions, point, children[n]);
      ChildAnswered(definitions, runs, leases, point, children[n], op, Some(runs'[children[n]]), runs', leases');
      ChildIdIn(children, n);
      SavedSpares(children, ownerId, runs, leases, runs'[children[n]], runs', leases');
    }
  }

  // ----- A batch under way -----

  /** The branches of a batch: the children so far, and for each member what was prepared, where its loops are, whether
      its condition skipped it. */
  datatype Branches = Branches(
    children: Children, preps: map<string, Preparation>, positions: map<string, Position>, skipped: set<string>)

  type Endings = map<string, seq<RunStatus>>

  predicate BranchDone(id: string, b: Branches)
  {
    id in b.skipped || (id in b.positions && !b.positions[id].At?)
  }

  ghost predicate BranchOk(n: WorkflowNode, b: Branches, endings: Endings, world: World)
  {
    && n.id in endings && Proper(n, endings[n.id])
    && (n.id in b.skipped ==> n.conditional && endings[n.id] == [])
    && (n.id in b.preps <==> n.id in b.positions)
    && (n.id in b.preps ==> InCatalog(world, b.preps[n.id].def))
    && (if n.id in b.positions then b.positions[n.id] == PositionAfter(n, endings[n.id]) else endings[n.id] == [])
    && (n.id in b.positions && b.positions[n.id].At? && endings[n.id] != [] ==> Terminal(endings[n.id][|endings[n.id]| - 1]))
  }

  ghost predicate BranchesOk(u: Unit, b: Branches, endings: Endings, world: World)
  {
    endings.Keys == IdSet(u) && forall n :: n in u ==> BranchOk(n, b, endings, world)
  }

  ghost predicate FitsAt(statuses: map<string, RunStatus>, id: string, endings: seq<RunStatus>)
  {
    if endings == [] then id !in statuses else id in statuses && statuses[id] == endings[|endings| - 1]
  }

  ghost predicate SameStatus(before: map<string, RunStatus>, after: map<string, RunStatus>, id: string)
  {
    (id in before <==> id in after) && (id in before ==> before[id] == after[id])
  }

  /** The members are recorded with their last endings, all others as before. */
  ghost predicate StatusesFit(u: Unit, before: map<string, RunStatus>, after: map<string, RunStatus>, endings: Endings)
  {
    && (forall x :: x !in IdSet(u) ==> SameStatus(before, after, x))
    && (forall id :: id in endings ==> FitsAt(after, id, endings[id]))
  }

  ghost predicate SameOutside(u: Unit, base: Children, children: Children)
  {
    forall x :: x !in IdSet(u) ==> (x in base <==> x in children) && (x in base ==> base[x] == children[x])
  }

  /** What a batch under way has done to the children. */
  ghost predicate BatchOk(u: Unit, base: Children, runs0: map<string, Run>, leases0: Entries, ownerId: string,
                          children: Children, runs: map<string, Run>, leases: Entries, endings: Endings)
  {
    && Family(children, runs) && runs0.Keys <= runs.Keys
    && StrayIn(children, leases, ownerId) == StrayIn(base, leases0, ownerId)
    && Spares(base, ownerId, runs0, leases0, children, runs, leases)
    && endings.Keys == IdSet(u) && SameOutside(u, base, children)
    && StatusesFit(u, StatusesOf(base, runs0), StatusesOf(children, runs), endings)
  }

  function NoneEnded(u: Unit): Endings
  {
    map id | id in IdSet(u) :: []
  }

  lemma BatchStarts(u: Unit, base: Children, runs: map<string, Run>, leases: Entries, ownerId: string, world: World)
    requires Family(base, runs) && Intact(u, base.Keys) && Leased(runs, leases)
    ensures BatchOk(u, base, runs, leases, ownerId, base, runs, leases, NoneEnded(u))
    ensures BranchesOk(u, Branches(base, map[], map[], {}), NoneEnded(u), world)
  {
    forall n | n in u ensures n.id in IdSet(u) && Proper(n, []) {
      MemberId(u, n);
      NoEndings(n);
    }
    SparesAll(base, ownerId, runs, leases);
    hide Proper, Spares, Leased;
    forall id | id in NoneEnded(u) ensures id !in StatusesOf(base, runs) {
      var i :| 0 <= i < |u| && u[i].id == id;
      assert u[i] in u;
    }
  }

  lemma BatchGrows(u: Unit, base: Children, runs0: map<string, Run>, leases0: Entries, ownerId: string, n: WorkflowNode,
                   children: Children, runs: map<string, Run>, leases: Entries, endings: Endings, ending: RunStatus,
                   children': Children, runs': map<string, Run>, leases': Entries)
    requires BatchOk(u, base, runs0, leases0, ownerId, children, runs, leases, endings) && Leased(runs, leases) && n in u
    requires Grown(children, runs, leases, n.id, ownerId, ending, children', runs', leases')
    requires n.id in endings && (endings[n.id] != [] ==> Terminal(endings[n.id][|endings[n.id]| - 1]))
    ensures BatchOk(u, base, runs0, leases0, ownerId, children', runs', leases', endings[n.id := endings[n.id] + [ending]])
  {
    hide StrayIn, Grown, Leased, StatusesOf, Family, IdSet, Spares;
    GrownSpares(children, runs, leases, n.id, ownerId, ending, children', runs', leases');
    SparesTwice(base, ownerId, runs0, leases0, children, runs, leases, children', runs', leases');
    MemberId(u, n);
    if n.id in children {
      RecordedAt(children, runs, n.id);
      assert FitsAt(StatusesOf(children, runs), n.id, endings[n.id]);
    }
    GrownStatuses(children, runs, leases, n.id, ownerId, ending, children', runs', leases');
    GrownStray(children, runs, leases, n.id, ownerId, ending, children', runs', leases');
    RanKeys(children, runs, leases, n.id, ownerId, ending, children', runs', leases');
    GrownOutside(children, runs, leases, n.id, ownerId, ending, children', runs', leases');
    FitLonger(u, StatusesOf(base, runs0), StatusesOf(children, runs), endings, n.id, ending);
  }

  lemma GrownOutside(children: Children, runs: map<string, Run>, leases: Entries, nodeId: string, ownerId: string,
                     ending: RunStatus, children': Children, runs': map<string, Run>, leases': Entries)
    requires Grown(children, runs, leases, nodeId, ownerId, ending, children', runs', leases')
    ensures forall x :: x != nodeId ==> (x in children <==> x in children') && (x in children ==> children[x] == children'[x])
  {
  }

  lemma FitLonger(u: Unit, before: map<string, RunStatus>, after: map<string, RunStatus>, endings: Endings, id: string, ending: RunStatus)
    requires StatusesFit(u, before, after, endings) && id in endings && id in IdSet(u)
    ensures StatusesFit(u, before, after[id := ending], endings[id := endings[id] + [ending]])
  {
    hide IdSet;
    forall x | x !in IdSet(u) ensures SameStatus(before, after[id := ending], x) {
      assert SameStatus(before, after, x);
    }
    var longer := endings[id := endings[id] + [ending]];
    forall x | x in longer ensures FitsAt(after[id := ending], x, longer[x]) {
      assert x != id ==> FitsAt(after, x, endings[x]);
    }
  }

  // ----- How much of a batch is left to do -----

  ghost function BranchLeft(id: string, b: Branches, endings: Endings): nat
  {
    (if id in b.positions || id in b.skipped then 0 else 1)
      + if id in endings && |endings[id]| < 100 then 100 - |endings[id]| else 0
  }

  ghost function Left(u: Unit, b: Branches, endings: Endings): nat
  {
    if u == [] then 0 else BranchLeft(u[0].id, b, endings) + Left(u[1..], b, endings)
  }

  lemma {:induction false} LeftShrinks(u: Unit, b: Branches, endings: Endings, b': Branches, endings': Endings, n: WorkflowNode)
    requires forall m :: m in u ==> BranchLeft(m.id, b', endings') <= BranchLeft(m.id, b, endings)
    ensures Left(u, b', endings') <= Left(u, b, endings)
    ensures n in u && BranchLeft(n.id, b', endings') < BranchLeft(n.id, b, endings) ==> Left(u, b', endings') < Left(u, b, endings)
  {
    hide BranchLeft;
    if u != [] {
      LeftShrinks(u[1..], b, endings, b', endings', n);
    }
  }

  /** Executing a plan without parallel groups is a step in the history of the task. */
  lemma ExecutionIsStep(nodes: seq<WorkflowNode>, order: seq<WorkflowNode>, v: View, w: View)
    requires IsDepthOrder(nodes, order) && Closed(DependencyGraph(nodes)) && Acyclic(DependencyGraph(nodes))
    requires forall n :: n in order ==> n.parallelGroup == ""
    requires BatchesFrom(order, {}).Some? && NonEmpty(BatchesFrom(order, {}).value)
    requires Executed(order, HeadMap(BatchesFrom(order, {}).value), InputsUpstream(nodes), v, w)
    ensures TaskStep(None, nodes, order, v, w)
  {
    hide *;
    UngroupedHasNoHeads(nodes, order);
    ExecutedAnyhow(order, InputsUpstream(nodes), v, w);
    ExecutedIsStep(None, nodes, order, v, w);
  }

  lemma ExecutedAnyhow(order: seq<WorkflowNode>, upstream: bool, v: View, w: View)
    requires Executed(order, map[], upstream, v, w)
    ensures ExecutedBy(None, order, upstream, v, w)
  {
    if upstream {
      var states :| IsPass(order, map[], v, states) && w == Outcome(states);
      assert Follows(None, order, states);
    }
  }

  /** Executing keeps the record of continued nodes right, and succeeds only if every node ends well. */
  lemma ExecutionIsSound(order: seq<WorkflowNode>, heads: map<string, Unit>, upstream: bool, v: View, w: View)
    requires HeadsFit(order, heads) && Executed(order, heads, upstream, v, w) && ContinuedMarked(order, v.continued)
    ensures ContinuedMarked(order, w.continued)
    ensures w.status == TaskSucceeded ==> forall n :: n in order ==> EndsWell(n, w.recorded, n.conditional)
  {
    hide HeadsFit, EndsWell, ContinuedMarked;
    if upstream {
      var states :| IsPass(order, heads, v, states) && w == Outcome(states);
      PassIsSound(order, heads, v, states);
    }
  }

  lemma OrderIds(nodes: seq<WorkflowNode>, order: seq<WorkflowNode>)
    requires IsDepthOrder(nodes, order)
    ensures IdSet(order) == IdSet(nodes)
  {
    OrderHoldsNodes(nodes, order);
  }

  lemma DownstreamIs(nodes: seq<WorkflowNode>, step: string, downstream: set<string>)
    requires step in IdSet(nodes) && forall a :: a in downstream <==> Reaches(EdgeGraph(nodes), a, step)
    ensures downstream == Downstream(nodes, step)
  {
    forall a | a in downstream ensures a in IdSet(nodes) {
      if a != step {
        var p :| IsChain(EdgeGraph(nodes), p) && p[0] == a && p[|p| - 1] == step;
        assert Link(EdgeGraph(nodes), p, 0);
      }
    }
  }

  /** A task that is to start again without these nodes. */
  function Restarted(task: TaskRun, dropped: set<string>): TaskRun
  {
    task.(status := TaskRunning, outputs := task.outputs - dropped,
          nodeRuns := map n | n in task.nodeRuns && n !in dropped :: task.nodeRuns[n])
  }

  lemma KeptChildren(task: TaskRun, dropped: set<string>)
    ensures ChildIds(Restarted(task, dropped).nodeRuns) <= ChildIds(task.nodeRuns)
  {
  }

  /** Forgetting nodes, seen from the plan. */
  lemma KeptView(task: TaskRun, runs: map<string, Run>, leases: Entries, dropped: set<string>, after: TaskRun)
    requires Family(task.nodeRuns, runs) && Leased(runs, leases)
    requires after == task.(status := TaskRunning, outputs := task.outputs - dropped,
                            nodeRuns := map n | n in task.nodeRuns && n !in dropped :: task.nodeRuns[n])
    ensures Family(after.nodeRuns, runs)
    ensures var v, w := ViewOf(task, runs, leases), ViewOf(after, runs, leases);
      && w == v.(recorded := v.recorded - dropped, outputs := v.outputs - dropped, status := TaskRunning, stray := w.stray)
      && (v.stray ==> w.stray) && (w.stray ==> v.stray || SomeDroppedLive(v.recorded, dropped))
  {
    var v, w := ViewOf(task, runs, leases), ViewOf(after, runs, leases);
    assert StatusesOf(after.nodeRuns, runs) == StatusesOf(task.nodeRuns, runs) - dropped;
    if w.stray && !v.stray {
      var id :| id in leases && leases[id].ownerId == task.ownerId && !IsChild(after.nodeRuns, id);
      assert IsChild(task.nodeRuns, id);
      var n :| n in task.nodeRuns && task.nodeRuns[n] == id;
      assert n in after.nodeRuns ==> IsChild(after.nodeRuns, id);
      assert n in dropped;
      RecordedAt(task.nodeRuns, runs, n);
    }
    if v.stray {
      var id :| id in leases && leases[id].ownerId == task.ownerId && !IsChild(task.nodeRuns, id);
      assert !IsChild(after.nodeRuns, id);
    }
  }

  lemma RestartSays(nodes: seq<WorkflowNode>, step: string, v: View, w: View, restarted: View)
    requires step in IdSet(nodes) && w == v.(recorded := w.recorded) && ActiveBecomes(v, Cancelled, w.recorded)
    requires var dropped := Downstream(nodes, step);
      && restarted == w.(recorded := w.recorded - dropped, outputs := w.outputs - dropped, status := TaskRunning, stray := restarted.stray)
      && (w.stray ==> restarted.stray) && (restarted.stray ==> w.stray || SomeDroppedLive(w.recorded, dropped))
    ensures RestartedFrom(nodes, step, v, restarted)
  {
    assert RestartedWith(v, Downstream(nodes, step), w.recorded, restarted);
  }

  lemma LiveAt(task: TaskRun, runs: map<string, Run>, leases: Entries, n: string)
    requires Family(task.nodeRuns, runs) && n in task.nodeRuns
    ensures n in ViewOf(task, runs, leases).recorded && ViewOf(task, runs, leases).recorded[n] == runs[task.nodeRuns[n]].status
  {
  }

  lemma ResumeSays(v: View, n: string, before: RunStatus, s: RunStatus, w: View)
    requires Live(v, n) && v.recorded[n] == before && w == v.(recorded := v.recorded[n := s])
    requires s == before || s == Running || s == Recovering
    ensures ResumedTask(v, w.(status := TaskRunning))
  {
    if s == before {
      assert w.recorded == v.recorded;
    } else {
      BecomesAt(v, n, s, w.recorded);
    }
  }

  lemma DecisionSays(v: View, n: string, s: RunStatus, reports: bool, w: View)
    requires Live(v, n)
    requires w == v.(recorded := v.recorded[n := s], outputs := Reported(v.outputs, n, reports),
                     status := if s == Running || s == Succeeded then TaskRunning else Aggregate(s))
    ensures DecidedTask(v, w)
  {
  }

  /** A refused decision changes nothing. */
  lemma RefusalKeeps(definitions: map<(string, string), Definition>, runs: map<string, Run>, leases: Entries, point: nat, child: string,
                     submission: Submission, r: Option<Run>, runs': map<string, Run>, leases': Entries)
    requires Answered(definitions, runs, leases, point, child, DoDecide(submission), r, runs', leases') && child in runs
    requires runs[child].id == child && !Terminal(runs[child].status) && Chosen(runs[child], submission).None?
    ensures runs' == runs && leases' == leases
  {
  }

  /** A call on a recorded child, seen from the runs. */
  lemma ChildAnswered(definitions: map<(string, string), Definition>, runs: map<string, Run>, leases: Entries, point: nat,
                      child: string, op: Op, r: Option<Run>, runs': map<string, Run>, leases': Entries)
    requires Answered(definitions, runs, leases, point, child, op, r, runs', leases') && child in runs && runs[child].id == child
    ensures r.Some? && r.value.id == child && Saved(runs, leases, r.value, runs', leases') && runs.Keys <= runs'.Keys
    ensures op == DoPause && !Terminal(runs[child].status) ==> r.value.status == Workflows.Paused
    ensures op == DoCancel && !Terminal(runs[child].status) ==> r.value.status == Cancelled
    ensures op == DoResume ==> r.value.status == runs[child].status || r.value.status == Running || r.value.status == Recovering
  {
    var def := definitions[runs[child].definition];
    StepIdentity(def, Machine(runs[child], point), op);
    assert Saved(runs, leases, Step(def, Machine(runs[child], point), op).run, runs', leases');
    assert r.value == Step(def, Machine(runs[child], point), op).run;
  }

  /** A call on a recorded child, seen from the plan. */
  lemma ChildView(task: TaskRun, runs: map<string, Run>, leases: Entries, n: string, run: Run, runs': map<string, Run>, leases': Entries)
    requires Family(task.nodeRuns, runs) && n in task.nodeRuns && run.id == task.nodeRuns[n] && Saved(runs, leases, run, runs', leases')
    ensures Family(task.nodeRuns, runs')
    ensures var v := ViewOf(task, runs, leases);
      ViewOf(task, runs', leases') == v.(recorded := v.recorded[n := run.status])
  {
    hide Family, StrayIn, StatusesOf, Saved;
    DrivenRecorded(task.nodeRuns, runs, leases, n, run, runs', leases', task.ownerId);
  }

  lemma BecomesAt(v: View, n: string, s: RunStatus, recorded: map<string, RunStatus>)
    requires Live(v, n) && recorded == v.recorded[n := s]
    ensures ActiveBecomes(v, s, recorded)
  {
  }

  lemma NobodyActive(v: View, s: RunStatus)
    requires NoneLive(v)
    ensures ActiveBecomes(v, s, v.recorded)
  {
  }

  lemma PauseSays(v: View, n: string, w: View)
    requires Live(v, n) && w.recorded == v.recorded[n := Workflows.Paused]
    ensures ActiveBecomes(v, Workflows.Paused, w.recorded)
  {
  }

  lemma PlanIsOrderable(plan: TaskPlan)
    requires ValidPlan(plan)
    ensures UniqueIds(plan.nodes) && KnownDependencies(plan.nodes)
    ensures Closed(DependencyGraph(plan.nodes)) && Acyclic(DependencyGraph(plan.nodes))
  {
    KnownIsClosed(plan.nodes);
  }

  lemma TaskIsKnown(tasks: map<string, TaskRun>, runs: map<string, Run>, id: string)
    requires TasksKnown(tasks, runs) && id in tasks
    ensures TaskKnown(tasks[id], id, runs)
  {
  }

  lemma OverHoldsNothing(tasks: map<string, TaskRun>, leases: Entries, id: string)
    requires TaskLeases(tasks, leases) && (id in tasks ==> Over(tasks[id].status))
    ensures id !in leases
  {
  }

  lemma HeldNeedsOwner(claims: Claims, taskId: string, deviceId: string, ownerId: string, now: int)
    ensures Grants(claims, DeviceRequest(deviceId, ownerId), now) ==> ownerId != "" && deviceId != ""
  {
  }

  lemma NoChildren(runs: map<string, Run>, leases: Entries, ownerId: string)
    ensures Family(map[], runs) && StatusesOf(map[], runs) == map[]
    ensures OwnsNothing(leases, ownerId) ==> !StrayIn(map[], leases, ownerId)
  {
  }

  lemma RefusedIsExecuted(order: seq<WorkflowNode>, heads: map<string, Unit>, v: View, task: TaskRun, runs: map<string, Run>, leases: Entries)
    requires LooksLike(task, runs, leases, Raised(v)) && task.status == TaskFailed
    ensures Executed(order, heads, false, v, ViewOf(task, runs, leases))
  {
  }

  lemma PassedIsExecuted(order: seq<WorkflowNode>, heads: map<string, Unit>, v: View, states: seq<PassState>)
    requires states != [] && IsPass(order, heads, v, states)
    ensures Executed(order, heads, true, v, Outcome(states))
  {
  }

  lemma OnlyAt(id: string, fate: Fate)
    ensures Only(id, fate)(id) == fate
  {
  }

  lemma NodeLikely(order: seq<WorkflowNode>, heads: map<string, Unit>, node: WorkflowNode, fate: Fate)
    requires HeadsFit(order, heads) && node in order && Likely(node, fate)
    ensures AllLikely(order, Only(node.id, fate))
  {
    OnlyIsLikely(order, node, fate);
  }

  lemma SkipMoves(order: seq<WorkflowNode>, heads: map<string, Unit>, s: PassState, node: WorkflowNode)
    requires s.running && node.id in s.skip
    ensures Moves(order, heads, s, node, s)
  {
    var fates: Fates := id => IDLE;
    forall n | n in order ensures Likely(n, fates(n.id)) {
      NoEndings(n);
    }
    assert AllLikely(order, fates) && s == VisitAt(s, node, heads, fates);
  }

  lemma HeadFits(order: seq<WorkflowNode>, heads: map<string, Unit>, h: string)
    requires HeadsFit(order, heads) && h in heads
    ensures UniqueIds(order) && UniqueIds(heads[h]) && forall n :: n in heads[h] ==> n in order
  {
  }

  /** The status of the task plays no part in a visit, except that a visit that stops the pass sets it. */
  ghost predicate SameMove(m: Move, n: Move, s: TaskStatus)
  {
    m.goes == n.goes && if m.goes then n.view == m.view.(status := s) else n.view == m.view
  }

  lemma NewIgnoresStatus(v: View, node: WorkflowNode, fate: Fate, s: TaskStatus)
    ensures SameMove(VisitNew(v, node, fate), VisitNew(v.(status := s), node, fate), s)
  {
    hide PositionAfter;
  }

  lemma RecordedIgnoresStatus(v: View, node: WorkflowNode, fate: Fate, s: TaskStatus)
    requires node.id in v.recorded
    ensures SameMove(VisitRecorded(v, node, fate), VisitRecorded(v.(status := s), node, fate), s)
  {
  }

  lemma BatchIgnoresStatus(v: View, u: Unit, fates: Fates, s: TaskStatus)
    ensures SameMove(VisitBatch(v, u, fates), VisitBatch(v.(status := s), u, fates), s)
  {
    hide SomeRaises, FirstFailure, RecordAll, ContinuedIn, ReportedIn, IdSet;
  }

  /** A pass under way. */
  ghost predicate PassGoes(order: seq<WorkflowNode>, heads: map<string, Unit>, v: View, states: seq<PassState>)
  {
    && 1 <= |states| <= |order| + 1 && states[0] == PassState(v, {}, [], true)
    && forall k {:trigger MovesAt(order, heads, states, k)} :: 0 <= k < |states| - 1 ==> MovesAt(order, heads, states, k)
  }

  lemma PassBegins(order: seq<WorkflowNode>, heads: map<string, Unit>, v: View)
    ensures PassGoes(order, heads, v, [PassState(v, {}, [], true)])
  {
  }

  lemma PassAdvances(order: seq<WorkflowNode>, heads: map<string, Unit>, v: View, states: seq<PassState>, t: PassState)
    requires PassGoes(order, heads, v, states) && |states| <= |order| && Moves(order, heads, states[|states| - 1], order[|states| - 1], t)
    ensures PassGoes(order, heads, v, states + [t]) && (!t.running ==> IsPass(order, heads, v, states + [t]))
  {
    hide Moves;
    var longer := states + [t];
    forall k {:trigger MovesAt(order, heads, longer, k)} | 0 <= k < |longer| - 1 ensures MovesAt(order, heads, longer, k) {
      if k < |states| - 1 {
        assert MovesAt(order, heads, states, k);
      }
    }
  }

  lemma PassEnds(order: seq<WorkflowNode>, heads: map<string, Unit>, v: View, states: seq<PassState>)
    requires PassGoes(order, heads, v, states) && |states| == |order| + 1
    ensures IsPass(order, heads, v, states)
  {
  }

  lemma StatusKeys(children: Children, runs: map<string, Run>)
    requires Family(children, runs)
    ensures StatusesOf(children, runs).Keys == children.Keys
  {
  }

  lemma BatchRaises(u: Unit, b: Branches, endings: Endings, reported: set<string>, world: World)
    requires BranchesOk(u, b, endings, world)
    ensures SomeRaises(u, FatesOf(b, endings, reported)) <==> exists n :: n in u && !BranchDone(n.id, b)
  {
    hide FatesOf, BranchesOk, BranchDone, Raises;
    forall n | n in u ensures Raises(n, FatesOf(b, endings, reported)(n.id)) <==> !BranchDone(n.id, b) {
      BranchFate(u, b, endings, reported, world, n);
    }
  }

  /** The members that leave a key in the outputs when the batch is stopped. */
  function ReportedNow(u: Unit, b: Branches, reported: set<string>): set<string>
  {
    set n | n in u && (n.id in b.skipped || n.id in reported || n.id in ContinuedNow(u, b)) :: n.id
  }

  lemma ReportedNowIs(u: Unit, b: Branches, endings: Endings, reported: set<string>, world: World)
    requires BranchesOk(u, b, endings, world)
    ensures ReportedIn(u, FatesOf(b, endings, reported)) == ReportedNow(u, b, reported)
  {
    ContinuedNowIs(u, b, endings, reported, world);
    hide ContinuedIn, ContinuedNow, BranchesOk, PositionAfter;
    forall n | n in u ensures Skipped(n, FatesOf(b, endings, reported)(n.id)) <==> n.id in b.skipped {
      BranchFate(u, b, endings, reported, world, n);
    }
  }

  /** The children that this visit of the batch has started last. */
  function BatchChildIds(u: Unit, children: Children): set<string>
  {
    set n | n in u && n.id in children :: children[n.id]
  }

  lemma BatchChildrenAre(u: Unit, base: Children, runs0: map<string, Run>, leases0: Entries, ownerId: string,
                         children: Children, runs: map<string, Run>, leases: Entries, endings: Endings)
    requires BatchOk(u, base, runs0, leases0, ownerId, children, runs, leases, endings) && Intact(u, base.Keys)
    ensures BatchChildIds(u, children) <= ChildIds(children)
    ensures forall n :: n in children && n in IdSet(u) ==> children[n] in BatchChildIds(u, children)
    ensures forall n :: n in base ==> base[n] !in BatchChildIds(u, children)
  {
    hide StatusesFit, StrayIn, Spares;
    forall n | n in children && n in IdSet(u) ensures children[n] in BatchChildIds(u, children) {
      var i :| 0 <= i < |u| && u[i].id == n;
      assert u[i] in u;
    }
    forall n | n in base ensures base[n] !in BatchChildIds(u, children) {
      NotInUnit(u, base, n);
      forall m | m in u && m.id in children ensures children[m.id] != base[n] {
        MemberId(u, m);
      }
    }
  }

  lemma NotInUnit(u: Unit, base: Children, n: string)
    requires Intact(u, base.Keys) && n in base
    ensures n !in IdSet(u)
  {
    forall i | 0 <= i < |u| ensures u[i].id != n {
      assert u[i] in u;
    }
  }

  lemma AllOrNone(u: Unit, base: Children, runs0: map<string, Run>, leases0: Entries, ownerId: string,
                  children: Children, runs: map<string, Run>, leases: Entries, endings: Endings)
    requires BatchOk(u, base, runs0, leases0, ownerId, children, runs, leases, endings) && Intact(u, base.Keys)
    ensures forall n :: n in base ==> base[n] in ChildIds(children)
    ensures forall n :: n in children ==> children[n] in ChildIds(children)
  {
    hide StatusesFit, StrayIn, Family, Spares;
    forall n | n in base ensures base[n] in ChildIds(children) {
      NotInUnit(u, base, n);
    }
  }

  lemma BatchStray(u: Unit, base: Children, runs0: map<string, Run>, leases0: Entries, ownerId: string,
                   children: Children, runs: map<string, Run>, leases: Entries, endings: Endings)
    requires BatchOk(u, base, runs0, leases0, ownerId, children, runs, leases, endings)
    ensures StrayIn(children, leases, ownerId) == StrayIn(base, leases0, ownerId) && runs0.Keys <= runs.Keys
    ensures Spares(base, ownerId, runs0, leases0, children, runs, leases)
  {
  }

  /** A batch whose children are cancelled and forgotten leaves no trace but the cancellations. */
  lemma BatchDropped(u: Unit, base: Children, runs0: map<string, Run>, leases0: Entries, ownerId: string,
                     children: Children, runs: map<string, Run>, leases: Entries, endings: Endings, ids: set<string>,
                     runs': map<string, Run>, leases': Entries)
    requires BatchOk(u, base, runs0, leases0, ownerId, children, runs, leases, endings) && Family(base, runs0)
    requires Intact(u, base.Keys) && AllStopped(ids, runs, leases, runs', leases') && ids <= ChildIds(children)
    requires forall n :: n in children && n in IdSet(u) ==> children[n] in ids
    requires Leased(runs, leases)
    ensures Family(base, runs') && StrayIn(base, leases', ownerId) == StrayIn(base, leases0, ownerId)
    ensures Spares(base, ownerId, runs0, leases0, base, runs', leases')
    ensures (forall n :: n in base ==> base[n] in ids) ==> StatusesOf(base, runs') == AllCancelled(StatusesOf(base, runs0))
    ensures (forall n :: n in base ==> base[n] !in ids) ==> StatusesOf(base, runs') == StatusesOf(base, runs0)
  {
    hide Spares, Leased;
    DroppedSpares(u, base, runs0, leases0, ownerId, children, runs, leases, endings, ids, runs', leases');
    forall n | n in base ensures n in children && children[n] == base[n] && base[n] in runs && runs[base[n]].status == runs0[base[n]].status {
      KeptAt(u, base, runs0, leases0, ownerId, children, runs, leases, endings, n);
    }
    StoppedKeys(ids, runs, leases, runs', leases');
    DroppedStray(u, base, runs0, leases0, ownerId, children, runs, leases, endings, ids, runs', leases');
    hide BatchOk, StrayIn, Intact, IdSet;
    FamilyStays(base, runs0, runs');
    DroppedStatuses(base, runs0, runs, leases, ids, runs', leases');
  }

  lemma DroppedSpares(u: Unit, base: Children, runs0: map<string, Run>, leases0: Entries, ownerId: string,
                      children: Children, runs: map<string, Run>, leases: Entries, endings: Endings, ids: set<string>,
                      runs': map<string, Run>, leases': Entries)
    requires BatchOk(u, base, runs0, leases0, ownerId, children, runs, leases, endings) && Leased(runs, leases)
    requires AllStopped(ids, runs, leases, runs', leases') && ids <= ChildIds(children)
    ensures Spares(base, ownerId, runs0, leases0, base, runs', leases')
  {
    hide AllStopped, ChildIds, Spares, Leased, Family, StatusesFit, StrayIn;
    StoppedSpares(children, ids, runs, leases, runs', leases', ownerId);
    SparesTwice(base, ownerId, runs0, leases0, children, runs, leases, children, runs', leases');
    SparesFewer(base, ownerId, runs0, leases0, children, runs', leases', base);
  }

  lemma KeptAt(u: Unit, base: Children, runs0: map<string, Run>, leases0: Entries, ownerId: string,
               children: Children, runs: map<string, Run>, leases: Entries, endings: Endings, n: string)
    requires BatchOk(u, base, runs0, leases0, ownerId, children, runs, leases, endings) && Family(base, runs0)
    requires Intact(u, base.Keys) && n in base
    ensures n in children && children[n] == base[n] && base[n] in runs && runs[base[n]].status == runs0[base[n]].status
    ensures runs0.Keys <= runs.Keys
  {
    hide StrayIn, Spares;
    NotInUnit(u, base, n);
    assert SameStatus(StatusesOf(base, runs0), StatusesOf(children, runs), n);
    RecordedAt(base, runs0, n);
    RecordedAt(children, runs, n);
  }

  lemma DroppedStray(u: Unit, base: Children, runs0: map<string, Run>, leases0: Entries, ownerId: string,
                     children: Children, runs: map<string, Run>, leases: Entries, endings: Endings, ids: set<string>,
                     runs': map<string, Run>, leases': Entries)
    requires BatchOk(u, base, runs0, leases0, ownerId, children, runs, leases, endings)
    requires Intact(u, base.Keys) && AllStopped(ids, runs, leases, runs', leases') && ids <= ChildIds(children)
    requires forall n :: n in children && n in IdSet(u) ==> children[n] in ids
    ensures StrayIn(base, leases', ownerId) == StrayIn(base, leases0, ownerId)
  {
    hide StrayIn, StatusesFit, Family, ChildIds, Spares;
    StoppedStray(children, ids, runs, leases, runs', leases', ownerId);
    forall n | n in base ensures n in children && children[n] == base[n] {
      NotInUnit(u, base, n);
    }
    ForgetEnded(children, base, leases', ownerId);
  }

  lemma DroppedStatuses(base: Children, runs0: map<string, Run>, runs: map<string, Run>, leases: Entries, ids: set<string>,
                        runs': map<string, Run>, leases': Entries)
    requires Family(base, runs0) && Family(base, runs') && AllStopped(ids, runs, leases, runs', leases')
    requires forall n :: n in base ==> base[n] in runs && runs[base[n]].status == runs0[base[n]].status
    ensures (forall n :: n in base ==> base[n] in ids) ==> StatusesOf(base, runs') == AllCancelled(StatusesOf(base, runs0))
    ensures (forall n :: n in base ==> base[n] !in ids) ==> StatusesOf(base, runs') == StatusesOf(base, runs0)
  {
    hide AllStopped, StatusesOf, Family;
    StoppedStatus(ids, runs, leases, runs', leases');
    StatusKeys(base, runs0);
    StatusKeys(base, runs');
    forall n | n in base ensures StatusesOf(base, runs')[n] ==
      if base[n] in ids && !Terminal(StatusesOf(base, runs0)[n]) then Cancelled else StatusesOf(base, runs0)[n]
    {
      RecordedAt(base, runs0, n);
      RecordedAt(base, runs', n);
    }
    assert AllCancelled(StatusesOf(base, runs0)).Keys == base.Keys;
  }

  lemma OnlyTaskTwice(a: map<string, TaskRun>, b: map<string, TaskRun>, c: map<string, TaskRun>, id: string)
    requires OnlyTask(a, b, id) && OnlyTask(b, c, id)
    ensures OnlyTask(a, c, id)
  {
  }

  // ----- What a batch comes to -----

  /** The fates of the members, read off the branches. */
  ghost function FatesOf(b: Branches, endings: Endings, reported: set<string>): Fates
  {
    id => Fate(id in b.skipped, Succeeded, if id in endings then endings[id] else [], id in reported)
  }

  lemma BatchLikely(order: seq<WorkflowNode>, u: Unit, b: Branches, endings: Endings, reported: set<string>, world: World)
    requires UniqueIds(order) && (forall n :: n in u ==> n in order) && BranchesOk(u, b, endings, world)
    ensures AllLikely(order, FatesOf(b, endings, reported))
  {
    hide Proper;
    forall n | n in order ensures Likely(n, FatesOf(b, endings, reported)(n.id)) {
      if n.id in endings {
        var i :| 0 <= i < |u| && u[i].id == n.id;
        SameId(order, n, u[i]);
        assert BranchOk(n, b, endings, world);
      } else {
        NoEndings(n);
      }
    }
  }

  /** A branch that is not done raises; one that is done was skipped or is out of its loops. */
  lemma BranchFate(u: Unit, b: Branches, endings: Endings, reported: set<string>, world: World, n: WorkflowNode)
    requires BranchesOk(u, b, endings, world) && n in u
    ensures var fate := FatesOf(b, endings, reported)(n.id);
      && (Skipped(n, fate) <==> n.id in b.skipped)
      && (Raises(n, fate) <==> !BranchDone(n.id, b))
      && (n.id in b.positions ==> b.positions[n.id] == PositionAfter(n, fate.endings))
      && (n.id in b.positions || fate.endings == [])
  {
    assert BranchOk(n, b, endings, world);
    NoEndings(n);
    hide Proper;
  }

  /** How the first member that stops the batch ended, read off the branches. */
  function FirstStop(u: Unit, b: Branches): Option<RunStatus>
  {
    if u == [] then None
    else if u[0].id !in b.skipped && u[0].id in b.positions && b.positions[u[0].id].Stopped? && !u[0].continueOnFailure then
      Some(b.positions[u[0].id].status)
    else FirstStop(u[1..], b)
  }

  lemma {:induction false} FirstStopIsFailure(u: Unit, tail: Unit, b: Branches, endings: Endings, reported: set<string>, world: World)
    requires BranchesOk(u, b, endings, world) && forall n :: n in tail ==> n in u
    ensures FirstFailure(tail, FatesOf(b, endings, reported)) == FirstStop(tail, b)
    decreases |tail|
  {
    hide FatesOf, BranchesOk, PositionAfter;
    if tail != [] {
      BranchFate(u, b, endings, reported, world, tail[0]);
      NoEndings(tail[0]);
      FirstStopIsFailure(u, tail[1..], b, endings, reported, world);
    }
  }

  /** The members whose failure the batch has continued past. */
  function ContinuedNow(u: Unit, b: Branches): set<string>
  {
    set n | n in u && n.continueOnFailure && n.id !in b.skipped && n.id in b.positions && b.positions[n.id].Stopped? :: n.id
  }

  lemma ContinuedNowIs(u: Unit, b: Branches, endings: Endings, reported: set<string>, world: World)
    requires BranchesOk(u, b, endings, world)
    ensures ContinuedIn(u, FatesOf(b, endings, reported)) == ContinuedNow(u, b)
  {
    forall n | n in u ensures FallsShort(n, FatesOf(b, endings, reported)(n.id)) <==>
      n.id !in b.skipped && n.id in b.positions && b.positions[n.id].Stopped?
    {
      hide FatesOf, BranchesOk, PositionAfter;
      BranchFate(u, b, endings, reported, world, n);
      NoEndings(n);
    }
  }

  /** A completed batch is recorded as the plan's view says. */
  lemma BatchRecorded(u: Unit, base: Children, runs0: map<string, Run>, leases0: Entries, ownerId: string,
                      children: Children, runs: map<string, Run>, leases: Entries, endings: Endings, b: Branches,
                      reported: set<string>, world: World)
    requires UniqueIds(u) && BatchOk(u, base, runs0, leases0, ownerId, children, runs, leases, endings)
    requires BranchesOk(u, b, endings, world) && Intact(u, StatusesOf(base, runs0).Keys)
    ensures StatusesOf(children, runs) == RecordAll(StatusesOf(base, runs0), u, FatesOf(b, endings, reported))
  {
    hide StatusesOf, StrayIn, Family, SameOutside, RecordAll, FatesOf, Intact;
    var before, after, fates := StatusesOf(base, runs0), StatusesOf(children, runs), FatesOf(b, endings, reported);
    forall x ensures SameStatus(after, RecordAll(before, u, fates), x) {
      BatchRecordedAt(u, before, after, endings, b, reported, world, x);
    }
    SameEverywhere(after, RecordAll(before, u, fates));
  }

  lemma SameEverywhere(a: map<string, RunStatus>, b: map<string, RunStatus>)
    requires forall x :: SameStatus(a, b, x)
    ensures a == b
  {
    forall x ensures x in a <==> x in b {
      assert SameStatus(a, b, x);
    }
    forall x | x in a ensures a[x] == b[x] {
      assert SameStatus(a, b, x);
    }
  }

  lemma BatchRecordedAt(u: Unit, before: map<string, RunStatus>, after: map<string, RunStatus>, endings: Endings, b: Branches,
                        reported: set<string>, world: World, x: string)
    requires UniqueIds(u) && endings.Keys == IdSet(u) && StatusesFit(u, before, after, endings) && Intact(u, before.Keys)
    requires BranchesOk(u, b, endings, world)
    ensures SameStatus(after, RecordAll(before, u, FatesOf(b, endings, reported)), x)
  {
    var fates := FatesOf(b, endings, reported);
    RecordAllAt(before, u, fates, x);
    if x in IdSet(u) {
      var i :| 0 <= i < |u| && u[i].id == x;
      assert u[i] in u && FitsAt(after, x, endings[x]) && BranchOk(u[i], b, endings, world);
    } else {
      assert SameStatus(before, after, x);
      forall n | n in u ensures n.id != x {
        MemberId(u, n);
      }
    }
    hide RecordAll, Proper, PositionAfter;
  }

  lemma RecordedAt(children: Children, runs: map<string, Run>, n: string)
    requires Family(children, runs) && n in children
    ensures children[n] in runs && n in StatusesOf(children, runs) && StatusesOf(children, runs)[n] == runs[children[n]].status
  {
  }

  lemma NothingDriven(children: Children, runs: map<string, Run>, n: string)
    requires Family(children, runs) && n in children
    ensures n in StatusesOf(children, runs) && StatusesOf(children, runs) == StatusesOf(children, runs)[n := runs[children[n]].status]
  {
  }

  lemma SavedGrows(runs: map<string, Run>, leases: Entries, run: Run, runs': map<string, Run>, leases': Entries)
    requires Saved(runs, leases, run, runs', leases')
    ensures runs.Keys <= runs'.Keys
  {
  }

  /** Driving a recorded child changes its own status only and leaves nothing stray. */
  lemma DrivenRecorded(children: Children, runs: map<string, Run>, leases: Entries, n: string, run: Run,
                       runs': map<string, Run>, leases': Entries, ownerId: string)
    requires Family(children, runs) && n in children && run.id == children[n] && Saved(runs, leases, run, runs', leases')
    ensures Family(children, runs') && StatusesOf(children, runs') == StatusesOf(children, runs)[n := run.status]
    ensures StrayIn(children, leases', ownerId) == StrayIn(children, leases, ownerId)
  {
    FamilyStays(children, runs, runs');
    DrivenStray(children, leases, n, run, leases', ownerId);
    hide StrayIn;
    var before, after := StatusesOf(children, runs), StatusesOf(children, runs');
    assert before.Keys == children.Keys && after.Keys == children.Keys;
    forall m | m in children && m != n ensures after[m] == before[m] {
      assert children[m] != children[n];
    }
  }

  lemma DrivenStray(children: Children, leases: Entries, n: string, run: Run, leases': Entries, ownerId: string)
    requires n in children && run.id == children[n]
    requires leases' == if Terminal(run.status) then leases - {run.id} else leases
    ensures StrayIn(children, leases', ownerId) == StrayIn(children, leases, ownerId)
  {
    assert IsChild(children, run.id);
    if StrayIn(children, leases, ownerId) {
      var id :| id in leases && leases[id].ownerId == ownerId && !IsChild(children, id);
      assert id in leases';
    }
  }

  lemma BatchFamily(u: Unit, base: Children, runs0: map<string, Run>, leases0: Entries, ownerId: string,
                    children: Children, runs: map<string, Run>, leases: Entries, endings: Endings)
    requires BatchOk(u, base, runs0, leases0, ownerId, children, runs, leases, endings)
    ensures Family(children, runs)
  {
  }

  lemma PrepIsThere(u: Unit, n: WorkflowNode, b: Branches, endings: Endings, world: World)
    requires BranchesOk(u, b, endings, world) && n in u && n.id in b.positions && b.positions[n.id].At?
    ensures n.id in b.preps && InCatalog(world, b.preps[n.id].def) && n.id in endings
    ensures endings[n.id] != [] ==> Terminal(endings[n.id][|endings[n.id]| - 1])
  {
    assert BranchOk(n, b, endings, world);
  }

  lemma OtherId(u: Unit, m: WorkflowNode, n: WorkflowNode)
    requires UniqueIds(u) && m in u && n in u && m != n
    ensures m.id != n.id
  {
    if m.id == n.id {
      SameId(u, m, n);
    }
  }

  lemma BranchBegins(u: Unit, n: WorkflowNode, b: Branches, b': Branches, endings: Endings, world: World)
    requires UniqueIds(u) && n in u && BranchesOk(u, b, endings, world) && n.id !in b.positions && n.id !in b.skipped
    requires (b' == b.(skipped := b.skipped + {n.id}) && n.conditional)
      || exists prep: Preparation :: InCatalog(world, prep.def) && b' == b.(preps := b.preps[n.id := prep], positions := b.positions[n.id := At(0, 0)])
    ensures BranchesOk(u, b', endings, world) && Left(u, b', endings) < Left(u, b, endings)
    ensures forall m :: m in u && m != n ==> BranchDone(m.id, b') == BranchDone(m.id, b)
  {
    hide Left;
    assert BranchOk(n, b, endings, world);
    NoEndings(n);
    hide Proper, PositionAfter;
    forall m | m in u ensures BranchOk(m, b', endings, world) && BranchLeft(m.id, b', endings) <= BranchLeft(m.id, b, endings) {
      assert BranchOk(m, b, endings, world);
      if m != n {
        OtherId(u, m, n);
      }
    }
    forall m | m in u && m != n ensures BranchDone(m.id, b') == BranchDone(m.id, b) {
      OtherId(u, m, n);
    }
    LeftShrinks(u, b, endings, b', endings, n);
  }

  lemma BranchMoves(u: Unit, n: WorkflowNode, b: Branches, b': Branches, endings: Endings, ending: RunStatus, world: World)
    requires UniqueIds(u) && n in u && BranchesOk(u, b, endings, world) && n.id in b.positions && b.positions[n.id].At?
    requires n.id !in b.skipped && n.id in endings && Blocked(ending)
    requires b'.positions == b.positions[n.id := Moved(n, b.positions[n.id], ending)] && b'.preps == b.preps && b'.skipped == b.skipped
    ensures BranchesOk(u, b', endings[n.id := endings[n.id] + [ending]], world)
    ensures Left(u, b', endings[n.id := endings[n.id] + [ending]]) < Left(u, b, endings)
    ensures forall m :: m in u && m != n ==> BranchDone(m.id, b') == BranchDone(m.id, b)
  {
    hide Left;
    assert BranchOk(n, b, endings, world);
    ProperLonger(n, endings[n.id], ending);
    AttemptsBounded(n, endings[n.id]);
    AttemptsBounded(n, endings[n.id] + [ending]);
    hide Proper, PositionAfter, Moved, AttemptLimit, IterationLimit;
    var endings' := endings[n.id := endings[n.id] + [ending]];
    forall m | m in u ensures BranchOk(m, b', endings', world) && BranchLeft(m.id, b', endings') <= BranchLeft(m.id, b, endings) {
      assert BranchOk(m, b, endings, world);
      if m != n {
        OtherId(u, m, n);
      }
    }
    forall m | m in u && m != n ensures BranchDone(m.id, b') == BranchDone(m.id, b) {
      OtherId(u, m, n);
    }
    LeftShrinks(u, b, endings, b', endings', n);
  }

  /** The same task: only its progress may differ. */
  ghost predicate SameTask(task: TaskRun, after: TaskRun)
  {
    after.id == task.id && after.planId == task.planId && after.deviceId == task.deviceId && after.ownerId == task.ownerId
  }

  /** The same task after some progress, which spares all other runs. */
  ghost predicate Progressed(task: TaskRun, runs: map<string, Run>, leases: Entries, after: TaskRun, runs': map<string, Run>, leases': Entries)
  {
    SameTask(task, after) && Spares(task.nodeRuns, task.ownerId, runs, leases, after.nodeRuns, runs', leases')
  }

  lemma ProgressedTwice(a: TaskRun, runs: map<string, Run>, leases: Entries, b: TaskRun, runs': map<string, Run>, leases': Entries,
                        c: TaskRun, runs'': map<string, Run>, leases'': Entries)
    requires Progressed(a, runs, leases, b, runs', leases') && Progressed(b, runs', leases', c, runs'', leases'')
    ensures Progressed(a, runs, leases, c, runs'', leases'')
  {
    hide Spares;
    SparesTwice(a.nodeRuns, a.ownerId, runs, leases, b.nodeRuns, runs', leases', c.nodeRuns, runs'', leases'');
  }

  lemma ProgressedId(task: TaskRun, runs: map<string, Run>, leases: Entries, after: TaskRun, runs': map<string, Run>, leases': Entries)
    requires Progressed(task, runs, leases, after, runs', leases')
    ensures SameTask(task, after)
  {
  }

  lemma ProgressApart(tasks: map<string, TaskRun>, runs: map<string, Run>, leases: Entries, tasks': map<string, TaskRun>, id: string,
                      runs': map<string, Run>, leases': Entries)
    requires Apart(tasks) && TasksKnown(tasks, runs) && OnlyTask(tasks, tasks', id) && id in tasks && id in tasks'
    requires Progressed(tasks[id], runs, leases, tasks'[id], runs', leases')
    ensures Apart(tasks')
  {
    hide Spares, Apart, TasksKnown, OnlyTask;
    StaysApart(tasks, runs, leases, tasks', id, tasks[id].ownerId, runs', leases');
  }

  lemma NoProgress(task: TaskRun, after: TaskRun, runs: map<string, Run>, leases: Entries)
    requires Leased(runs, leases) && SameTask(task, after) && after.nodeRuns == task.nodeRuns
    ensures Progressed(task, runs, leases, after, runs, leases)
  {
    hide Spares, Leased;
    SparesAll(task.nodeRuns, task.ownerId, runs, leases);
  }

  lemma RanProgress(task: TaskRun, runs: map<string, Run>, leases: Entries, nodeId: string, endings: seq<RunStatus>,
                    after: TaskRun, runs': map<string, Run>, leases': Entries)
    requires Ran(task.nodeRuns, runs, leases, task.ownerId, nodeId, endings, after.nodeRuns, runs', leases') && SameTask(task, after)
    ensures Progressed(task, runs, leases, after, runs', leases')
  {
    hide Spares, StatusesOf, StrayIn, Family;
  }

  /** The task is as the move says; if the pass stops here, so is its status. */
  ghost predicate MovesAs(after: TaskRun, goes: bool, runs: map<string, Run>, leases: Entries, move: Move)
  {
    goes == move.goes && LooksLike(after, runs, leases, move.view) && (!goes ==> after.status == move.view.status)
  }

  lemma PreparedIsCataloged(world: World, definitions: map<(string, string), Definition>, i: nat)
    requires Cataloged(world, definitions) && world.prepared(i).Some?
    ensures InCatalog(world, world.prepared(i).value.def)
  {
  }

  lemma ChildrenAreRuns(children: Children, runs: map<string, Run>)
    requires Family(children, runs)
    ensures ChildIds(children) <= runs.Keys
  {
  }

  lemma StoppedKeys(ids: set<string>, runs: map<string, Run>, leases: Entries, runs': map<string, Run>, leases': Entries)
    requires AllStopped(ids, runs, leases, runs', leases')
    ensures runs'.Keys == runs.Keys
  {
  }

  lemma FreshSame(world: World, i: nat, j: nat, runs: map<string, Run>, runs': map<string, Run>)
    requires FreshIds(world, i, runs) && i <= j && runs'.Keys == runs.Keys
    ensures FreshIds(world, j, runs')
  {
  }

  lemma OnlyTaskSaved(tasks0: map<string, TaskRun>, tasks: map<string, TaskRun>, id: string, task: TaskRun)
    requires OnlyTask(tasks0, tasks, id)
    ensures OnlyTask(tasks0, tasks[id := task], id)
  {
  }

  /** What a node's run has made of the task, seen from the plan. */
  lemma RanView(v: View, task: TaskRun, runs: map<string, Run>, leases: Entries, node: WorkflowNode, fate: Fate,
                ran: TaskRun, runs': map<string, Run>, leases': Entries)
    requires v == ViewOf(task, runs, leases) && ran == task.(nodeRuns := ran.nodeRuns, status := ran.status) && !fate.skips
    requires Ran(task.nodeRuns, runs, leases, task.ownerId, node.id, fate.endings, ran.nodeRuns, runs', leases')
    ensures ViewOf(ran, runs', leases') == v.(recorded := Recorded(v.recorded, node, fate), status := ran.status)
  {
    hide StatusesOf, StrayIn;
  }

  /** Only this task may have been saved. */
  ghost predicate OnlyTask(tasks: map<string, TaskRun>, tasks': map<string, TaskRun>, id: string)
  {
    tasks'.Keys <= tasks.Keys + {id} && forall t :: t in tasks && t != id ==> t in tasks' && tasks'[t] == tasks[t]
  }

  lemma OnlyTaskKept(tasks0: map<string, TaskRun>, tasks: map<string, TaskRun>, id: string, task: TaskRun)
    ensures OnlyTask(tasks, tasks, id)
    ensures OnlyTask(tasks0, tasks, id) ==> OnlyTask(tasks0, tasks[id := task], id)
  {
  }

  lemma NothingRan(children: Children, runs: map<string, Run>, leases: Entries, ownerId: string, nodeId: string, node: WorkflowNode)
    requires Family(children, runs) && Leased(runs, leases)
    ensures Ran(children, runs, leases, ownerId, nodeId, [], children, runs, leases)
    ensures Proper(node, []) && PositionAfter(node, []) == At(0, 0)
  {
    SparesAll(children, ownerId, runs, leases);
    hide Spares;
  }

  lemma LeasedNow(rt: WorkflowRuntime)
    requires rt.Valid()
    ensures Leased(rt.runs, rt.resourceLeases)
  {
  }

  ghost predicate CancelledOne(id: string, runs: map<string, Run>, leases: Entries, runs': map<string, Run>, leases': Entries)
    requires id in runs
  {
    if Terminal(runs[id].status) then runs' == runs && leases' == leases
    else runs' == runs[id := Workflows.Cancel(runs[id])] && leases' == leases - {id}
  }

  lemma NothingStopped(runs: map<string, Run>, leases: Entries)
    requires Leased(runs, leases)
    ensures AllStopped({}, runs, leases, runs, leases)
  {
  }

  lemma CancelAnswer(definitions: map<(string, string), Definition>, runs: map<string, Run>, leases: Entries, point: nat, id: string,
                     r: Option<Run>, runs': map<string, Run>, leases': Entries)
    requires Answered(definitions, runs, leases, point, id, DoCancel, r, runs', leases') && id in runs && runs[id].id == id
    requires !Terminal(runs[id].status)
    ensures runs' == runs[id := Workflows.Cancel(runs[id])] && leases' == leases - {id}
  {
  }

  lemma OneMoreStopped(ids: set<string>, runs0: map<string, Run>, leases0: Entries, runs: map<string, Run>, leases: Entries,
                       id: string, runs': map<string, Run>, leases': Entries)
    requires AllStopped(ids, runs0, leases0, runs, leases) && Leased(runs, leases) && id in runs
    requires CancelledOne(id, runs, leases, runs', leases')
    ensures AllStopped(ids + {id}, runs0, leases0, runs', leases') && runs'.Keys == runs.Keys
  {
  }
}
