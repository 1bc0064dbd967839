/** The transfer queue of one session as a state machine over the steps between two suspension points. */
module Transfers {
  import opened Ids

  datatype OpStatus = Queued | Running | Completed | Failed | Cancelled

  predicate Over(s: OpStatus)
  {
    s == Completed || s == Failed || s == Cancelled
  }

  datatype Stage = InQueue | OnHold | Past

  datatype OpRecord = OpRecord(sessionId: string, status: OpStatus, position: Option<nat>, stage: Stage)

  /** What cancelling an operation does: take it out of the queue, or stop the running transfer. */
  datatype Canceller = FromQueue | FromTransfer

  /** A session's worker has yet to be scheduled, or waits for a transfer to end. */
  datatype Worker = Ready | Awaiting(op: string)

  /** A transfer runs, has been asked to stop, has come to an end, or has died of an unexpected exception. */
  datatype Transfer = Going | Stopping | Ended | Crashed

  /** All there is to one session. The last three fields are a log: what was enqueued and started, in order, and what
      left the queue without being started. */
  datatype Session = Session(
    id: string, records: map<string, OpRecord>, cancellers: map<string, Canceller>, queue: seq<string>,
    worker: Option<Worker>, transfers: map<string, Transfer>, paused: bool,
    enqueued: seq<string>, started: seq<string>, dropped: set<string>)

  // ----- Small steps -----

  function StageNow(paused: bool): Stage
  {
    if paused then OnHold else InQueue
  }

  /** Numbers the queued operations from the front, starting at first. */
  function Numbered(records: map<string, OpRecord>, queue: seq<string>, first: nat, paused: bool): map<string, OpRecord>
    decreases |queue|
  {
    if queue == [] then records
    else
      var op := queue[0];
      var here := if op in records && records[op].status == Queued then
          records[op := records[op].(position := Some(first), stage := StageNow(paused))]
        else records;
      Numbered(here, queue[1..], first + 1, paused)
  }

  function Refreshed(s: Session): Session
  {
    s.(records := Numbered(s.records, s.queue, 1, s.paused))
  }

  function EnsureWorker(s: Session): Session
  {
    if s.paused || s.worker.Some? then s else s.(worker := Some(Ready))
  }

  /** A record gets a final status, unless it has one already. */
  function Concluded(s: Session, op: string, status: OpStatus): Session
  {
    if op !in s.records || Over(s.records[op].status) then s
    else
      s.(records := s.records[op := s.records[op].(status := status, position := None, stage := Past)],
         cancellers := s.cancellers - {op})
  }

  function Minus(ops: seq<string>, gone: set<string>): seq<string>
  {
    if ops == [] then []
    else if ops[0] in gone then Minus(ops[1..], gone)
    else [ops[0]] + Minus(ops[1..], gone)
  }

  /** A new operation joins the end of the queue. */
  function Enqueue(s: Session, op: string): Session
  {
    if op in s.records then s
    else
      EnsureWorker(Refreshed(
        s.(records := s.records[op := OpRecord(s.id, Queued, None, InQueue)], cancellers := s.cancellers[op := FromQueue],
           queue := s.queue + [op], enqueued := s.enqueued + [op])))
  }

  /** The worker is done; if it leaves work behind that may go on, another one takes over. */
  function WorkerLeaves(s: Session): Session
  {
    var left := s.(worker := None);
    if s.queue == [] then left else EnsureWorker(left)
  }

  /** The worker takes operations from the front until it has started one, or the queue is paused or empty. */
  function WorkerLoop(s: Session, connected: string -> bool): Session
    decreases |s.queue|
  {
    if s.paused || s.queue == [] then WorkerLeaves(s)
    else
      var op := s.queue[0];
      var taken := Refreshed(s.(queue := s.queue[1..]));
      if op !in s.records || s.records[op].status != Queued then WorkerLoop(taken.(dropped := s.dropped + {op}), connected)
      else if !connected(op) then WorkerLoop(Concluded(taken.(dropped := s.dropped + {op}), op, Failed), connected)
      else
        taken.(records := taken.records[op := s.records[op].(status := Running, position := None, stage := Past)],
               cancellers := s.cancellers[op := FromTransfer], transfers := s.transfers[op := Going],
               worker := Some(Awaiting(op)), started := s.started + [op])
  }

  /** The scheduler lets the worker go on, if it has nothing to wait for. */
  function RunWorker(s: Session, connected: string -> bool): Session
  {
    if s.worker == Some(Ready) then WorkerLoop(s, connected)
    else if s.worker.Some? && s.worker.value.op in s.transfers then
      var op := s.worker.value.op;
      match s.transfers[op]
      case Ended => WorkerLoop(s.(transfers := s.transfers - {op}, worker := Some(Ready)), connected)
      case Crashed => WorkerLeaves(s.(transfers := s.transfers - {op}, worker := Some(Ready)))
      case _ => s
    else s
  }

  /** A running transfer comes to an end by itself. Crashing leaves the record as it is. */
  function Finish(s: Session, op: string, ending: OpStatus, crashes: bool): Session
  {
    if op !in s.transfers || (s.transfers[op] != Going && s.transfers[op] != Stopping) then s
    else if crashes then s.(transfers := s.transfers[op := Crashed])
    else
      var status := if s.transfers[op] == Stopping || !Over(ending) then Cancelled else ending;
      Concluded(s.(transfers := s.transfers[op := Ended]), op, status)
  }

  function CancelQueued(s: Session, op: string): Session
  {
    Refreshed(Concluded(s.(queue := Minus(s.queue, {op}), dropped := s.dropped + {op}), op, Cancelled))
  }

  function OnHoldAll(records: map<string, OpRecord>, queue: seq<string>): map<string, OpRecord>
  {
    map op | op in records :: if op in queue && records[op].status == Queued then records[op].(stage := OnHold) else records[op]
  }

  function CancelActive(s: Session, op: string, pauseQueue: bool): Session
  {
    var held := if pauseQueue then s.(paused := true, records := OnHoldAll(s.records, s.queue)) else s;
    var stopped := if op in s.transfers && s.transfers[op] == Going then held.(transfers := s.transfers[op := Stopping]) else held;
    Concluded(stopped, op, Cancelled)
  }

  /** Cancelling by id: what it does depends on the canceller registered for the operation. */
  function Cancel(s: Session, op: string): Session
  {
    if op !in s.records || Over(s.records[op].status) || op !in s.cancellers then s
    else
      match s.cancellers[op]
      case FromQueue => CancelQueued(s, op)
      case FromTransfer => CancelActive(s, op, false)
  }

  /** Somebody takes the terminal over: the running transfer is cancelled and the queue stands still. */
  function TakeOver(s: Session, op: string): Session
  {
    if op in s.transfers then CancelActive(s, op, true) else s
  }

  function ResumeQueue(s: Session): Session
  {
    EnsureWorker(Refreshed(s.(paused := false)))
  }

  function CancelAll(s: Session, ops: seq<string>): Session
    decreases |ops|
  {
    if ops == [] then s else CancelAll(Cancel(s, ops[0]), ops[1..])
  }

  /** The operations that cancelling a session goes through, in an order that is not fixed. */
  ghost predicate Covers(s: Session, ops: seq<string>)
  {
    forall op :: op in s.transfers || op in s.queue ==> op in ops
  }

  function CancelSession(s: Session, ops: seq<string>): Session
  {
    CancelAll(s, ops).(paused := false)
  }

  // ----- What always holds -----

  ghost predicate DistinctOps(ops: seq<string>)
  {
    forall i, j :: 0 <= i < j < |ops| ==> ops[i] != ops[j]
  }

  /** The queue holds exactly the queued operations; they are numbered 1, 2, ... from the front. */
  ghost predicate QueueExact(s: Session)
  {
    && DistinctOps(s.queue)
    && (forall i :: 0 <= i < |s.queue| ==> s.queue[i] in s.records)
    && (forall i :: 0 <= i < |s.queue| ==>
         s.records[s.queue[i]] == OpRecord(s.id, Queued, Some(i + 1), StageNow(s.paused)))
    && (forall op :: op in s.records && s.records[op].status == Queued ==> op in s.queue)
  }

  /** Every operation that is not over can be cancelled, in the way its status calls for. */
  ghost predicate Cancellable(s: Session)
  {
    && s.cancellers.Keys <= s.records.Keys
    && forall op :: op in s.records ==>
         match s.records[op].status
         case Queued => op in s.cancellers && s.cancellers[op] == FromQueue
         case Running => op in s.cancellers && s.cancellers[op] == FromTransfer
         case _ => op !in s.cancellers
  }

  /** A transfer is always the one its worker waits for. */
  ghost predicate TransfersAwaited(s: Session)
  {
    && (forall op :: op in s.transfers ==>
         && op in s.records && s.worker == Some(Awaiting(op)) && s.records[op].status != Queued
         && (s.transfers[op] == Going ==> s.records[op].status == Running)
         && (s.transfers[op] == Stopping || s.transfers[op] == Ended ==> Over(s.records[op].status)))
    && (s.worker.Some? && s.worker.value.Awaiting? ==> s.worker.value.op in s.transfers)
  }

  /** A queue that may go on has a worker. */
  ghost predicate Awake(s: Session)
  {
    s.queue != [] && !s.paused ==> s.worker.Some?
  }

  /** What was started, followed by what still waits, is what was enqueued in that order, without what was dropped. */
  ghost predicate FirstInFirstOut(s: Session)
  {
    && DistinctOps(s.enqueued) && (forall op :: op in s.enqueued <==> op in s.records) && s.dropped <= s.records.Keys
    && s.started + s.queue == Minus(s.enqueued, s.dropped)
  }

  ghost predicate Safe(s: Session)
  {
    QueueExact(s) && Cancellable(s) && TransfersAwaited(s) && Awake(s) && FirstInFirstOut(s)
  }

  // ----- Sequences of operations -----

  lemma {:induction false} MinusMembers(ops: seq<string>, gone: set<string>)
    ensures forall op :: op in Minus(ops, gone) <==> op in ops && op !in gone
    ensures DistinctOps(ops) ==> DistinctOps(Minus(ops, gone))
  {
    if ops != [] {
      MinusMembers(ops[1..], gone);
      if DistinctOps(ops) {
        assert DistinctOps(ops[1..]);
        assert forall op :: op in ops[1..] ==> op != ops[0];
      }
    }
  }

  lemma {:induction false} MinusTwice(ops: seq<string>, a: set<string>, b: set<string>)
    ensures Minus(Minus(ops, a), b) == Minus(ops, a + b)
  {
    if ops != [] {
      MinusTwice(ops[1..], a, b);
      if ops[0] !in a {
        assert Minus(ops, a)[1..] == Minus(ops[1..], a);
      }
    }
  }

  lemma {:induction false} MinusConcat(a: seq<string>, b: seq<string>, gone: set<string>)
    ensures Minus(a + b, gone) == Minus(a, gone) + Minus(b, gone)
  {
    if a == [] {
      assert a + b == b;
    } else {
      assert (a + b)[1..] == a[1..] + b;
      MinusConcat(a[1..], b, gone);
    }
  }

  lemma {:induction false} MinusNothing(ops: seq<string>, gone: set<string>)
    requires forall op :: op in ops ==> op !in gone
    ensures Minus(ops, gone) == ops
  {
    if ops != [] {
      MinusNothing(ops[1..], gone);
    }
  }

  lemma DistinctParts(a: seq<string>, b: seq<string>)
    requires DistinctOps(a + b)
    ensures DistinctOps(a) && DistinctOps(b) && forall x, y :: x in a && y in b ==> x != y
  {
    forall i, j | 0 <= i < j < |a| ensures a[i] != a[j] {
      assert (a + b)[i] != (a + b)[j];
    }
    forall i, j | 0 <= i < j < |b| ensures b[i] != b[j] {
      assert (a + b)[|a| + i] != (a + b)[|a| + j];
    }
    forall x, y | x in a && y in b ensures x != y {
      var i :| 0 <= i < |a| && a[i] == x;
      var j :| 0 <= j < |b| && b[j] == y;
      assert (a + b)[i] != (a + b)[|a| + j];
    }
  }

  // ----- Each step keeps the session safe -----

  /** The queue apart from its numbering. */
  ghost predicate QueueHolds(s: Session)
  {
    && DistinctOps(s.queue)
    && (forall op :: op in s.queue ==> op in s.records && s.records[op].sessionId == s.id && s.records[op].status == Queued)
    && (forall op :: op in s.records && s.records[op].status == Queued ==> op in s.queue)
  }

  ghost predicate Core(s: Session)
  {
    QueueHolds(s) && Cancellable(s) && TransfersAwaited(s) && FirstInFirstOut(s)
  }

  lemma SafeIsCore(s: Session)
    requires Safe(s)
    ensures Core(s) && QueueExact(s) && Awake(s)
  {
  }

  /** Numbering changes positions and stages of the queued operations only. */
  lemma {:induction false} NumberedAt(records: map<string, OpRecord>, queue: seq<string>, first: nat, paused: bool)
    requires DistinctOps(queue) && forall op :: op in queue ==> op in records && records[op].status == Queued
    ensures var r := Numbered(records, queue, first, paused);
      && r.Keys == records.Keys
      && (forall op :: op in records && op !in queue ==> r[op] == records[op])
      && (forall i :: 0 <= i < |queue| ==>
           r[queue[i]] == records[queue[i]].(position := Some(first + i), stage := StageNow(paused)))
    decreases |queue|
  {
    if queue != [] {
      var op := queue[0];
      var here := records[op := records[op].(position := Some(first), stage := StageNow(paused))];
      assert forall i :: 0 < i < |queue| ==> queue[i] != op;
      assert DistinctOps(queue[1..]);
      NumberedAt(here, queue[1..], first + 1, paused);
      forall i | 0 <= i < |queue|
        ensures Numbered(records, queue, first, paused)[queue[i]] == records[queue[i]].(position := Some(first + i), stage := StageNow(paused))
      {
        if i > 0 {
          assert queue[1..][i - 1] == queue[i];
        }
      }
    }
  }

  lemma RefreshKeeps(s: Session)
    requires Core(s)
    ensures Core(Refreshed(s)) && QueueExact(Refreshed(s))
    ensures Refreshed(s) == s.(records := Refreshed(s).records) && Refreshed(s).records.Keys == s.records.Keys
    ensures forall op :: op in s.records ==> Refreshed(s).records[op].status == s.records[op].status
  {
    hide FirstInFirstOut, Cancellable, TransfersAwaited;
    NumberedAt(s.records, s.queue, 1, s.paused);
    var r := Refreshed(s).records;
    forall op | op in s.records ensures r[op].status == s.records[op].status && r[op].sessionId == s.records[op].sessionId {
      if op in s.queue {
        var i :| 0 <= i < |s.queue| && s.queue[i] == op;
      }
    }
    hide Numbered;
    NoRecordsRead(s, r);
  }

  /** Nothing but status and session of the records matters to the rest. */
  lemma NoRecordsRead(s: Session, r: map<string, OpRecord>)
    requires Core(s) && r.Keys == s.records.Keys
    requires forall op :: op in r ==> r[op].status == s.records[op].status && r[op].sessionId == s.records[op].sessionId
    ensures Core(s.(records := r))
  {
  }

  lemma EnsureKeeps(s: Session)
    requires Core(s) && QueueExact(s)
    ensures Safe(EnsureWorker(s))
  {
    hide DistinctOps, FirstInFirstOut, Cancellable;
    EnsureIs(s);
    FifoSame(s, EnsureWorker(s));
    CancellableSame(s, EnsureWorker(s));
  }

  lemma EnsureIs(s: Session)
    ensures EnsureWorker(s) == s.(worker := EnsureWorker(s).worker)
  {
  }

  lemma FifoSame(s: Session, t: Session)
    requires FirstInFirstOut(s) && t.records.Keys == s.records.Keys && t.enqueued == s.enqueued && t.started == s.started
    requires t.queue == s.queue && t.dropped == s.dropped
    ensures FirstInFirstOut(t)
  {
  }

  lemma CancellableSame(s: Session, t: Session)
    requires Cancellable(s) && t.records == s.records && t.cancellers == s.cancellers
    ensures Cancellable(t)
  {
  }

  lemma EnqueueFifo(s: Session, op: string, t: Session)
    requires FirstInFirstOut(s) && op !in s.records && t.records.Keys == s.records.Keys + {op}
    requires t.queue == s.queue + [op] && t.enqueued == s.enqueued + [op] && t.started == s.started && t.dropped == s.dropped
    ensures FirstInFirstOut(t)
  {
    MinusConcat(s.enqueued, [op], s.dropped);
    assert Minus([op], s.dropped) == [op];
    assert s.started + (s.queue + [op]) == (s.started + s.queue) + [op];
  }

  lemma Appended(ops: seq<string>, op: string)
    requires DistinctOps(ops) && op !in ops
    ensures DistinctOps(ops + [op]) && forall x :: x in ops + [op] <==> x in ops || x == op
  {
  }

  lemma EnqueueQueue(s: Session, op: string, t: Session)
    requires QueueHolds(s) && op !in s.records
    requires t.records == s.records[op := OpRecord(s.id, Queued, None, InQueue)] && t.queue == s.queue + [op] && t.id == s.id
    ensures QueueHolds(t)
  {
    assert op !in s.queue;
    Appended(s.queue, op);
    hide DistinctOps;
  }

  lemma EnqueueRest(s: Session, op: string, t: Session)
    requires Cancellable(s) && TransfersAwaited(s) && op !in s.records
    requires t.records == s.records[op := OpRecord(s.id, Queued, None, InQueue)] && t.cancellers == s.cancellers[op := FromQueue]
    requires t.transfers == s.transfers && t.worker == s.worker
    ensures Cancellable(t) && TransfersAwaited(t)
  {
  }

  lemma EnqueueCore(s: Session, op: string, t: Session)
    requires Safe(s) && op !in s.records
    requires t == s.(records := s.records[op := OpRecord(s.id, Queued, None, InQueue)], cancellers := s.cancellers[op := FromQueue],
                     queue := s.queue + [op], enqueued := s.enqueued + [op])
    ensures Core(t)
  {
    SafeIsCore(s);
    hide DistinctOps, FirstInFirstOut, QueueHolds, Cancellable, TransfersAwaited, Safe, QueueExact;
    assert t.records.Keys == s.records.Keys + {op};
    EnqueueFifo(s, op, t);
    EnqueueQueue(s, op, t);
    EnqueueRest(s, op, t);
  }

  lemma EnqueueIsSafe(s: Session, op: string)
    requires Safe(s)
    ensures Safe(Enqueue(s, op))
  {
    if op !in s.records {
      var t := s.(records := s.records[op := OpRecord(s.id, Queued, None, InQueue)], cancellers := s.cancellers[op := FromQueue],
                  queue := s.queue + [op], enqueued := s.enqueued + [op]);
      EnqueueCore(s, op, t);
      hide *;
      RefreshKeeps(t);
      EnsureKeeps(Refreshed(t));
      EnqueueIs(s, op, t);
    }
  }

  lemma EnqueueIs(s: Session, op: string, t: Session)
    requires op !in s.records
    requires t == s.(records := s.records[op := OpRecord(s.id, Queued, None, InQueue)], cancellers := s.cancellers[op := FromQueue],
                     queue := s.queue + [op], enqueued := s.enqueued + [op])
    ensures Enqueue(s, op) == EnsureWorker(Refreshed(t))
  {
  }

  // ----- Operations leave the queue -----

  /** Taking an operation out of the queue, with a final status, keeps the rest as it was. */
  lemma DropFifo(s: Session, op: string, t: Session)
    requires FirstInFirstOut(s) && DistinctOps(s.queue) && op in s.queue && t.records.Keys == s.records.Keys
    requires t.queue == Minus(s.queue, {op}) && t.dropped == s.dropped + {op} && t.enqueued == s.enqueued && t.started == s.started
    ensures FirstInFirstOut(t)
  {
    MinusTwice(s.enqueued, s.dropped, {op});
    MinusMembers(s.enqueued, s.dropped);
    DistinctParts(s.started, s.queue);
    MinusConcat(s.started, s.queue, {op});
    MinusNothing(s.started, {op});
    assert op in s.started + s.queue;
  }

  lemma DropQueue(s: Session, op: string, status: OpStatus, t: Session)
    requires QueueHolds(s) && op in s.queue && Over(status) && t.id == s.id && t.queue == Minus(s.queue, {op})
    requires t.records.Keys == s.records.Keys && t.records[op].status == status
    requires forall x :: x in s.records && x != op ==> t.records[x].status == s.records[x].status && t.records[x].sessionId == s.records[x].sessionId
    ensures QueueHolds(t)
  {
    MinusMembers(s.queue, {op});
    hide DistinctOps;
  }

  /** What a queued operation becomes when it is dropped. */
  function Dropped(s: Session, op: string, status: OpStatus): Session
  {
    Concluded(s.(queue := Minus(s.queue, {op}), dropped := s.dropped + {op}), op, status)
  }

  lemma DropCore(s: Session, op: string, status: OpStatus)
    requires Core(s) && op in s.queue && Over(status)
    ensures Core(Dropped(s, op, status)) && Dropped(s, op, status).records[op].status == status
    ensures var t := Dropped(s, op, status);
      && t.records.Keys == s.records.Keys && t.transfers == s.transfers && t.worker == s.worker && t.paused == s.paused
      && t.queue == Minus(s.queue, {op})
      && forall x :: x in s.records && x != op ==> t.records[x] == s.records[x]
  {
    var t := Dropped(s, op, status);
    hide FirstInFirstOut, DistinctOps;
    assert !Over(s.records[op].status) && op !in s.transfers;
    DropFifo(s, op, t);
    DropQueue(s, op, status, t);
    DropRest(s, op, status, t);
    hide QueueHolds, Cancellable, TransfersAwaited;
  }

  lemma DropRest(s: Session, op: string, status: OpStatus, t: Session)
    requires Cancellable(s) && TransfersAwaited(s) && op in s.records && op !in s.transfers && Over(status)
    requires t.records == s.records[op := s.records[op].(status := status, position := None, stage := Past)]
    requires t.cancellers == s.cancellers - {op} && t.transfers == s.transfers && t.worker == s.worker
    ensures Cancellable(t) && TransfersAwaited(t)
  {
  }

  lemma CancelQueuedIsSafe(s: Session, op: string)
    requires Safe(s) && op in s.queue
    ensures Safe(CancelQueued(s, op))
  {
    SafeIsCore(s);
    DropCore(s, op, Cancelled);
    MinusMembers(s.queue, {op});
    hide Core, Safe, Dropped, Concluded, Refreshed, QueueExact;
    RefreshKeeps(Dropped(s, op, Cancelled));
    CancelQueuedIs(s, op);
    CoreIsSafe(CancelQueued(s, op));
  }

  lemma CancelQueuedIs(s: Session, op: string)
    ensures CancelQueued(s, op) == Refreshed(Dropped(s, op, Cancelled))
  {
  }

  lemma CoreIsSafe(s: Session)
    requires Core(s) && QueueExact(s) && Awake(s)
    ensures Safe(s)
  {
  }

  // ----- The worker -----

  lemma FrontIsMinus(queue: seq<string>)
    requires DistinctOps(queue) && queue != []
    ensures queue[1..] == Minus(queue, {queue[0]})
  {
    assert forall x :: x in queue[1..] ==> x != queue[0];
    MinusNothing(queue[1..], {queue[0]});
  }

  /** Between two transfers: nothing is running, and the worker is at work. */
  ghost predicate Between(s: Session)
  {
    Core(s) && QueueExact(s) && s.transfers == map[] && s.worker == Some(Ready)
  }

  lemma WorkerLeavesSafe(s: Session)
    requires Between(s)
    ensures Safe(WorkerLeaves(s))
  {
    var left := s.(worker := None);
    hide FirstInFirstOut, Cancellable, QueueHolds;
    FifoSame(s, left);
    CancellableSame(s, left);
    assert Core(left) by {
      assert QueueHolds(left) by {
        HoldsSame(s, left);
      }
    }
    if s.queue != [] {
      hide Core, QueueExact;
      LeftExact(s, left);
      EnsureKeeps(left);
    }
  }

  lemma HoldsSame(s: Session, t: Session)
    requires QueueHolds(s) && t.queue == s.queue && t.records == s.records && t.id == s.id
    ensures QueueHolds(t)
  {
  }

  lemma LeftExact(s: Session, t: Session)
    requires QueueExact(s) && t.queue == s.queue && t.records == s.records && t.id == s.id && t.paused == s.paused
    ensures QueueExact(t)
  {
  }

  /** Numbering the queue and changing an operation outside it can be done in either order. */
  lemma {:induction false} NumberedElsewhere(records: map<string, OpRecord>, queue: seq<string>, first: nat, paused: bool, op: string, r: OpRecord)
    requires op !in queue
    ensures Numbered(records[op := r], queue, first, paused) == Numbered(records, queue, first, paused)[op := r]
    decreases |queue|
  {
    if queue != [] {
      var x := queue[0];
      var here := if x in records && records[x].status == Queued then
          records[x := records[x].(position := Some(first), stage := StageNow(paused))]
        else records;
      NumberedElsewhere(here, queue[1..], first + 1, paused, op, r);
      if x in records && records[x].status == Queued {
        assert records[op := r][x := records[x].(position := Some(first), stage := StageNow(paused))] == here[op := r];
      }
    }
  }

  /** What the head of the queue becomes when its transfer starts. */
  function Begun(s: Session, op: string): Session
    requires op in s.records
  {
    s.(queue := Minus(s.queue, {op}), records := s.records[op := s.records[op].(status := Running, position := None, stage := Past)],
       cancellers := s.cancellers[op := FromTransfer], transfers := s.transfers[op := Going],
       worker := Some(Awaiting(op)), started := s.started + [op])
  }

  lemma BegunFifo(s: Session, op: string)
    requires FirstInFirstOut(s) && DistinctOps(s.queue) && s.queue != [] && s.queue[0] == op && op in s.records
    ensures FirstInFirstOut(Begun(s, op))
  {
    FrontIsMinus(s.queue);
    assert s.started + s.queue == (s.started + [op]) + s.queue[1..];
    assert Begun(s, op).records.Keys == s.records.Keys;
    hide Minus, DistinctOps;
  }

  lemma BegunQueue(s: Session, op: string)
    requires QueueHolds(s) && op in s.queue
    ensures QueueHolds(Begun(s, op))
  {
    MinusMembers(s.queue, {op});
    hide Minus, DistinctOps;
  }

  lemma BegunRest(s: Session, op: string)
    requires Cancellable(s) && op in s.records && s.transfers == map[]
    ensures Cancellable(Begun(s, op)) && TransfersAwaited(Begun(s, op))
  {
    hide Minus;
  }

  lemma BegunCore(s: Session)
    requires Between(s) && s.queue != []
    ensures s.queue[0] in s.records && s.records[s.queue[0]].status == Queued
    ensures Core(Begun(s, s.queue[0]))
  {
    hide FirstInFirstOut, Cancellable, TransfersAwaited, DistinctOps, QueueExact, Begun;
    var op := s.queue[0];
    assert op in s.queue;
    BegunFifo(s, op);
    BegunQueue(s, op);
    BegunRest(s, op);
  }

  lemma Stepping(s: Session, connected: string -> bool)
    requires Between(s) && !s.paused && s.queue != []
    ensures s.queue[0] in s.records && s.records[s.queue[0]].status == Queued
    ensures WorkerLoop(s, connected) ==
      if connected(s.queue[0]) then Refreshed(Begun(s, s.queue[0]))
      else WorkerLoop(Refreshed(Dropped(s, s.queue[0], Failed)), connected)
  {
    var op := s.queue[0];
    assert op in s.records && s.records[op].status == Queued && DistinctOps(s.queue);
    FrontIsMinus(s.queue);
    MinusMembers(s.queue, {op});
    hide Core, QueueExact, Minus, Numbered;
    NumberedElsewhere(s.records, s.queue[1..], 1, s.paused, op, s.records[op].(status := Running, position := None, stage := Past));
    NumberedElsewhere(s.records, s.queue[1..], 1, s.paused, op, s.records[op].(status := Failed, position := None, stage := Past));
    NumberedSame(s.records, s.queue[1..], 1, s.paused, op);
    if !connected(op) {
      var taken := Refreshed(s.(queue := s.queue[1..]));
      assert Concluded(taken.(dropped := s.dropped + {op}), op, Failed) == Refreshed(Dropped(s, op, Failed));
    }
  }

  /** A head whose session is gone fails, and the worker stays between two transfers. */
  lemma FailedHead(s: Session)
    requires Between(s) && !s.paused && s.queue != []
    ensures var op := s.queue[0];
      Between(Concluded(Refreshed(s.(queue := s.queue[1..])).(dropped := s.dropped + {op}), op, Failed))
  {
    var op := s.queue[0];
    FrontIsMinus(s.queue);
    MinusMembers(s.queue, {op});
    assert op in s.queue;
    DropCore(s, op, Failed);
    RefreshKeeps(Dropped(s, op, Failed));
    hide Core, QueueExact, Minus, Numbered;
    NumberedElsewhere(s.records, s.queue[1..], 1, s.paused, op, s.records[op].(status := Failed, position := None, stage := Past));
    NumberedSame(s.records, s.queue[1..], 1, s.paused, op);
    var taken := Refreshed(s.(queue := s.queue[1..]));
    assert Concluded(taken.(dropped := s.dropped + {op}), op, Failed) == Refreshed(Dropped(s, op, Failed));
  }

  lemma {:induction false} NumberedSame(records: map<string, OpRecord>, queue: seq<string>, first: nat, paused: bool, op: string)
    requires op !in queue && op in records
    ensures op in Numbered(records, queue, first, paused) && Numbered(records, queue, first, paused)[op] == records[op]
  {
    NumberedElsewhere(records, queue, first, paused, op, records[op]);
    assert records[op := records[op]] == records;
  }

  lemma {:induction false} WorkerLoopSafe(s: Session, connected: string -> bool)
    requires Between(s)
    ensures Safe(WorkerLoop(s, connected))
    decreases |s.queue|
  {
    if s.paused || s.queue == [] {
      WorkerLeavesSafe(s);
    } else {
      Stepping(s, connected);
      var op := s.queue[0];
      if connected(op) {
        BegunCore(s);
        hide *;
        RefreshKeeps(Begun(s, op));
        AwakeNow(Refreshed(Begun(s, op)), op, s);
        CoreIsSafe(Refreshed(Begun(s, op)));
      } else {
        assert op in s.queue;
        DropCore(s, op, Failed);
        FrontIsMinus(s.queue);
        hide Core, QueueExact, WorkerLoop, Dropped, Minus, Refreshed;
        RefreshKeeps(Dropped(s, op, Failed));
        WorkerLoopSafe(Refreshed(Dropped(s, op, Failed)), connected);
      }
    }
  }

  lemma AwakeNow(t: Session, op: string, s: Session)
    requires op in s.records && t == Begun(s, op).(records := t.records)
    ensures Awake(t)
  {
  }

  lemma RunWorkerIsSafe(s: Session, connected: string -> bool)
    requires Safe(s)
    ensures Safe(RunWorker(s, connected))
  {
    hide WorkerLoop, WorkerLeaves;
    SafeIsCore(s);
    if s.worker == Some(Ready) {
      assert s.transfers == map[];
      WorkerLoopSafe(s, connected);
    } else if s.worker.Some? && s.worker.value.op in s.transfers && (s.transfers[s.worker.value.op] == Ended || s.transfers[s.worker.value.op] == Crashed) {
      var op := s.worker.value.op;
      var t := s.(transfers := s.transfers - {op}, worker := Some(Ready));
      BackAtWork(s, op, t);
      WorkerLoopSafe(t, connected);
      WorkerLeavesSafe(t);
    }
  }

  lemma BackAtWork(s: Session, op: string, t: Session)
    requires Safe(s) && s.worker == Some(Awaiting(op)) && t == s.(transfers := s.transfers - {op}, worker := Some(Ready))
    ensures Between(t)
  {
    assert t.transfers == map[] by {
      forall x | x in t.transfers ensures false {
      }
    }
    SafeIsCore(s);
    hide FirstInFirstOut, Cancellable, QueueHolds, QueueExact;
    FifoSame(s, t);
    CancellableSame(s, t);
    HoldsSame(s, t);
    LeftExact(s, t);
  }

  // ----- Transfers end -----

  lemma FinishIsSafe(s: Session, op: string, ending: OpStatus, crashes: bool)
    requires Safe(s)
    ensures Safe(Finish(s, op, ending, crashes))
  {
    hide Safe;
    var t := Finish(s, op, ending, crashes);
    if op in s.transfers && (s.transfers[op] == Going || s.transfers[op] == Stopping) {
      TransferHasRecord(s, op);
      TransferOutside(s, op);
      OutsideSafe(s, op, t);
    }
  }

  lemma TransferOutside(s: Session, op: string)
    requires Safe(s) && op in s.records && s.records[op].status != Queued
    ensures op !in s.queue && (s.records[op].status == Running ==> op in s.cancellers && s.cancellers[op] == FromTransfer)
    ensures Over(s.records[op].status) ==> op !in s.cancellers
    ensures op in s.transfers && s.transfers[op] == Stopping ==> Over(s.records[op].status)
    ensures op in s.transfers && s.transfers[op] == Going ==> s.records[op].status == Running
  {
  }

  lemma TransferHasRecord(s: Session, op: string)
    requires Safe(s) && op in s.transfers
    ensures op in s.records && s.records[op].status != Queued
  {
  }

  /** A change to one operation that is not queued, and to its transfer, is safe if it is consistent in itself. */
  lemma OutsideSafe(s: Session, op: string, t: Session)
    requires Safe(s) && op in s.records && op !in s.queue && s.records[op].status != Queued
    requires t == s.(records := t.records, cancellers := t.cancellers, transfers := t.transfers)
    requires t.records.Keys == s.records.Keys && t.transfers.Keys == s.transfers.Keys
    requires forall x :: x in s.records && x != op ==> t.records[x] == s.records[x]
    requires forall x :: x != op ==> (x in t.cancellers <==> x in s.cancellers) && (x in s.cancellers ==> t.cancellers[x] == s.cancellers[x])
    requires forall x :: x in s.transfers && x != op ==> t.transfers[x] == s.transfers[x]
    requires t.records[op].status != Queued && t.records[op].sessionId == s.records[op].sessionId
    requires if Over(t.records[op].status) then op !in t.cancellers else op in t.cancellers && t.cancellers[op] == FromTransfer
    requires op in t.transfers && t.transfers[op] == Going ==> t.records[op].status == Running
    requires op in t.transfers && (t.transfers[op] == Stopping || t.transfers[op] == Ended) ==> Over(t.records[op].status)
    ensures Safe(t)
  {
    hide FirstInFirstOut, QueueExact, Cancellable, TransfersAwaited, DistinctOps;
    FifoSame(s, t);
    OutsideQueue(s, op, t);
    OutsideCancellers(s, op, t);
    OutsideTransfers(s, op, t);
  }

  lemma OutsideQueue(s: Session, op: string, t: Session)
    requires QueueExact(s) && op in s.records && op !in s.queue && t.records.Keys == s.records.Keys && t.records[op].status != Queued
    requires t.queue == s.queue && t.id == s.id && t.paused == s.paused
    requires forall x :: x in s.records && x != op ==> t.records[x] == s.records[x]
    ensures QueueExact(t)
  {
    hide DistinctOps;
  }

  lemma OutsideCancellers(s: Session, op: string, t: Session)
    requires Cancellable(s) && op in s.records && t.records.Keys == s.records.Keys && t.records[op].status != Queued
    requires forall x :: x in s.records && x != op ==> t.records[x] == s.records[x]
    requires forall x :: x != op ==> (x in t.cancellers <==> x in s.cancellers) && (x in s.cancellers ==> t.cancellers[x] == s.cancellers[x])
    requires if Over(t.records[op].status) then op !in t.cancellers else op in t.cancellers && t.cancellers[op] == FromTransfer
    ensures Cancellable(t)
  {
  }

  lemma OutsideTransfers(s: Session, op: string, t: Session)
    requires TransfersAwaited(s) && op in s.records && t.records.Keys == s.records.Keys && t.transfers.Keys == s.transfers.Keys
    requires t.worker == s.worker && t.records[op].status != Queued
    requires forall x :: x in s.records && x != op ==> t.records[x] == s.records[x]
    requires forall x :: x in s.transfers && x != op ==> t.transfers[x] == s.transfers[x]
    requires op in t.transfers && t.transfers[op] == Going ==> t.records[op].status == Running
    requires op in t.transfers && (t.transfers[op] == Stopping || t.transfers[op] == Ended) ==> Over(t.records[op].status)
    ensures TransfersAwaited(t)
  {
  }

  // ----- Cancelling -----

  lemma HoldingIsSafe(s: Session, t: Session)
    requires Safe(s) && t == s.(paused := true, records := OnHoldAll(s.records, s.queue))
    ensures Safe(t)
  {
    SafeIsCore(s);
    hide FirstInFirstOut, Cancellable, TransfersAwaited;
    NoRecordsRead(s, t.records);
    CoreSame(s.(records := t.records), t);
    hide Core;
    assert QueueExact(t);
  }

  lemma CoreSame(s: Session, t: Session)
    requires Core(s) && t == s.(paused := t.paused)
    ensures Core(t)
  {
  }

  lemma CancelActiveIsSafe(s: Session, op: string, pauseQueue: bool)
    requires Safe(s) && op in s.records && s.records[op].status != Queued
    requires op in s.transfers || s.records[op].status == Running
    ensures Safe(CancelActive(s, op, pauseQueue))
    ensures Over(CancelActive(s, op, pauseQueue).records[op].status)
  {
    hide Safe;
    var held := if pauseQueue then s.(paused := true, records := OnHoldAll(s.records, s.queue)) else s;
    HoldingIsSafe(s, s.(paused := true, records := OnHoldAll(s.records, s.queue)));
    var t := CancelActive(s, op, pauseQueue);
    assert op in held.records && held.records[op].status == s.records[op].status;
    hide OnHoldAll;
    TransferOutside(held, op);
    OutsideSafe(held, op, t);
  }

  lemma CancelIsSafe(s: Session, op: string)
    requires Safe(s)
    ensures Safe(Cancel(s, op))
  {
    hide CancelQueued, CancelActive;
    SafeIsCore(s);
    if op in s.records && !Over(s.records[op].status) {
      if s.records[op].status == Queued {
        CancelQueuedIsSafe(s, op);
      } else {
        CancelActiveIsSafe(s, op, false);
      }
    }
  }

  lemma TakeOverIsSafe(s: Session, op: string)
    requires Safe(s)
    ensures Safe(TakeOver(s, op))
  {
    hide CancelActive;
    if op in s.transfers {
      CancelActiveIsSafe(s, op, true);
    }
  }

  lemma ResumeIsSafe(s: Session)
    requires Safe(s)
    ensures Safe(ResumeQueue(s))
  {
    SafeIsCore(s);
    hide *;
    CoreSame(s, s.(paused := false));
    RefreshKeeps(s.(paused := false));
    EnsureKeeps(Refreshed(s.(paused := false)));
    ResumeIs(s);
  }

  lemma ResumeIs(s: Session)
    ensures ResumeQueue(s) == EnsureWorker(Refreshed(s.(paused := false)))
  {
  }

  /** Cancelling an operation takes it out of the queue and leaves the others there. */
  lemma CancelEmpties(s: Session, op: string)
    requires Safe(s)
    ensures op !in Cancel(s, op).queue && forall x :: x in Cancel(s, op).queue ==> x in s.queue
  {
    MinusMembers(s.queue, {op});
    hide Minus, OnHoldAll, Numbered;
  }

  lemma {:induction false} CancelAllIsSafe(s: Session, ops: seq<string>)
    requires Safe(s)
    ensures Safe(CancelAll(s, ops))
    ensures forall op :: op in CancelAll(s, ops).queue ==> op in s.queue && op !in ops
    decreases |ops|
  {
    hide Safe, Cancel;
    if ops != [] {
      CancelIsSafe(s, ops[0]);
      CancelEmpties(s, ops[0]);
      CancelAllIsSafe(Cancel(s, ops[0]), ops[1..]);
    }
  }

  lemma CancelSessionIsSafe(s: Session, ops: seq<string>)
    requires Safe(s) && Covers(s, ops)
    ensures Safe(CancelSession(s, ops)) && CancelSession(s, ops).queue == []
  {
    CancelAllIsSafe(s, ops);
    var t := CancelAll(s, ops);
    hide Safe, CancelAll;
    SomeMember(t.queue);
    EmptyUnpauses(t);
  }

  lemma SomeMember(ops: seq<string>)
    ensures ops == [] || exists op :: op in ops
  {
    if ops != [] {
      assert ops[0] in ops;
    }
  }

  lemma EmptyUnpauses(s: Session)
    requires Safe(s) && s.queue == []
    ensures Safe(s.(paused := false))
  {
    FifoSame(s, s.(paused := false));
    hide FirstInFirstOut;
  }

  // ----- Every interleaving -----

  datatype Step =
    | DoEnqueue(op: string)
    | DoRunWorker(connected: string -> bool)
    | DoFinish(op: string, ending: OpStatus, crashes: bool)
    | DoCancel(op: string)
    | DoTakeOver(op: string)
    | DoResume
    | DoCancelSession(ops: seq<string>)

  /** A step that is not enabled does nothing. */
  ghost function Next(s: Session, step: Step): Session
  {
    match step
    case DoEnqueue(op) => Enqueue(s, op)
    case DoRunWorker(connected) => RunWorker(s, connected)
    case DoFinish(op, ending, crashes) => Finish(s, op, ending, crashes)
    case DoCancel(op) => Cancel(s, op)
    case DoTakeOver(op) => TakeOver(s, op)
    case DoResume => ResumeQueue(s)
    case DoCancelSession(ops) => if Covers(s, ops) then CancelSession(s, ops) else s
  }

  ghost function After(s: Session, steps: seq<Step>): Session
    decreases |steps|
  {
    if steps == [] then s else Next(After(s, steps[..|steps| - 1]), steps[|steps| - 1])
  }

  function Empty(id: string): Session
  {
    Session(id, map[], map[], [], None, map[], false, [], [], {})
  }

  lemma NextIsSafe(s: Session, step: Step)
    requires Safe(s)
    ensures Safe(Next(s, step))
  {
    hide Safe, Enqueue, RunWorker, Finish, Cancel, TakeOver, ResumeQueue, CancelSession;
    match step
    case DoEnqueue(op) => EnqueueIsSafe(s, op);
    case DoRunWorker(connected) => RunWorkerIsSafe(s, connected);
    case DoFinish(op, ending, crashes) => FinishIsSafe(s, op, ending, crashes);
    case DoCancel(op) => CancelIsSafe(s, op);
    case DoTakeOver(op) => TakeOverIsSafe(s, op);
    case DoResume => ResumeIsSafe(s);
    case DoCancelSession(ops) =>
      if Covers(s, ops) {
        CancelSessionIsSafe(s, ops);
      }
  }

  /** Whatever steps a session goes through, in whatever order, it is safe after each of them. */
  lemma {:induction false} AlwaysSafe(id: string, steps: seq<Step>)
    ensures Safe(After(Empty(id), steps))
    decreases |steps|
  {
    if steps == [] {
      assert Safe(Empty(id));
    } else {
      hide Safe, Next;
      AlwaysSafe(id, steps[..|steps| - 1]);
      NextIsSafe(After(Empty(id), steps[..|steps| - 1]), steps[|steps| - 1]);
    }
  }

  // ----- What safety means -----

  /** A session has at most one transfer, and its worker waits for it. */
  lemma AtMostOneTransfer(s: Session, a: string, b: string)
    requires Safe(s) && a in s.transfers && b in s.transfers
    ensures a == b && s.worker == Some(Awaiting(a))
  {
  }

  lemma {:induction false} MinusKeepsOrder(ops: seq<string>, gone: set<string>, i: nat, j: nat) returns (a: nat, b: nat)
    requires i < j < |Minus(ops, gone)|
    ensures a < b < |ops| && ops[a] == Minus(ops, gone)[i] && ops[b] == Minus(ops, gone)[j]
  {
    if ops[0] in gone {
      a, b := MinusKeepsOrder(ops[1..], gone, i, j);
      a, b := a + 1, b + 1;
    } else {
      MinusMembers(ops[1..], gone);
      if i == 0 {
        a := 0;
        assert Minus(ops, gone)[j] == Minus(ops[1..], gone)[j - 1] && Minus(ops[1..], gone)[j - 1] in ops[1..];
        b :| 0 <= b < |ops[1..]| && ops[1..][b] == Minus(ops, gone)[j];
        b := b + 1;
      } else {
        a, b := MinusKeepsOrder(ops[1..], gone, i - 1, j - 1);
        a, b := a + 1, b + 1;
      }
    }
  }

  /** Operations start in the order in which they were enqueued, and before all that still wait behind them. */
  lemma StartsInOrder(s: Session, i: nat, j: nat) returns (a: nat, b: nat)
    requires Safe(s) && i < j < |s.started + s.queue|
    ensures a < b < |s.enqueued| && s.enqueued[a] == (s.started + s.queue)[i] && s.enqueued[b] == (s.started + s.queue)[j]
  {
    a, b := MinusKeepsOrder(s.enqueued, s.dropped, i, j);
  }

  /** Every operation that waits has a place between 1 and the number of those that wait, and every such place is taken
      by exactly one of them. */
  lemma PositionsExact(s: Session)
    requires Safe(s)
    ensures forall op :: op in s.records && s.records[op].status == Queued ==>
      s.records[op].position.Some? && 1 <= s.records[op].position.value <= |s.queue|
    ensures forall a, b ::
      (a in s.records && b in s.records && s.records[a].status == Queued && s.records[b].status == Queued
        && s.records[a].position == s.records[b].position) ==> a == b
    ensures forall p :: 1 <= p <= |s.queue| ==>
      s.queue[p - 1] in s.records && s.records[s.queue[p - 1]].status == Queued && s.records[s.queue[p - 1]].position == Some(p)
  {
    hide DistinctOps, Cancellable, TransfersAwaited, FirstInFirstOut;
    forall op | op in s.records && s.records[op].status == Queued
      ensures exists i :: 0 <= i < |s.queue| && s.queue[i] == op && s.records[op].position == Some(i + 1)
    {
      var i :| 0 <= i < |s.queue| && s.queue[i] == op;
    }
  }

  /** While the queue may go on and is not empty, its worker is about to run, or waits for a transfer that has yet to end,
      or has ended so that the worker will run: nothing that waits is forgotten. */
  lemma NoLostWakeup(s: Session)
    requires Safe(s) && s.queue != [] && !s.paused
    ensures s.worker.Some?
    ensures s.worker.value.Awaiting? ==> s.worker.value.op in s.transfers
  {
  }

  /** The place of the first operation in the queue whose session is connected when it is looked at. */
  function FirstConnected(queue: seq<string>, connected: string -> bool): (i: Option<nat>)
    ensures i.Some? ==> i.value < |queue| && connected(queue[i.value]) && forall j :: 0 <= j < i.value ==> !connected(queue[j])
    ensures i.None? ==> forall j :: 0 <= j < |queue| ==> !connected(queue[j])
  {
    if queue == [] then None
    else if connected(queue[0]) then Some(0)
    else
      match FirstConnected(queue[1..], connected)
      case None => None
      case Some(i) => Some(i + 1)
  }

  /** A worker that is about to run on such a queue starts the first operation whose session is connected; those before
      it fail. If there is none, it leaves an empty queue. */
  lemma {:induction false} WorkerStarts(s: Session, connected: string -> bool)
    requires Between(s) && !s.paused
    ensures var t := WorkerLoop(s, connected);
      match FirstConnected(s.queue, connected)
      case Some(i) => t.started == s.started + [s.queue[i]] && t.queue == s.queue[i + 1..] && t.worker == Some(Awaiting(s.queue[i]))
      case None => t.started == s.started && t.queue == [] && t.worker == None
    decreases |s.queue|
  {
    if s.queue != [] {
      Stepping(s, connected);
      var op := s.queue[0];
      HeadGone(s);
      if !connected(op) {
        DropCore(s, op, Failed);
        RefreshKeeps(Dropped(s, op, Failed));
        DropStarts(s, op);
        hide Core, QueueExact, Dropped, Refreshed, WorkerLoop, Minus;
        WorkerStarts(Refreshed(Dropped(s, op, Failed)), connected);
      }
    }
  }

  lemma HeadGone(s: Session)
    requires Between(s) && s.queue != []
    ensures s.queue[0] in s.queue && Minus(s.queue, {s.queue[0]}) == s.queue[1..]
  {
    FrontIsMinus(s.queue);
  }

  lemma DropStarts(s: Session, op: string)
    ensures Dropped(s, op, Failed).started == s.started
  {
  }

  /** Cancelling an operation that is not over makes it over at once and changes the status of no other one. */
  lemma CancelTakesEffect(s: Session, op: string)
    requires Safe(s) && op in s.records
    ensures Cancel(s, op).records.Keys == s.records.Keys && Over(Cancel(s, op).records[op].status)
    ensures forall x :: x in s.records && x != op ==> Cancel(s, op).records[x].status == s.records[x].status
  {
    SafeIsCore(s);
    if !Over(s.records[op].status) {
      if s.records[op].status == Queued {
        DropCore(s, op, Cancelled);
        RefreshKeeps(Dropped(s, op, Cancelled));
        CancelQueuedIs(s, op);
        hide Core, QueueExact, Dropped, CancelQueued, Refreshed;
      } else {
        hide Minus, Numbered;
      }
    }
  }

  // ----- Progress -----

  /** The session's own steps: its worker goes on, or the transfer that it waits for comes to an end. */
  ghost predicate IsTurn(s: Session, step: Step)
  {
    match step
    case DoRunWorker(_) =>
      s.worker == Some(Ready)
      || (s.worker.Some? && s.worker.value.op in s.transfers && s.transfers[s.worker.value.op] in {Ended, Crashed})
    case DoFinish(op, _, _) => s.worker == Some(Awaiting(op)) && op in s.transfers && s.transfers[op] in {Going, Stopping}
    case _ => false
  }

  ghost predicate FinishIsTurn(s: Session, op: string)
  {
    forall ending, crashes :: IsTurn(s, DoFinish(op, ending, crashes))
  }

  /** As long as there is a worker, it is the session's turn, whatever the outside answers. */
  lemma TurnThere(s: Session)
    requires Safe(s) && s.worker.Some?
    ensures (forall connected :: IsTurn(s, DoRunWorker(connected)))
      || exists op :: FinishIsTurn(s, op)
  {
    if s.worker.value.Awaiting? {
      var op := s.worker.value.op;
      hide QueueExact, Cancellable, FirstInFirstOut, Awake;
      assert op in s.transfers;
      if s.transfers[op] == Going || s.transfers[op] == Stopping {
        assert FinishIsTurn(s, op);
      }
    }
  }

  /** A bound on the turns that are left. */
  function Pending(s: Session): nat
  {
    3 * |s.queue| +
    match s.worker
    case None => 0
    case Some(Ready) => 1
    case Some(Awaiting(op)) => if op in s.transfers && s.transfers[op] in {Ended, Crashed} then 2 else 3
  }

  /** What a step may add to it. */
  function Gain(step: Step): nat
  {
    match step
    case DoEnqueue(_) => 4
    case DoResume => 1
    case _ => 0
  }

  lemma {:induction false} MinusShorter(ops: seq<string>, gone: set<string>)
    ensures |Minus(ops, gone)| <= |ops|
  {
    if ops != [] {
      MinusShorter(ops[1..], gone);
    }
  }

  lemma LoopSpends(s: Session, connected: string -> bool)
    requires Between(s)
    ensures Pending(WorkerLoop(s, connected)) < Pending(s)
  {
    assert s.worker == Some(Ready);
    hide Between;
    if !s.paused {
      WorkerStarts(s, connected);
      hide WorkerLoop;
    }
  }

  lemma RunSpends(s: Session, connected: string -> bool)
    requires Safe(s) && IsTurn(s, DoRunWorker(connected))
    ensures Pending(RunWorker(s, connected)) < Pending(s)
  {
    SafeIsCore(s);
    if s.worker == Some(Ready) {
      assert s.transfers == map[];
      hide WorkerLoop, WorkerLeaves;
      LoopSpends(s, connected);
    } else {
      var op := s.worker.value.op;
      var t := s.(transfers := s.transfers - {op}, worker := Some(Ready));
      BackAtWork(s, op, t);
      hide WorkerLoop, Safe, Core, QueueExact;
      LoopSpends(t, connected);
    }
  }

  lemma CancelAddsNothing(s: Session, op: string)
    ensures Pending(Cancel(s, op)) <= Pending(s)
  {
    MinusShorter(s.queue, {op});
    hide Minus, Numbered, OnHoldAll;
  }

  lemma {:induction false} CancelAllAddsNothing(s: Session, ops: seq<string>)
    ensures Pending(CancelAll(s, ops)) <= Pending(s)
    decreases |ops|
  {
    hide Cancel, Pending;
    if ops != [] {
      CancelAddsNothing(s, ops[0]);
      CancelAllAddsNothing(Cancel(s, ops[0]), ops[1..]);
    }
  }

  /** Every turn brings the session nearer to its end; only new operations and resuming lead away from it. */
  lemma TurnSpends(s: Session, step: Step)
    requires Safe(s)
    ensures if IsTurn(s, step) then Pending(Next(s, step)) < Pending(s) else Pending(Next(s, step)) <= Pending(s) + Gain(step)
  {
    hide Numbered, Minus, OnHoldAll, Concluded;
    match step
    case DoEnqueue(_) =>
    case DoRunWorker(connected) =>
      if IsTurn(s, step) {
        hide RunWorker, Safe;
        RunSpends(s, connected);
      } else {
        hide WorkerLoop, WorkerLeaves;
      }
    case DoFinish(op, ending, crashes) => FinishSpends(s, op, ending, crashes);
    case DoCancel(op) => CancelAddsNothing(s, op);
    case DoTakeOver(op) => TakeOverAddsNothing(s, op);
    case DoResume =>
    case DoCancelSession(ops) =>
      hide CancelAll, Safe;
      CancelAllAddsNothing(s, ops);
  }

  lemma FinishSpends(s: Session, op: string, ending: OpStatus, crashes: bool)
    requires Safe(s)
    ensures if IsTurn(s, DoFinish(op, ending, crashes)) then Pending(Finish(s, op, ending, crashes)) < Pending(s)
            else Finish(s, op, ending, crashes) == s
  {
    hide QueueExact, Cancellable, FirstInFirstOut, Awake;
  }

  lemma TakeOverAddsNothing(s: Session, op: string)
    ensures Pending(TakeOver(s, op)) <= Pending(s)
  {
    hide OnHoldAll;
  }

  /** How many steps of a run are turns of the session. */
  ghost function Turns(s: Session, steps: seq<Step>): nat
    decreases |steps|
  {
    if steps == [] then 0
    else
      var front := steps[..|steps| - 1];
      Turns(s, front) + if IsTurn(After(s, front), steps[|steps| - 1]) then 1 else 0
  }

  ghost function Gains(steps: seq<Step>): nat
    decreases |steps|
  {
    if steps == [] then 0 else Gains(steps[..|steps| - 1]) + Gain(steps[|steps| - 1])
  }

  lemma {:induction false} AfterIsSafe(s: Session, steps: seq<Step>)
    requires Safe(s)
    ensures Safe(After(s, steps))
    decreases |steps|
  {
    hide Safe, Next;
    if steps != [] {
      AfterIsSafe(s, steps[..|steps| - 1]);
      NextIsSafe(After(s, steps[..|steps| - 1]), steps[|steps| - 1]);
    }
  }

  /** Whatever happens in between, in whatever order: a session has at most four turns for each new operation and one for
      each time its queue is resumed, besides those it starts with. */
  lemma {:induction false} TurnsAreBounded(s: Session, steps: seq<Step>)
    requires Safe(s)
    ensures Turns(s, steps) + Pending(After(s, steps)) <= Pending(s) + Gains(steps)
    decreases |steps|
  {
    hide Safe, Next, Pending, Gain, IsTurn;
    if steps != [] {
      var front := steps[..|steps| - 1];
      TurnsAreBounded(s, front);
      AfterIsSafe(s, front);
      TurnSpends(After(s, front), steps[|steps| - 1]);
    }
  }

  // ----- Where it leads -----

  /** Every operation that is marked as running has a transfer, unless its transfer has crashed. */
  ghost predicate Accounted(s: Session, lost: set<string>)
  {
    && (forall op :: op in s.records && s.records[op].status == Running ==> op in s.transfers || op in lost)
    && (forall op :: op in s.transfers && s.transfers[op] == Crashed ==> op in lost)
  }

  /** The operations whose transfers crash in these steps. */
  ghost function Lost(steps: seq<Step>): set<string>
  {
    set i | 0 <= i < |steps| && steps[i].DoFinish? && steps[i].crashes :: steps[i].op
  }

  lemma SameStatuses(s: Session, t: Session, lost: set<string>)
    requires Accounted(s, lost) && t.records.Keys == s.records.Keys && t.transfers == s.transfers
    requires forall op :: op in s.records ==> t.records[op].status == s.records[op].status
    ensures Accounted(t, lost)
  {
  }

  lemma {:induction false} LoopAccounts(s: Session, connected: string -> bool, lost: set<string>)
    requires Between(s) && Accounted(s, lost)
    ensures Accounted(WorkerLoop(s, connected), lost)
    decreases |s.queue|
  {
    if s.paused || s.queue == [] {
      assert WorkerLoop(s, connected).records == s.records;
      hide WorkerLoop;
    } else {
      Stepping(s, connected);
      var op := s.queue[0];
      if connected(op) {
        BegunCore(s);
        hide *;
        RefreshKeeps(Begun(s, op));
        BegunAccounts(s, op, lost);
        SameStatuses(Begun(s, op), Refreshed(Begun(s, op)), lost);
      } else {
        assert op in s.queue;
        DropCore(s, op, Failed);
        FrontIsMinus(s.queue);
        DropAccounts(s, op, Failed, lost);
        hide Core, QueueExact, WorkerLoop, Dropped, Minus, Refreshed, Accounted;
        RefreshKeeps(Dropped(s, op, Failed));
        SameStatuses(Dropped(s, op, Failed), Refreshed(Dropped(s, op, Failed)), lost);
        LoopAccounts(Refreshed(Dropped(s, op, Failed)), connected, lost);
      }
    }
  }

  lemma BegunAccounts(s: Session, op: string, lost: set<string>)
    requires op in s.records && Accounted(s, lost)
    ensures Accounted(Begun(s, op), lost)
  {
    hide Minus;
  }

  lemma DropAccounts(s: Session, op: string, status: OpStatus, lost: set<string>)
    requires Accounted(s, lost) && status != Running
    ensures Accounted(Dropped(s, op, status), lost)
  {
    hide Minus;
  }

  lemma RunAccounts(s: Session, connected: string -> bool, lost: set<string>)
    requires Safe(s) && Accounted(s, lost)
    ensures Accounted(RunWorker(s, connected), lost)
  {
    SafeIsCore(s);
    if s.worker == Some(Ready) {
      assert s.transfers == map[];
      hide WorkerLoop, WorkerLeaves, Accounted;
      LoopAccounts(s, connected, lost);
    } else if IsTurn(s, DoRunWorker(connected)) {
      var op := s.worker.value.op;
      var t := s.(transfers := s.transfers - {op}, worker := Some(Ready));
      BackAtWork(s, op, t);
      assert Accounted(t, lost);
      assert WorkerLeaves(t).records == t.records && WorkerLeaves(t).transfers == t.transfers;
      hide WorkerLoop, WorkerLeaves, Safe, Core, QueueExact;
      LoopAccounts(t, connected, lost);
    } else {
      hide WorkerLoop, WorkerLeaves, Accounted;
    }
  }

  lemma CancelAccounts(s: Session, op: string, lost: set<string>)
    requires Safe(s) && Accounted(s, lost)
    ensures Accounted(Cancel(s, op), lost)
  {
    if op in s.records {
      CancelTakesEffect(s, op);
    }
    CancelTransfers(s, op);
    hide Safe, Cancel;
  }

  lemma CancelTransfers(s: Session, op: string)
    ensures Cancel(s, op).transfers.Keys == s.transfers.Keys && (op !in s.records ==> Cancel(s, op) == s)
    ensures forall x :: x in s.transfers && Cancel(s, op).transfers[x] == Crashed ==> s.transfers[x] == Crashed
  {
    hide Minus, Numbered, OnHoldAll;
  }

  lemma {:induction false} CancelAllAccounts(s: Session, ops: seq<string>, lost: set<string>)
    requires Safe(s) && Accounted(s, lost)
    ensures Accounted(CancelAll(s, ops), lost)
    decreases |ops|
  {
    hide Safe, Accounted, Cancel;
    if ops != [] {
      CancelIsSafe(s, ops[0]);
      CancelAccounts(s, ops[0], lost);
      CancelAllAccounts(Cancel(s, ops[0]), ops[1..], lost);
    }
  }

  lemma RefreshAccounts(s: Session, lost: set<string>)
    requires Core(s) && Accounted(s, lost)
    ensures Accounted(EnsureWorker(Refreshed(s)), lost)
  {
    RefreshKeeps(s);
    hide Core, QueueExact, Refreshed;
    SameStatuses(s, EnsureWorker(Refreshed(s)), lost);
  }

  lemma EnqueueAccounts(s: Session, op: string, lost: set<string>)
    requires Safe(s) && Accounted(s, lost)
    ensures Accounted(Enqueue(s, op), lost)
  {
    if op !in s.records {
      var t := s.(records := s.records[op := OpRecord(s.id, Queued, None, InQueue)], cancellers := s.cancellers[op := FromQueue],
                  queue := s.queue + [op], enqueued := s.enqueued + [op]);
      EnqueueCore(s, op, t);
      assert Accounted(t, lost);
      hide *;
      RefreshAccounts(t, lost);
      EnqueueIs(s, op, t);
    }
  }

  lemma ResumeAccounts(s: Session, lost: set<string>)
    requires Safe(s) && Accounted(s, lost)
    ensures Accounted(ResumeQueue(s), lost)
  {
    SafeIsCore(s);
    assert Accounted(s.(paused := false), lost);
    hide *;
    CoreSame(s, s.(paused := false));
    RefreshAccounts(s.(paused := false), lost);
    ResumeIs(s);
  }

  lemma TakeOverAccounts(s: Session, op: string, lost: set<string>)
    requires Safe(s) && Accounted(s, lost)
    ensures Accounted(TakeOver(s, op), lost)
  {
    if op in s.transfers {
      TransferHasRecord(s, op);
      hide Safe, Concluded;
      ActiveAccounts(s, op, lost);
    }
  }

  lemma ActiveAccounts(s: Session, op: string, lost: set<string>)
    requires Accounted(s, lost) && op in s.records
    ensures Accounted(CancelActive(s, op, true), lost)
  {
    var held := s.(paused := true, records := OnHoldAll(s.records, s.queue));
    assert Accounted(held, lost);
    hide OnHoldAll;
  }

  lemma FinishAccounts(s: Session, op: string, ending: OpStatus, crashes: bool, lost: set<string>)
    requires Safe(s) && Accounted(s, lost)
    ensures Accounted(Finish(s, op, ending, crashes), if crashes then lost + {op} else lost)
  {
    if op in s.transfers {
      TransferHasRecord(s, op);
    }
    hide Safe;
  }

  lemma StepAccounts(s: Session, step: Step, lost: set<string>, more: set<string>)
    requires Safe(s) && Accounted(s, lost) && more == lost + if step.DoFinish? && step.crashes then {step.op} else {}
    ensures Accounted(Next(s, step), more)
  {
    hide Safe, Enqueue, RunWorker, Finish, Cancel, TakeOver, ResumeQueue, CancelAll, Accounted;
    if !(step.DoFinish? && step.crashes) {
      assert more == lost;
    }
    match step
    case DoEnqueue(op) => EnqueueAccounts(s, op, lost);
    case DoRunWorker(connected) => RunAccounts(s, connected, lost);
    case DoFinish(op, ending, crashes) => FinishAccounts(s, op, ending, crashes, lost);
    case DoCancel(op) => CancelAccounts(s, op, lost);
    case DoTakeOver(op) => TakeOverAccounts(s, op, lost);
    case DoResume => ResumeAccounts(s, lost);
    case DoCancelSession(ops) =>
      CancelAllAccounts(s, ops, lost);
      Unpaused(CancelAll(s, ops), lost);
  }

  lemma Unpaused(s: Session, lost: set<string>)
    requires Accounted(s, lost)
    ensures Accounted(s.(paused := false), lost)
  {
  }

  lemma LostOneMore(steps: seq<Step>)
    requires steps != []
    ensures var last := steps[|steps| - 1];
      Lost(steps) == Lost(steps[..|steps| - 1]) + if last.DoFinish? && last.crashes then {last.op} else {}
  {
    var front, last := steps[..|steps| - 1], steps[|steps| - 1];
    forall x | x in Lost(front) ensures x in Lost(steps) {
      var i :| 0 <= i < |front| && front[i].DoFinish? && front[i].crashes && front[i].op == x;
      assert steps[i] == front[i];
    }
    forall x | x in Lost(steps) ensures x in Lost(front) || (last.DoFinish? && last.crashes && last.op == x) {
      var i :| 0 <= i < |steps| && steps[i].DoFinish? && steps[i].crashes && steps[i].op == x;
      if i < |front| {
        assert front[i] == steps[i];
      }
    }
  }

  lemma {:induction false} AlwaysAccounted(id: string, steps: seq<Step>)
    ensures Accounted(After(Empty(id), steps), Lost(steps))
    decreases |steps|
  {
    if steps == [] {
    } else {
      hide Safe, Next, Accounted, Lost;
      var front := steps[..|steps| - 1];
      AlwaysAccounted(id, front);
      AlwaysSafe(id, front);
      LostOneMore(steps);
      StepAccounts(After(Empty(id), front), steps[|steps| - 1], Lost(front), Lost(steps));
    }
  }

  /** When a session has no turn left, its queue is empty unless it is paused; everything else that was ever enqueued has
      been started or dropped, and is over, except what crashed. */
  lemma WithoutTurnsAllIsOver(id: string, steps: seq<Step>)
    ensures var s := After(Empty(id), steps);
      s.worker.None? ==>
        && (!s.paused ==> s.queue == []) && s.transfers == map[]
        && forall op :: op in s.enqueued && op !in s.queue ==>
             && (op in s.started || op in s.dropped)
             && op in s.records && (Over(s.records[op].status) || op in Lost(steps))
  {
    AlwaysSafe(id, steps);
    AlwaysAccounted(id, steps);
    var s := After(Empty(id), steps);
    hide After, Lost;
    MinusMembers(s.enqueued, s.dropped);
    assert forall op :: op in s.enqueued && op !in s.dropped ==> op in s.started + s.queue;
    hide DistinctOps, Minus;
    if s.worker.None? {
      assert s.transfers == map[] by {
        hide FirstInFirstOut, QueueExact, Cancellable, Accounted;
        assert forall op :: op !in s.transfers;
      }
    }
  }
}
