/** The managed transfer service: operation records, and the tables of queues, workers and running transfers. */
module TransferService {
  import opened Ids
  import opened Transfers

  /** All tables at one moment. The last three are a log. */
  datatype Tables = Tables(
    records: map<string, OpRecord>, cancellers: map<string, Canceller>, queues: map<string, seq<string>>,
    workers: map<string, Worker>, transfers: map<string, Transfer>, paused: set<string>,
    enqueued: map<string, seq<string>>, started: map<string, seq<string>>, dropped: set<string>)

  function ListAt(lists: map<string, seq<string>>, s: string): seq<string>
  {
    if s in lists then lists[s] else []
  }

  function Get<V>(m: map<string, V>, k: string): Option<V>
  {
    if k in m then Some(m[k]) else None
  }

  function Put<V>(m: map<string, V>, k: string, v: Option<V>): map<string, V>
  {
    if v.Some? then m[k := v.value] else m - {k}
  }

  predicate Belongs(records: map<string, OpRecord>, op: string, s: string)
  {
    op in records && records[op].sessionId == s
  }

  function RecordsIn(records: map<string, OpRecord>, s: string): map<string, OpRecord>
  {
    map op | op in records && Belongs(records, op, s) :: records[op]
  }

  function EntriesIn<V>(m: map<string, V>, records: map<string, OpRecord>, s: string): map<string, V>
  {
    map op | op in m && Belongs(records, op, s) :: m[op]
  }

  /** What the tables hold about one session. */
  ghost function Part(t: Tables, s: string): Session
  {
    Session(s, RecordsIn(t.records, s), EntriesIn(t.cancellers, t.records, s), ListAt(t.queues, s), Get(t.workers, s),
            EntriesIn(t.transfers, t.records, s), s in t.paused, ListAt(t.enqueued, s), ListAt(t.started, s),
            DroppedIn(t.dropped, t.records, s))
  }

  function DroppedIn(dropped: set<string>, records: map<string, OpRecord>, s: string): set<string>
  {
    set op | op in dropped && Belongs(records, op, s)
  }

  ghost predicate WellFormed(t: Tables)
  {
    t.cancellers.Keys <= t.records.Keys && t.transfers.Keys <= t.records.Keys && t.dropped <= t.records.Keys
  }

  /** The step has made p of the session and left all other sessions alone. */
  ghost predicate Becomes(t: Tables, t': Tables, s: string, p: Session)
  {
    WellFormed(t') && Part(t', s) == p && forall u :: u != s ==> Part(t', u) == Part(t, u)
  }

  lemma BecomesTwice(a: Tables, b: Tables, c: Tables, s: string, p: Session, q: Session)
    requires Becomes(a, b, s, p) && Becomes(b, c, s, q)
    ensures Becomes(a, c, s, q)
  {
    hide Part, WellFormed;
  }

  /** Everything about one operation set anew. */
  function WithOp(t: Tables, op: string, r: OpRecord, c: Option<Canceller>, x: Option<Transfer>): Tables
  {
    t.(records := t.records[op := r], cancellers := Put(t.cancellers, op, c), transfers := Put(t.transfers, op, x))
  }

  lemma OpChanges(t: Tables, op: string, r: OpRecord, c: Option<Canceller>, x: Option<Transfer>)
    requires WellFormed(t) && (op in t.records ==> t.records[op].sessionId == r.sessionId)
    ensures var p := Part(t, r.sessionId);
      Becomes(t, WithOp(t, op, r, c, x), r.sessionId,
              p.(records := p.records[op := r], cancellers := Put(p.cancellers, op, c), transfers := Put(p.transfers, op, x)))
  {
    var t', s := WithOp(t, op, r, c, x), r.sessionId;
    forall y, u | y != op || u != s ensures Belongs(t'.records, y, u) == Belongs(t.records, y, u) {
    }
    hide Belongs;
    forall u ensures RecordsIn(t'.records, u) == if u == s then RecordsIn(t.records, s)[op := r] else RecordsIn(t.records, u) {
      RecordsPut(t.records, op, r, u);
    }
    forall u ensures EntriesIn(t'.cancellers, t'.records, u)
      == if u == s then Put(EntriesIn(t.cancellers, t.records, s), op, c) else EntriesIn(t.cancellers, t.records, u)
    {
      EntriesPut(t.cancellers, t.records, op, r, c, u);
    }
    forall u ensures EntriesIn(t'.transfers, t'.records, u)
      == if u == s then Put(EntriesIn(t.transfers, t.records, s), op, x) else EntriesIn(t.transfers, t.records, u)
    {
      EntriesPut(t.transfers, t.records, op, r, x, u);
    }
    hide RecordsIn, EntriesIn, Put, DroppedIn;
    forall u ensures DroppedIn(t'.dropped, t'.records, u) == DroppedIn(t.dropped, t.records, u) {
      DroppedPut(t.dropped, t.records, op, r, u);
    }
    PutKeys(t.cancellers, op, c);
    PutKeys(t.transfers, op, x);
  }

  lemma PutKeys<V>(m: map<string, V>, op: string, v: Option<V>)
    ensures Put(m, op, v).Keys <= m.Keys + {op}
  {
  }

  lemma RecordsPut(records: map<string, OpRecord>, op: string, r: OpRecord, u: string)
    requires op in records ==> records[op].sessionId == r.sessionId
    ensures RecordsIn(records[op := r], u) == if u == r.sessionId then RecordsIn(records, u)[op := r] else RecordsIn(records, u)
  {
  }

  lemma EntriesPut<V>(m: map<string, V>, records: map<string, OpRecord>, op: string, r: OpRecord, v: Option<V>, u: string)
    requires (op in records ==> records[op].sessionId == r.sessionId) && m.Keys <= records.Keys
    ensures EntriesIn(Put(m, op, v), records[op := r], u)
      == if u == r.sessionId then Put(EntriesIn(m, records, u), op, v) else EntriesIn(m, records, u)
  {
  }

  lemma DroppedPut(dropped: set<string>, records: map<string, OpRecord>, op: string, r: OpRecord, u: string)
    requires (op in records ==> records[op].sessionId == r.sessionId) && dropped <= records.Keys
    ensures DroppedIn(dropped, records[op := r], u) == DroppedIn(dropped, records, u)
  {
  }

  lemma SessionChanges(t: Tables, s: string, p: Session, t': Tables)
    requires WellFormed(t) && p == Part(t, s).(queue := p.queue, worker := p.worker, paused := p.paused, enqueued := p.enqueued, started := p.started)
    requires t' == t.(queues := t'.queues, workers := t'.workers, paused := t'.paused, enqueued := t'.enqueued, started := t'.started)
    requires forall u :: ListAt(t'.queues, u) == if u == s then p.queue else ListAt(t.queues, u)
    requires forall u :: Get(t'.workers, u) == if u == s then p.worker else Get(t.workers, u)
    requires forall u :: u in t'.paused <==> if u == s then p.paused else u in t.paused
    requires forall u :: ListAt(t'.enqueued, u) == if u == s then p.enqueued else ListAt(t.enqueued, u)
    requires forall u :: ListAt(t'.started, u) == if u == s then p.started else ListAt(t.started, u)
    ensures Becomes(t, t', s, p)
  {
    hide RecordsIn, EntriesIn, ListAt, Get;
  }

  lemma DropChanges(t: Tables, gone: set<string>, s: string)
    requires WellFormed(t) && forall op :: op in gone ==> Belongs(t.records, op, s)
    ensures Becomes(t, t.(dropped := t.dropped + gone), s, Part(t, s).(dropped := Part(t, s).dropped + gone))
  {
    hide RecordsIn, EntriesIn, ListAt, Get;
  }

  // ----- Operation records -----

  class OperationManager {
    var records: map<string, OpRecord>
    var cancellers: map<string, Canceller>

    constructor ()
      ensures records == map[] && cancellers == map[]
    {
      records, cancellers := map[], map[];
    }

    /** Creates a queued operation under a new id. */
    method Create(op: string, sessionId: string)
      requires op !in records
      modifies this`records
      ensures records == old(records)[op := OpRecord(sessionId, Queued, None, InQueue)]
    {
      records := records[op := OpRecord(sessionId, Queued, None, InQueue)];
    }

    /** Replaces a record; one with a final status can no longer be cancelled. */
    method Update(op: string, next: OpRecord)
      requires op in records
      modifies this
      ensures records == old(records)[op := next]
      ensures cancellers == if Over(next.status) then old(cancellers) - {op} else old(cancellers)
    {
      if Over(next.status) {
        cancellers := cancellers - {op};
      }
      records := records[op := next];
    }

    method RegisterCanceller(op: string, c: Canceller)
      requires op in records
      modifies this`cancellers
      ensures cancellers == if Over(records[op].status) then old(cancellers) else old(cancellers)[op := c]
    {
      if !Over(records[op].status) {
        cancellers := cancellers[op := c];
      }
    }
  }

  // ----- The queues -----

  class TransferQueue {
    const operations: OperationManager
    var queues: map<string, seq<string>>
    var workers: map<string, Worker>
    var transfers: map<string, Transfer>
    var pausedSessions: set<string>
    ghost var enqueued: map<string, seq<string>>
    ghost var started: map<string, seq<string>>
    ghost var dropped: set<string>

    constructor (manager: OperationManager)
      requires manager.records == map[] && manager.cancellers == map[]
      ensures operations == manager && Valid()
      ensures forall s :: SessionAt(s) == Empty(s)
    {
      operations := manager;
      queues, workers, transfers, pausedSessions := map[], map[], map[], {};
      enqueued, started, dropped := map[], map[], {};
      new;
      forall s ensures SessionAt(s) == Empty(s) && Safe(Empty(s)) {
      }
    }

    ghost function Now(): Tables
      reads this, operations
    {
      Tables(operations.records, operations.cancellers, queues, workers, transfers, pausedSessions, enqueued, started, dropped)
    }

    ghost function SessionAt(s: string): Session
      reads this, operations
    {
      Part(Now(), s)
    }

    /** Every session is safe. */
    ghost predicate Valid()
      reads this, operations
    {
      AllSafe(Now())
    }

    /** Replaces the record of one operation. */
    method UpdateRecord(op: string, next: OpRecord)
      requires WellFormed(Now()) && Belongs(operations.records, op, next.sessionId)
      modifies operations
      ensures Becomes(old(Now()), Now(), next.sessionId, Revised(old(SessionAt(next.sessionId)), op, next))
      ensures operations.records == old(operations.records)[op := next]
    {
      hide RecordsIn, EntriesIn, DroppedIn, Becomes;
      var c := if Over(next.status) then None else Get(operations.cancellers, op);
      OpChanges(Now(), op, next, c, Get(transfers, op));
      PartPutSame(Now(), op, next.sessionId);
      operations.Update(op, next);
      RecordReplaced(old(Now()), op, next, Now());
    }

    /** Numbers the queued operations of a session. */
    method RefreshQueuePositions(s: string)
      requires WellFormed(Now()) && Mine(Now(), s)
      modifies operations
      ensures Becomes(old(Now()), Now(), s, Refreshed(old(SessionAt(s)))) && Mine(Now(), s)
    {
      hide RecordsIn, EntriesIn, DroppedIn, Becomes, Part;
      var queue, paused := ListAt(queues, s), s in pausedSessions;
      ghost var p := SessionAt(s);
      PartFields(Now(), s);
      NothingChanges(Now(), s);
      var k := 0;
      while k < |queue|
        invariant k <= |queue| && WellFormed(Now()) && Mine(Now(), s)
        invariant Becomes(old(Now()), Now(), s, p.(records := SessionAt(s).records))
        invariant Numbered(SessionAt(s).records, queue[k..], k + 1, paused) == Numbered(p.records, queue, 1, paused)
      {
        var op := queue[k];
        ghost var before := Now();
        RecordAt(before, op, s);
        assert queue[k..][0] == op && queue[k..][1..] == queue[k + 1..];
        var record := operations.records[op];
        if record.status == Queued {
          UpdateRecord(op, record.(position := Some(k + 1), stage := StageNow(paused)));
          BecomesSound(before, Now(), s, Revised(Part(before, s), op, record.(position := Some(k + 1), stage := StageNow(paused))));
          BecomesSound(old(Now()), before, s, p.(records := Part(before, s).records));
          BecomesTwice(old(Now()), before, Now(), s, p.(records := Part(before, s).records),
                       Revised(Part(before, s), op, record.(position := Some(k + 1), stage := StageNow(paused))));
        }
        k := k + 1;
      }
    }

    /** Registers what cancelling an operation that is not over does. */
    method RegisterCanceller(op: string, c: Canceller, s: string)
      requires WellFormed(Now()) && Belongs(operations.records, op, s) && !Over(operations.records[op].status)
      modifies operations
      ensures Becomes(old(Now()), Now(), s, old(SessionAt(s)).(cancellers := old(SessionAt(s)).cancellers[op := c]))
      ensures operations.records == old(operations.records)
    {
      hide RecordsIn, EntriesIn, DroppedIn, Becomes;
      ghost var r := operations.records[op];
      OpChanges(Now(), op, r, Some(c), Get(transfers, op));
      PartPutSame(Now(), op, s);
      RecordAt(Now(), op, s);
      SelfPut(Part(Now(), s).records, op);
      operations.RegisterCanceller(op, c);
      CancellerPut(old(Now()), op, c, Now());
    }

    /** Sees to it that a queue that may go on has a worker. */
    method EnsureWorker(s: string)
      requires WellFormed(Now())
      modifies this`workers
      ensures Becomes(old(Now()), Now(), s, Transfers.EnsureWorker(old(SessionAt(s))))
      ensures s !in pausedSessions || s in old(workers) ==> s in workers
    {
      hide RecordsIn, EntriesIn, DroppedIn, Becomes, ListAt;
      ghost var p := SessionAt(s);
      PartFields(Now(), s);
      if s in pausedSessions || s in workers {
        NothingChanges(Now(), s);
        return;
      }
      workers := workers[s := Ready];
      SessionChanges(old(Now()), s, p.(worker := Some(Ready)), Now());
    }

    /** A new transfer joins the end of its session's queue; refused when the session is not connected. */
    method Enqueue(op: string, s: string, connected: bool) returns (ok: bool)
      requires Valid() && op !in operations.records
      modifies this, operations
      ensures Valid() && ok == connected
      ensures !ok ==> Now() == old(Now())
      ensures ok ==> Becomes(old(Now()), Now(), s, Transfers.Enqueue(old(SessionAt(s)), op))
    {
      hide RecordsIn, EntriesIn, DroppedIn, Becomes, Part, Safe, Transfers.Enqueue, Refreshed, Transfers.EnsureWorker, Mine;
      if !connected {
        return false;
      }
      ghost var t0, p := Now(), SessionAt(s);
      NewOp(t0, op, s);
      operations.Create(op, s);
      queues := queues[s := ListAt(queues, s) + [op]];
      enqueued := enqueued[s := ListAt(enqueued, s) + [op]];
      operations.RegisterCanceller(op, FromQueue);
      ghost var t1 := Now();
      ghost var q := p.(records := p.records[op := OpRecord(s, Queued, None, InQueue)], cancellers := p.cancellers[op := FromQueue],
                        queue := p.queue + [op], enqueued := p.enqueued + [op]);
      Joined(t0, op, s, t1);
      SafeIsMine(t0, s);
      JoinedMine(t0, op, s, t1);
      RefreshQueuePositions(s);
      ghost var t2 := Now();
      BecomesSound(t0, t1, s, q);
      BecomesSound(t1, t2, s, Refreshed(q));
      BecomesTwice(t0, t1, t2, s, q, Refreshed(q));
      EnsureWorker(s);
      BecomesTwice(t0, t2, Now(), s, Refreshed(q), Transfers.EnsureWorker(Refreshed(q)));
      EnqueueSpec(t0, op, s);
      EnqueueIsSafe(p, op);
      StaysValid(t0, Now(), s, Transfers.Enqueue(p, op));
      return true;
    }

    /** Gives an operation its final status, unless it has one. */
    method Conclude(op: string, status: OpStatus, s: string)
      requires WellFormed(Now()) && Belongs(operations.records, op, s) && Over(status)
      modifies operations
      ensures Becomes(old(Now()), Now(), s, Concluded(old(SessionAt(s)), op, status))
      ensures SameSessions(old(operations.records), operations.records)
    {
      hide RecordsIn, EntriesIn, DroppedIn, Becomes;
      RecordAt(Now(), op, s);
      var record := operations.records[op];
      if Over(record.status) {
        NothingChanges(Now(), s);
      } else {
        UpdateRecord(op, record.(status := status, position := None, stage := Past));
      }
    }

    /** Takes one operation off the front of a queue, or out of it. */
    method Dequeue(s: string, left: seq<string>, ghost gone: set<string>)
      requires WellFormed(Now()) && forall op :: op in gone ==> Belongs(operations.records, op, s)
      modifies this`queues, this`dropped
      ensures Becomes(old(Now()), Now(), s, old(SessionAt(s)).(queue := left, dropped := old(SessionAt(s)).dropped + gone))
      ensures ListAt(queues, s) == left
    {
      hide RecordsIn, EntriesIn, DroppedIn, Becomes, Belongs;
      ghost var t0, p := Now(), SessionAt(s);
      queues := queues[s := left];
      ghost var t1 := Now();
      SessionChanges(t0, s, p.(queue := left), t1);
      BecomesSound(t0, t1, s, p.(queue := left));
      dropped := dropped + gone;
      DropChanges(t1, gone, s);
      BecomesTwice(t0, t1, Now(), s, p.(queue := left), p.(queue := left, dropped := p.dropped + gone));
    }

    /** Starts the transfer of an operation that has left the queue. */
    method Launch(op: string, s: string)
      requires WellFormed(Now()) && Belongs(operations.records, op, s)
      modifies this`transfers, this`workers, this`started, operations
      ensures Becomes(old(Now()), Now(), s, Launched(old(SessionAt(s)), op))
    {
      hide RecordsIn, EntriesIn, DroppedIn, Becomes;
      ghost var t0 := Now();
      RecordAt(t0, op, s);
      operations.Update(op, operations.records[op].(status := Running, position := None, stage := Past));
      transfers := transfers[op := Going];
      operations.RegisterCanceller(op, FromTransfer);
      workers := workers[s := Awaiting(op)];
      started := started[s := ListAt(started, s) + [op]];
      LaunchedTables(t0, op, s, Now());
    }

    /** The worker is done with the session. */
    method WorkerLeaves(s: string)
      requires WellFormed(Now())
      modifies this`workers, this`queues
      ensures Becomes(old(Now()), Now(), s, Transfers.WorkerLeaves(old(SessionAt(s))))
    {
      hide RecordsIn, EntriesIn, DroppedIn, Becomes;
      ghost var t0, p := Now(), SessionAt(s);
      workers := workers - {s};
      ghost var left := p.(worker := None);
      if ListAt(queues, s) == [] {
        queues := queues - {s};
        SessionChanges(t0, s, left, Now());
      } else {
        ghost var t1 := Now();
        SessionChanges(t0, s, left, t1);
        BecomesSound(t0, t1, s, left);
        EnsureWorker(s);
        BecomesTwice(t0, t1, Now(), s, left, Transfers.EnsureWorker(left));
      }
    }

    /** Takes the operation at the front of the queue and starts its transfer, or fails it if the session is gone. */
    method TakeFirst(s: string, connected: string -> bool) returns (launched: bool)
      requires WellFormed(Now()) && Between(SessionAt(s)) && s !in pausedSessions && ListAt(queues, s) != []
      modifies this, operations
      ensures launched ==> Becomes(old(Now()), Now(), s, WorkerLoop(old(SessionAt(s)), connected))
      ensures !launched ==>
        && WellFormed(Now()) && Between(SessionAt(s)) && Becomes(old(Now()), Now(), s, SessionAt(s))
        && WorkerLoop(SessionAt(s), connected) == WorkerLoop(old(SessionAt(s)), connected)
        && |ListAt(queues, s)| < |old(ListAt(queues, s))|
    {
      hide RecordsIn, EntriesIn, DroppedIn, Becomes, Part, Between, WorkerLoop, Refreshed, Concluded, Mine, Launched, Belongs;
      var op := ListAt(queues, s)[0];
      ghost var t, p := Now(), SessionAt(s);
      PartFields(t, s);
      HeadIsQueued(t, s);
      WorkerLoopOnce(p, connected);
      Dequeue(s, ListAt(queues, s)[1..], {});
      ghost var t1, p1 := Now(), p.(queue := p.queue[1..]);
      NothingDropped(p, p1);
      TailIsMine(t, s, t1);
      BecomesSound(t, t1, s, p1);
      RefreshQueuePositions(s);
      ghost var t2, p2 := Now(), Refreshed(p1);
      BecomesSound(t1, t2, s, p2);
      BecomesTwice(t, t1, t2, s, p1, p2);
      StillThere(p1, op);
      PartOp(t2, s, op);
      launched := false;
      if operations.records[op].status == Queued {
        if connected(op) {
          Launch(op, s);
          BecomesTwice(t, t2, Now(), s, p2, Launched(p2, op));
          launched := true;
        } else {
          PartFields(t2, s);
          FailFirst(op, s, p, t);
        }
      }
    }

    /** Fails an operation that has been taken off the front of the queue. */
    method FailFirst(op: string, s: string, ghost p: Session, ghost t: Tables)
      requires WellFormed(Now()) && Belongs(operations.records, op, s)
      requires Between(p) && !p.paused && p.queue != [] && op == p.queue[0]
      requires Becomes(t, Now(), s, Refreshed(p.(queue := p.queue[1..])))
      modifies this`queues, this`dropped, operations
      ensures WellFormed(Now()) && Between(SessionAt(s)) && |ListAt(queues, s)| < |p.queue|
      ensures SessionAt(s) == Concluded(Refreshed(p.(queue := p.queue[1..])).(dropped := p.dropped + {op}), op, Failed)
      ensures Becomes(t, Now(), s, SessionAt(s))
    {
      hide RecordsIn, EntriesIn, DroppedIn, Becomes, Part, Between, Numbered, Concluded, Belongs;
      ghost var t2, p2 := Now(), Refreshed(p.(queue := p.queue[1..]));
      BecomesSound(t, t2, s, p2);
      PartFields(t2, s);
      Dequeue(s, ListAt(queues, s), {op});
      ghost var t3, p3 := Now(), p2.(dropped := p2.dropped + {op});
      BecomesSound(t2, t3, s, p3);
      Conclude(op, Failed, s);
      ghost var p4 := Concluded(p3, op, Failed);
      BecomesTwice(t2, t3, Now(), s, p3, p4);
      BecomesTwice(t, t2, Now(), s, p2, p4);
      BecomesSound(t, Now(), s, p4);
      PartFields(Now(), s);
      ConcludedQueue(p3, op, Failed);
      FailedHead(p);
    }

    /** Takes operations from the front of the queue until one has been started, or the queue is paused or empty. */
    method RunSessionQueue(s: string, connected: string -> bool)
      requires WellFormed(Now()) && Between(SessionAt(s))
      modifies this, operations
      ensures Becomes(old(Now()), Now(), s, WorkerLoop(old(SessionAt(s)), connected))
    {
      hide RecordsIn, EntriesIn, DroppedIn, Becomes, Part, Between, WorkerLoop, Transfers.WorkerLeaves;
      ghost var t0, p0 := Now(), SessionAt(s);
      NothingChanges(t0, s);
      while s !in pausedSessions && ListAt(queues, s) != []
        invariant WellFormed(Now()) && Between(SessionAt(s)) && Becomes(t0, Now(), s, SessionAt(s))
        invariant WorkerLoop(SessionAt(s), connected) == WorkerLoop(p0, connected)
        decreases |ListAt(queues, s)|
      {
        ghost var t := Now();
        var launched := TakeFirst(s, connected);
        if launched {
          BecomesTwice(t0, t, Now(), s, Part(t, s), WorkerLoop(Part(t, s), connected));
          return;
        }
        BecomesTwice(t0, t, Now(), s, Part(t, s), SessionAt(s));
      }
      ghost var t, p := Now(), SessionAt(s);
      PartFields(t, s);
      WorkerLoopOnce(p, connected);
      WorkerLeaves(s);
      BecomesTwice(t0, t, Now(), s, p, Transfers.WorkerLeaves(p));
    }

    /** Sets the state of one transfer. */
    method SetTransfer(op: string, x: Option<Transfer>, s: string)
      requires WellFormed(Now()) && Belongs(operations.records, op, s)
      modifies this`transfers
      ensures Becomes(old(Now()), Now(), s, old(SessionAt(s)).(transfers := Put(old(SessionAt(s)).transfers, op, x)))
    {
      hide RecordsIn, EntriesIn, DroppedIn, Becomes;
      ghost var t := Now();
      RecordAt(t, op, s);
      OpChanges(t, op, operations.records[op], Get(operations.cancellers, op), x);
      PartPutSame(t, op, s);
      SelfPut(t.records, op);
      SelfPut(Part(t, s).records, op);
      transfers := Put(transfers, op, x);
      TransferPut(t, op, x, Now());
    }

    /** The worker is back from a transfer that has ended. */
    method ForgetTransfer(op: string, s: string)
      requires WellFormed(Now()) && Belongs(operations.records, op, s)
      modifies this`transfers, this`workers
      ensures Becomes(old(Now()), Now(), s, old(SessionAt(s)).(transfers := old(SessionAt(s)).transfers - {op}, worker := Some(Ready)))
    {
      hide RecordsIn, EntriesIn, DroppedIn, Becomes, Part;
      ghost var t, p := Now(), SessionAt(s);
      SetTransfer(op, None, s);
      ghost var t1, p1 := Now(), p.(transfers := p.transfers - {op});
      BecomesSound(t, t1, s, p1);
      workers := workers[s := Ready];
      BackToWork(t1, s, Now());
      BecomesTwice(t, t1, Now(), s, p1, p1.(worker := Some(Ready)));
    }

    /** The scheduler lets a session's worker go on: from its start, or after the transfer it has waited for. */
    method RunWorker(s: string, connected: string -> bool)
      requires Valid()
      modifies this, operations
      ensures Valid() && Becomes(old(Now()), Now(), s, Transfers.RunWorker(old(SessionAt(s)), connected))
    {
      hide RecordsIn, EntriesIn, DroppedIn, Becomes, Part, Between, WorkerLoop, Transfers.WorkerLeaves, Safe, AllSafe;
      ghost var t, p := Now(), SessionAt(s);
      ValidParts(t, s);
      PartFields(t, s);
      RunWorkerIsSafe(p, connected);
      NothingChanges(t, s);
      if s in workers {
        match workers[s]
        case Ready =>
          ReadyIsBetween(p);
          RunSessionQueue(s, connected);
        case Awaiting(op) =>
          AwaitedAt(t, s, op);
          if transfers[op] == Ended || transfers[op] == Crashed {
            var crashed := transfers[op] == Crashed;
            ForgetTransfer(op, s);
            ghost var t2, p2 := Now(), p.(transfers := p.transfers - {op}, worker := Some(Ready));
            BecomesSound(t, t2, s, p2);
            BackAtWork(p, op, p2);
            if crashed {
              WorkerLeaves(s);
              BecomesTwice(t, t2, Now(), s, p2, Transfers.WorkerLeaves(p2));
            } else {
              RunSessionQueue(s, connected);
              BecomesTwice(t, t2, Now(), s, p2, WorkerLoop(p2, connected));
            }
          }
      }
      StaysValid(t, Now(), s, Transfers.RunWorker(p, connected));
    }

    /** A transfer comes to its end: completed, failed, cancelled, or by an exception that nobody handles. */
    method Finish(op: string, ending: OpStatus, crashes: bool)
      requires Valid()
      modifies this, operations
      ensures Valid()
      ensures op in old(operations.records) ==>
        var s := old(operations.records)[op].sessionId;
        Becomes(old(Now()), Now(), s, Transfers.Finish(old(SessionAt(s)), op, ending, crashes))
      ensures op !in old(operations.records) ==> Now() == old(Now())
    {
      hide RecordsIn, EntriesIn, DroppedIn, Becomes, Part, Safe, AllSafe;
      if op !in operations.records {
        return;
      }
      var s := operations.records[op].sessionId;
      ghost var t, p := Now(), SessionAt(s);
      ValidParts(t, s);
      TransferAt(t, s, op);
      FinishIsSafe(p, op, ending, crashes);
      NothingChanges(t, s);
      if op in transfers && (transfers[op] == Going || transfers[op] == Stopping) {
        if crashes {
          SetTransfer(op, Some(Crashed), s);
        } else {
          var status := if transfers[op] == Stopping || !Over(ending) then Cancelled else ending;
          SetTransfer(op, Some(Ended), s);
          ghost var t1, p1 := Now(), p.(transfers := p.transfers[op := Ended]);
          BecomesSound(t, t1, s, p1);
          Conclude(op, status, s);
          BecomesTwice(t, t1, Now(), s, p1, Concluded(p1, op, status));
        }
      }
      StaysValid(t, Now(), s, Transfers.Finish(p, op, ending, crashes));
    }

    /** Takes a queued operation out of its queue. */
    method CancelQueued(op: string, s: string)
      requires WellFormed(Now()) && Belongs(operations.records, op, s) && Mine(Now(), s)
      modifies this`queues, this`dropped, operations
      ensures Becomes(old(Now()), Now(), s, Transfers.CancelQueued(old(SessionAt(s)), op))
    {
      hide RecordsIn, EntriesIn, DroppedIn, Becomes, Part, Minus, Belongs;
      ghost var t, p := Now(), SessionAt(s);
      PartFields(t, s);
      Dequeue(s, Minus(ListAt(queues, s), {op}), {op});
      ghost var t1, p1 := Now(), p.(queue := Minus(p.queue, {op}), dropped := p.dropped + {op});
      BecomesSound(t, t1, s, p1);
      Conclude(op, Cancelled, s);
      ghost var t2, p2 := Now(), Concluded(p1, op, Cancelled);
      BecomesSound(t1, t2, s, p2);
      BecomesTwice(t, t1, t2, s, p1, p2);
      RestIsMine(t, s, op, t2);
      RefreshQueuePositions(s);
      BecomesTwice(t, t2, Now(), s, p2, Refreshed(p2));
    }

    /** Somebody has taken the terminal over: the queue stands still. */
    method PauseQueueForTakeover(s: string)
      requires WellFormed(Now()) && Mine(Now(), s)
      modifies this`pausedSessions, operations
      ensures Becomes(old(Now()), Now(), s, old(SessionAt(s)).(paused := true, records := OnHoldAll(old(SessionAt(s)).records, old(SessionAt(s)).queue)))
      ensures SameSessions(old(operations.records), operations.records)
    {
      hide RecordsIn, EntriesIn, DroppedIn, Becomes, Part, OnHoldAll, Belongs, Mine, SameSessions;
      ghost var t, p := Now(), SessionAt(s);
      PartFields(t, s);
      SameMine(t, s, t.(paused := t.paused + {s}));
      SameItself(operations.records);
      pausedSessions := pausedSessions + {s};
      ghost var q := p.(paused := true);
      HeldTables(t, s, Now());
      BecomesSound(t, Now(), s, q);
      var queue := ListAt(queues, s);
      NobodyHeld(q.records);
      var k := 0;
      while k < |queue|
        invariant k <= |queue| && WellFormed(Now()) && Mine(Now(), s) && SameSessions(old(operations.records), operations.records)
        invariant Becomes(t, Now(), s, q.(records := OnHoldAll(q.records, queue[..k])))
      {
        var op := queue[k];
        ghost var t1, p1 := Now(), q.(records := OnHoldAll(q.records, queue[..k]));
        BecomesSound(t, t1, s, p1);
        MineAt(t1, s, k);
        RecordAt(t1, op, s);
        HeldAt(q.records, queue, k);
        HeldOneMore(q.records, queue, k);
        var record := operations.records[op];
        if record.status == Queued {
          UpdateRecord(op, record.(stage := OnHold));
          BecomesTwice(t, t1, Now(), s, p1, Revised(p1, op, record.(stage := OnHold)));
          StillMine(t1, s, op, record.(stage := OnHold), Now());
          StillSame(old(operations.records), t1.records, op, record.(stage := OnHold));
          BecomesSound(t, Now(), s, Revised(p1, op, record.(stage := OnHold)));
        }
        k := k + 1;
      }
      assert queue[..k] == queue;
    }

    /** Stops the running transfer of an operation. */
    method CancelActive(op: string, s: string, pauseQueue: bool)
      requires WellFormed(Now()) && Belongs(operations.records, op, s) && Mine(Now(), s)
      modifies this`pausedSessions, this`transfers, operations
      ensures Becomes(old(Now()), Now(), s, Transfers.CancelActive(old(SessionAt(s)), op, pauseQueue))
    {
      hide RecordsIn, EntriesIn, DroppedIn, Becomes, Part, OnHoldAll, Mine;
      ghost var t, p := Now(), SessionAt(s);
      NothingChanges(t, s);
      PartFields(t, s);
      TransferAt(t, s, op);
      ghost var held := p;
      if pauseQueue {
        PauseQueueForTakeover(s);
        held := p.(paused := true, records := OnHoldAll(p.records, p.queue));
      }
      ghost var t1 := Now();
      BecomesSound(t, t1, s, held);
      ghost var stopped := held;
      if op in transfers && transfers[op] == Going {
        SetTransfer(op, Some(Stopping), s);
        stopped := held.(transfers := held.transfers[op := Stopping]);
        BecomesTwice(t, t1, Now(), s, held, stopped);
      }
      ghost var t2 := Now();
      BecomesSound(t, t2, s, stopped);
      Conclude(op, Cancelled, s);
      BecomesTwice(t, t2, Now(), s, stopped, Concluded(stopped, op, Cancelled));
    }

    /** Cancels an operation in the way that was registered for it. */
    method Cancel(op: string) returns (ok: bool)
      requires Valid()
      modifies this, operations
      ensures Valid() && ok == (op in old(operations.records))
      ensures !ok ==> Now() == old(Now())
      ensures ok ==>
        var s := old(operations.records)[op].sessionId;
        Becomes(old(Now()), Now(), s, Transfers.Cancel(old(SessionAt(s)), op))
    {
      hide RecordsIn, EntriesIn, DroppedIn, Becomes, Part, Safe, AllSafe, Transfers.CancelQueued, Transfers.CancelActive, Mine;
      if op !in operations.records {
        return false;
      }
      var s := operations.records[op].sessionId;
      ghost var t, p := Now(), SessionAt(s);
      ValidParts(t, s);
      SafeIsMine(t, s);
      RecordAt(t, op, s);
      CancellerAt(t, op, s);
      CancelIsSafe(p, op);
      NothingChanges(t, s);
      if !Over(operations.records[op].status) && op in operations.cancellers {
        match operations.cancellers[op]
        case FromQueue => CancelQueued(op, s);
        case FromTransfer => CancelActive(op, s, false);
      }
      StaysValid(t, Now(), s, Transfers.Cancel(p, op));
      return true;
    }

    /** The terminal that an operation's transfer uses is taken over. */
    method TakeOver(op: string)
      requires Valid() && op in transfers
      modifies this, operations
      ensures Valid() && op in old(operations.records)
      ensures var s := old(operations.records)[op].sessionId;
        Becomes(old(Now()), Now(), s, Transfers.TakeOver(old(SessionAt(s)), op))
    {
      hide RecordsIn, EntriesIn, DroppedIn, Becomes, Part, Safe, AllSafe, Transfers.CancelActive, Mine;
      ghost var t := Now();
      ValidTables(t);
      var s := operations.records[op].sessionId;
      ValidParts(t, s);
      SafeIsMine(t, s);
      TransferAt(t, s, op);
      TakeOverIsSafe(Part(t, s), op);
      CancelActive(op, s, true);
      StaysValid(t, Now(), s, Transfers.TakeOver(Part(t, s), op));
    }

    /** Lets a paused queue go on; refused when the session is not connected. */
    method ResumeQueue(s: string, connected: bool) returns (ok: bool)
      requires Valid()
      modifies this, operations
      ensures Valid() && ok == connected
      ensures !ok ==> Now() == old(Now())
      ensures ok ==> Becomes(old(Now()), Now(), s, Transfers.ResumeQueue(old(SessionAt(s))))
    {
      hide RecordsIn, EntriesIn, DroppedIn, Becomes, Part, Safe, AllSafe, Mine, Refreshed, Transfers.EnsureWorker;
      if !connected {
        return false;
      }
      ghost var t, p := Now(), SessionAt(s);
      ValidParts(t, s);
      SafeIsMine(t, s);
      ResumeIsSafe(p);
      pausedSessions := pausedSessions - {s};
      ghost var t1, p1 := Now(), p.(paused := false);
      ReleasedTables(t, s, t1);
      BecomesSound(t, t1, s, p1);
      SameMine(t, s, t1);
      RefreshQueuePositions(s);
      ghost var t2, p2 := Now(), Refreshed(p1);
      BecomesSound(t1, t2, s, p2);
      BecomesTwice(t, t1, t2, s, p1, p2);
      EnsureWorker(s);
      BecomesTwice(t, t2, Now(), s, p2, Transfers.EnsureWorker(p2));
      StaysValid(t, Now(), s, Transfers.ResumeQueue(p));
      return true;
    }

    /** Cancels everything that runs or waits in a session, in any order, and lifts the pause. */
    method CancelSession(s: string) returns (ghost ops: seq<string>)
      requires Valid()
      modifies this, operations
      ensures Valid() && Covers(old(SessionAt(s)), ops)
      ensures Becomes(old(Now()), Now(), s, Transfers.CancelSession(old(SessionAt(s)), ops))
    {
      hide RecordsIn, EntriesIn, DroppedIn, Becomes, Part, Safe, AllSafe, Transfers.Cancel, CancelAll, Covers;
      ghost var t, p := Now(), SessionAt(s);
      ValidTables(t);
      ValidParts(t, s);
      NothingChanges(t, s);
      var all := transfers.Keys + set op | op in ListAt(queues, s);
      var rest := all;
      ops := [];
      NoneCancelled(p);
      while rest != {}
        invariant Valid() && rest <= all
        invariant Becomes(t, Now(), s, CancelAll(p, ops))
        invariant forall op :: op in all && op !in rest ==> op in ops || !Belongs(t.records, op, s)
        decreases |rest|
      {
        var op :| op in rest;
        rest := rest - {op};
        ghost var t1 := Now();
        BecomesSound(t, t1, s, CancelAll(p, ops));
        SameMembers(t, t1, s, CancelAll(p, ops), op, ops);
        if op in operations.records && operations.records[op].sessionId == s {
          CancelOneMore(p, ops, op);
          var ok := Cancel(op);
          BecomesTwice(t, t1, Now(), s, CancelAll(p, ops), Transfers.Cancel(CancelAll(p, ops), op));
          ops := ops + [op];
        }
      }
      AllCovered(t, s, ops, all);
      CancelSessionIsSafe(p, ops);
      ghost var t1 := Now();
      BecomesSound(t, t1, s, CancelAll(p, ops));
      pausedSessions := pausedSessions - {s};
      ReleasedTables(t1, s, Now());
      BecomesTwice(t, t1, Now(), s, CancelAll(p, ops), Transfers.CancelSession(p, ops));
      StaysValid(t, Now(), s, Transfers.CancelSession(p, ops));
    }
  }

  lemma TransferPut(t: Tables, op: string, x: Option<Transfer>, t': Tables)
    requires op in t.records && t' == t.(transfers := Put(t.transfers, op, x))
    ensures t' == WithOp(t, op, t.records[op], Get(t.cancellers, op), x)
  {
    SelfPut(t.records, op);
  }

  lemma ValidTables(t: Tables)
    requires AllSafe(t)
    ensures WellFormed(t) && t.transfers.Keys <= t.records.Keys
  {
  }

  lemma ValidParts(t: Tables, s: string)
    requires AllSafe(t)
    ensures WellFormed(t) && Safe(Part(t, s))
  {
  }

  lemma ReadyIsBetween(p: Session)
    requires Safe(p) && p.worker == Some(Ready)
    ensures Between(p)
  {
    SafeIsCore(p);
    assert p.transfers == map[];
  }

  lemma AwaitedAt(t: Tables, s: string, op: string)
    requires Safe(Part(t, s)) && Get(t.workers, s) == Some(Awaiting(op))
    ensures Belongs(t.records, op, s) && op in t.transfers
    ensures op in Part(t, s).transfers && Part(t, s).transfers[op] == t.transfers[op]
  {
    assert op in Part(t, s).transfers;
  }

  lemma TransferAt(t: Tables, s: string, op: string)
    requires Belongs(t.records, op, s)
    ensures op in Part(t, s).transfers <==> op in t.transfers
    ensures op in t.transfers ==> Part(t, s).transfers[op] == t.transfers[op]
    ensures op in Part(t, s).records
  {
  }

  lemma CancellerAt(t: Tables, op: string, s: string)
    requires Belongs(t.records, op, s)
    ensures op in Part(t, s).cancellers <==> op in t.cancellers
    ensures op in t.cancellers ==> Part(t, s).cancellers[op] == t.cancellers[op]
  {
  }

  lemma BackToWork(t: Tables, s: string, t': Tables)
    requires WellFormed(t) && t' == t.(workers := t.workers[s := Ready])
    ensures Becomes(t, t', s, Part(t, s).(worker := Some(Ready)))
  {
    hide RecordsIn, EntriesIn, DroppedIn, Becomes;
    SessionChanges(t, s, Part(t, s).(worker := Some(Ready)), t');
  }

  lemma HeldTables(t: Tables, s: string, t': Tables)
    requires WellFormed(t) && t' == t.(paused := t.paused + {s})
    ensures Becomes(t, t', s, Part(t, s).(paused := true))
  {
    hide RecordsIn, EntriesIn, DroppedIn, Becomes;
    SessionChanges(t, s, Part(t, s).(paused := true), t');
  }

  lemma ReleasedTables(t: Tables, s: string, t': Tables)
    requires WellFormed(t) && t' == t.(paused := t.paused - {s})
    ensures Becomes(t, t', s, Part(t, s).(paused := false))
  {
    hide RecordsIn, EntriesIn, DroppedIn, Becomes;
    SessionChanges(t, s, Part(t, s).(paused := false), t');
  }

  lemma SameMine(t: Tables, s: string, t': Tables)
    requires Mine(t, s) && t'.records == t.records && t'.queues == t.queues
    ensures Mine(t', s)
  {
  }

  lemma RestIsMine(t: Tables, s: string, op: string, t': Tables)
    requires Mine(t, s) && SameSessions(t.records, t'.records) && ListAt(t'.queues, s) == Minus(ListAt(t.queues, s), {op})
    ensures Mine(t', s)
  {
    MinusMembers(ListAt(t.queues, s), {op});
  }

  lemma MineAt(t: Tables, s: string, k: nat)
    requires Mine(t, s) && k < |ListAt(t.queues, s)|
    ensures var op := ListAt(t.queues, s)[k]; Belongs(t.records, op, s) && op in t.records && t.records[op].sessionId == s
  {
  }

  lemma StillMine(t: Tables, s: string, op: string, r: OpRecord, t': Tables)
    requires Mine(t, s) && op in t.records && r.sessionId == t.records[op].sessionId
    requires t'.records == t.records[op := r] && t'.queues == t.queues
    ensures Mine(t', s)
  {
  }

  lemma SameItself(records: map<string, OpRecord>)
    ensures SameSessions(records, records)
  {
  }

  lemma StillSame(records: map<string, OpRecord>, records': map<string, OpRecord>, op: string, r: OpRecord)
    requires SameSessions(records, records') && op in records' && r.sessionId == records'[op].sessionId
    ensures SameSessions(records, records'[op := r])
  {
  }

  lemma HeldAt(records: map<string, OpRecord>, queue: seq<string>, k: nat)
    requires k < |queue|
    ensures queue[k] in OnHoldAll(records, queue[..k]) <==> queue[k] in records
  {
  }

  lemma NobodyHeld(records: map<string, OpRecord>)
    ensures OnHoldAll(records, []) == records
  {
  }

  lemma HeldOneMore(records: map<string, OpRecord>, queue: seq<string>, k: nat)
    requires k < |queue| && queue[k] in records
    ensures var held := OnHoldAll(records, queue[..k]);
      && held[queue[k]].status == records[queue[k]].status
      && OnHoldAll(records, queue[..k + 1]) ==
           if records[queue[k]].status == Queued then held[queue[k] := held[queue[k]].(stage := OnHold)] else held
  {
    assert queue[..k + 1] == queue[..k] + [queue[k]];
  }

  lemma NoneCancelled(p: Session)
    ensures CancelAll(p, []) == p
  {
  }

  lemma {:induction false} CancelOneMore(p: Session, ops: seq<string>, op: string)
    ensures CancelAll(p, ops + [op]) == Transfers.Cancel(CancelAll(p, ops), op)
    decreases |ops|
  {
    hide Transfers.Cancel;
    if ops == [] {
      assert [op][1..] == [];
    } else {
      assert (ops + [op])[1..] == ops[1..] + [op];
      CancelOneMore(Transfers.Cancel(p, ops[0]), ops[1..], op);
    }
  }

  /** Cancelling keeps every record in its session. */
  lemma SameMembers(t: Tables, t': Tables, s: string, q: Session, op: string, ops: seq<string>)
    requires Becomes(t, t', s, q) && q == CancelAll(Part(t, s), ops) && Safe(Part(t, s))
    ensures Belongs(t'.records, op, s) <==> Belongs(t.records, op, s)
  {
    CancelAllKeeps(Part(t, s), ops);
    assert Belongs(t.records, op, s) <==> op in Part(t, s).records;
    assert Belongs(t'.records, op, s) <==> op in Part(t', s).records;
  }

  lemma {:induction false} CancelAllKeeps(p: Session, ops: seq<string>)
    requires Safe(p)
    ensures CancelAll(p, ops).records.Keys == p.records.Keys
    decreases |ops|
  {
    hide Safe, Transfers.Cancel;
    if ops != [] {
      CancelIsSafe(p, ops[0]);
      CancelKeepsKeys(p, ops[0]);
      CancelAllKeeps(Transfers.Cancel(p, ops[0]), ops[1..]);
    }
  }

  lemma CancelKeepsKeys(p: Session, op: string)
    requires Safe(p)
    ensures Transfers.Cancel(p, op).records.Keys == p.records.Keys
  {
    hide Safe, Transfers.Cancel;
    if op in p.records {
      CancelTakesEffect(p, op);
    } else {
      UnknownCancel(p, op);
    }
  }

  lemma UnknownCancel(p: Session, op: string)
    requires op !in p.records
    ensures Transfers.Cancel(p, op) == p
  {
  }

  lemma AllCovered(t: Tables, s: string, ops: seq<string>, all: set<string>)
    requires all == t.transfers.Keys + set op | op in ListAt(t.queues, s)
    requires forall op :: op in all ==> op in ops || !Belongs(t.records, op, s)
    requires AllSafe(t)
    ensures Covers(Part(t, s), ops)
  {
    ValidParts(t, s);
    SafeIsMine(t, s);
    hide Safe;
  }

  ghost predicate SameSessions(records: map<string, OpRecord>, records': map<string, OpRecord>)
  {
    records'.Keys == records.Keys && forall op :: op in records ==> records'[op].sessionId == records[op].sessionId
  }

  /** What a session becomes when a transfer of it starts. */
  function Launched(p: Session, op: string): Session
    requires op in p.records
  {
    p.(records := p.records[op := p.records[op].(status := Running, position := None, stage := Past)],
       cancellers := p.cancellers[op := FromTransfer], transfers := p.transfers[op := Going],
       worker := Some(Awaiting(op)), started := p.started + [op])
  }

  lemma LaunchedTables(t: Tables, op: string, s: string, t': Tables)
    requires WellFormed(t) && Belongs(t.records, op, s)
    requires t' == t.(records := t.records[op := t.records[op].(status := Running, position := None, stage := Past)],
                      cancellers := t.cancellers[op := FromTransfer], transfers := t.transfers[op := Going],
                      workers := t.workers[s := Awaiting(op)], started := t.started[s := ListAt(t.started, s) + [op]])
    ensures op in Part(t, s).records && Becomes(t, t', s, Launched(Part(t, s), op))
  {
    hide RecordsIn, EntriesIn, DroppedIn, Becomes;
    RecordAt(t, op, s);
    var r, p := t.records[op].(status := Running, position := None, stage := Past), Part(t, s);
    var mid := WithOp(t, op, r, Some(FromTransfer), Some(Going));
    OpChanges(t, op, r, Some(FromTransfer), Some(Going));
    var q := p.(records := p.records[op := r], cancellers := p.cancellers[op := FromTransfer], transfers := p.transfers[op := Going]);
    BecomesSound(t, mid, s, q);
    SessionChanges(mid, s, Launched(p, op), t');
    BecomesTwice(t, mid, t', s, q, Launched(p, op));
  }

  /** How the worker loop goes on. */
  lemma WorkerLoopOnce(p: Session, connected: string -> bool)
    ensures p.paused || p.queue == [] ==> WorkerLoop(p, connected) == Transfers.WorkerLeaves(p)
    ensures !p.paused && p.queue != [] && p.queue[0] in p.records && p.records[p.queue[0]].status == Queued ==>
      var op, taken := p.queue[0], Refreshed(p.(queue := p.queue[1..]));
      op in taken.records && (op !in p.queue[1..] ==>
        WorkerLoop(p, connected) == if connected(op) then Launched(taken, op)
          else WorkerLoop(Concluded(taken.(dropped := p.dropped + {op}), op, Failed), connected))
  {
    if !p.paused && p.queue != [] && p.queue[0] in p.records {
      KeptByNumbering(p.records, p.queue[1..], 1, p.paused, p.queue[0]);
      if p.queue[0] !in p.queue[1..] {
        NumberedSame(p.records, p.queue[1..], 1, p.paused, p.queue[0]);
      }
    }
    hide Numbered;
  }

  lemma {:induction false} KeptByNumbering(records: map<string, OpRecord>, queue: seq<string>, first: nat, paused: bool, op: string)
    requires op in records
    ensures op in Numbered(records, queue, first, paused)
    decreases |queue|
  {
    if queue != [] {
      var x := queue[0];
      var here := if x in records && records[x].status == Queued then
          records[x := records[x].(position := Some(first), stage := StageNow(paused))]
        else records;
      KeptByNumbering(here, queue[1..], first + 1, paused, op);
    }
  }

  lemma HeadIsQueued(t: Tables, s: string)
    requires Between(Part(t, s)) && ListAt(t.queues, s) != []
    ensures var op := ListAt(t.queues, s)[0];
      Belongs(t.records, op, s) && t.records[op].status == Queued && op !in ListAt(t.queues, s)[1..]
      && op in Part(t, s).records && Part(t, s).records[op] == t.records[op]
  {
    var p := Part(t, s);
    assert QueueHolds(p) && p.queue[0] in p.queue;
    assert forall i :: 0 < i < |p.queue| ==> p.queue[0] != p.queue[i];
  }

  lemma NothingDropped(p: Session, p1: Session)
    requires p1 == p.(queue := p1.queue)
    ensures p.(queue := p1.queue, dropped := p.dropped + {}) == p1
  {
    assert p.dropped + {} == p.dropped;
  }

  lemma TailIsMine(t: Tables, s: string, t1: Tables)
    requires Between(Part(t, s)) && ListAt(t.queues, s) != [] && ListAt(t1.queues, s) == ListAt(t.queues, s)[1..] && t1.records == t.records
    ensures Mine(t1, s)
  {
    var p := Part(t, s);
    assert QueueHolds(p);
    forall op | op in ListAt(t1.queues, s) ensures Belongs(t1.records, op, s) {
      assert op in p.queue && op in p.records;
    }
  }

  lemma StillThere(p: Session, op: string)
    requires op in p.records && op !in p.queue
    ensures op in Refreshed(p).records && Refreshed(p).records[op] == p.records[op]
  {
    NumberedSame(p.records, p.queue, 1, p.paused, op);
  }

  lemma PartOp(t: Tables, s: string, op: string)
    requires op in Part(t, s).records
    ensures Belongs(t.records, op, s) && t.records[op] == Part(t, s).records[op]
  {
  }

  lemma ConcludedQueue(p: Session, op: string, status: OpStatus)
    ensures Concluded(p, op, status).queue == p.queue
  {
  }

  lemma SelfPut<V>(m: map<string, V>, k: string)
    requires k in m
    ensures m[k := m[k]] == m
  {
  }

  lemma CancellerPut(t: Tables, op: string, c: Canceller, t': Tables)
    requires op in t.records && t' == t.(cancellers := t.cancellers[op := c])
    ensures t' == WithOp(t, op, t.records[op], Some(c), Get(t.transfers, op))
  {
    SelfPut(t.records, op);
  }

  lemma NewOp(t: Tables, op: string, s: string)
    requires WellFormed(t) && op !in t.records
    ensures var p := Part(t, s); op !in p.records && op !in p.cancellers && op !in p.transfers && op !in t.cancellers && op !in t.transfers
  {
  }

  /** A new operation at the end of its session's queue. */
  lemma Joined(t: Tables, op: string, s: string, t': Tables)
    requires WellFormed(t) && op !in t.records
    requires t' == t.(records := t.records[op := OpRecord(s, Queued, None, InQueue)], cancellers := t.cancellers[op := FromQueue],
                      queues := t.queues[s := ListAt(t.queues, s) + [op]], enqueued := t.enqueued[s := ListAt(t.enqueued, s) + [op]])
    ensures var p := Part(t, s);
      Becomes(t, t', s, p.(records := p.records[op := OpRecord(s, Queued, None, InQueue)], cancellers := p.cancellers[op := FromQueue],
                           queue := p.queue + [op], enqueued := p.enqueued + [op]))
  {
    hide RecordsIn, EntriesIn, DroppedIn, Becomes;
    var r, p := OpRecord(s, Queued, None, InQueue), Part(t, s);
    NewOp(t, op, s);
    var mid := WithOp(t, op, r, Some(FromQueue), None);
    OpChanges(t, op, r, Some(FromQueue), None);
    assert mid == t.(records := t.records[op := r], cancellers := t.cancellers[op := FromQueue]);
    assert p.transfers - {op} == p.transfers;
    var q := p.(records := p.records[op := r], cancellers := p.cancellers[op := FromQueue]);
    BecomesSound(t, mid, s, q);
    SessionChanges(mid, s, q.(queue := p.queue + [op], enqueued := p.enqueued + [op]), t');
    BecomesTwice(t, mid, t', s, q, q.(queue := p.queue + [op], enqueued := p.enqueued + [op]));
  }

  lemma SafeIsMine(t: Tables, s: string)
    requires WellFormed(t) && Safe(Part(t, s))
    ensures Mine(t, s)
  {
    var p := Part(t, s);
    SafeIsCore(p);
    assert QueueHolds(p);
    forall op | op in ListAt(t.queues, s) ensures Belongs(t.records, op, s) {
      assert op in p.queue && op in p.records;
    }
  }

  lemma JoinedMine(t: Tables, op: string, s: string, t': Tables)
    requires Mine(t, s) && t'.records == t.records[op := OpRecord(s, Queued, None, InQueue)] && ListAt(t'.queues, s) == ListAt(t.queues, s) + [op]
    ensures Mine(t', s)
  {
  }

  lemma EnqueueSpec(t: Tables, op: string, s: string)
    requires WellFormed(t) && op !in t.records
    ensures var p := Part(t, s);
      Transfers.Enqueue(p, op) == Transfers.EnsureWorker(Refreshed(
        p.(records := p.records[op := OpRecord(s, Queued, None, InQueue)], cancellers := p.cancellers[op := FromQueue],
           queue := p.queue + [op], enqueued := p.enqueued + [op])))
  {
    NewOp(t, op, s);
    EnqueueIs(Part(t, s), op, Part(t, s).(records := Part(t, s).records[op := OpRecord(s, Queued, None, InQueue)],
      cancellers := Part(t, s).cancellers[op := FromQueue], queue := Part(t, s).queue + [op], enqueued := Part(t, s).enqueued + [op]));
  }

  ghost predicate AllSafe(t: Tables)
  {
    WellFormed(t) && forall s :: Safe(Part(t, s))
  }

  lemma StaysValid(t: Tables, t': Tables, s: string, p: Session)
    requires AllSafe(t) && Becomes(t, t', s, p) && Safe(p)
    ensures AllSafe(t')
  {
    hide Safe, Part, WellFormed;
  }

  /** One operation's record replaced; a final one loses its canceller. */
  function Revised(p: Session, op: string, next: OpRecord): Session
  {
    p.(records := p.records[op := next], cancellers := if Over(next.status) then p.cancellers - {op} else p.cancellers)
  }

  /** The operations in the session's queue are its own. */
  ghost predicate Mine(t: Tables, s: string)
  {
    forall op :: op in ListAt(t.queues, s) ==> Belongs(t.records, op, s)
  }

  lemma PartFields(t: Tables, s: string)
    ensures var p := Part(t, s);
      p.id == s && p.queue == ListAt(t.queues, s) && p.worker == Get(t.workers, s) && (p.paused <==> s in t.paused)
      && p.records == RecordsIn(t.records, s)
  {
  }

  lemma BecomesSound(t: Tables, t': Tables, s: string, p: Session)
    requires Becomes(t, t', s, p)
    ensures Part(t', s) == p && WellFormed(t')
  {
  }

  lemma NothingChanges(t: Tables, s: string)
    requires WellFormed(t)
    ensures Becomes(t, t, s, Part(t, s))
  {
  }

  lemma RecordAt(t: Tables, op: string, s: string)
    requires Belongs(t.records, op, s)
    ensures op in Part(t, s).records && Part(t, s).records[op] == t.records[op]
  {
  }

  lemma RecordReplaced(t: Tables, op: string, r: OpRecord, t': Tables)
    requires t' == t.(records := t.records[op := r], cancellers := if Over(r.status) then t.cancellers - {op} else t.cancellers)
    ensures t' == WithOp(t, op, r, if Over(r.status) then None else Get(t.cancellers, op), Get(t.transfers, op))
  {
  }

  lemma PartPutSame(t: Tables, op: string, s: string)
    requires Belongs(t.records, op, s)
    ensures Put(Part(t, s).cancellers, op, Get(t.cancellers, op)) == Part(t, s).cancellers
    ensures Put(Part(t, s).cancellers, op, None) == Part(t, s).cancellers - {op}
    ensures Put(Part(t, s).transfers, op, Get(t.transfers, op)) == Part(t, s).transfers
  {
  }
}
