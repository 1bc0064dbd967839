/** The deadlines of a running action: when the watchdog reports an incident, and how long the supervisor may sleep. */
module Deadlines {
  import opened Ids

  /** A time stamp kept as text: absent, unreadable, or a moment. Times are in seconds. */
  datatype Stamp = Missing | Unparsable | At(time: real)

  datatype Expectation = Expectation(eventType: string, terminal: bool, timeoutSeconds: real, idleTimeoutSeconds: real)

  datatype ActionSpec = ActionSpec(timeoutSeconds: real, expectations: seq<Expectation>)

  datatype ActionAttempt = ActionAttempt(startedAt: Stamp, lastProgressAt: Stamp)

  datatype Incident = ActionTimeout | ExpectationTimeout(overdue: set<string>) | ProgressTimeout | DeviceUnreachable

  function MaxReal(a: real, b: real): real
  {
    if a < b then b else a
  }

  function MinReal(a: real, b: real): real
  {
    if a < b then a else b
  }

  /** The time passed since a stamp; nothing has passed since one that is absent, unreadable or in the future. */
  function Since(stamp: Stamp, now: real): real
  {
    if stamp.At? then MaxReal(0.0, now - stamp.time) else 0.0
  }

  function ProgressStamp(attempt: ActionAttempt): Stamp
  {
    if attempt.lastProgressAt == Missing then attempt.startedAt else attempt.lastProgressAt
  }

  // ----- The watchdog -----

  /** The deadline of a milestone that has yet to be observed. */
  predicate Pending(e: Expectation, observed: set<string>)
  {
    e.terminal && e.timeoutSeconds > 0.0 && e.eventType !in observed
  }

  function Overdue(expectations: seq<Expectation>, observed: set<string>, elapsed: real): set<string>
  {
    set i | 0 <= i < |expectations| && Pending(expectations[i], observed) && elapsed >= expectations[i].timeoutSeconds
      :: expectations[i].eventType
  }

  function IdleLimits(expectations: seq<Expectation>): seq<real>
  {
    if expectations == [] then []
    else (if expectations[0].idleTimeoutSeconds > 0.0 then [expectations[0].idleTimeoutSeconds] else []) + IdleLimits(expectations[1..])
  }

  function Least(xs: seq<real>): real
    requires xs != []
  {
    if |xs| == 1 then xs[0] else MinReal(xs[0], Least(xs[1..]))
  }

  /** What the watchdog reports at a moment: the first of four reasons that applies. */
  function Evaluate(action: ActionSpec, attempt: ActionAttempt, observed: set<string>, reachable: bool, now: real): Option<Incident>
  {
    var elapsed := Since(attempt.startedAt, now);
    if action.timeoutSeconds > 0.0 && elapsed >= action.timeoutSeconds then Some(ActionTimeout)
    else if Overdue(action.expectations, observed, elapsed) != {} then
      Some(ExpectationTimeout(Overdue(action.expectations, observed, elapsed)))
    else if IdleLimits(action.expectations) != [] && Since(ProgressStamp(attempt), now) >= Least(IdleLimits(action.expectations)) then
      Some(ProgressTimeout)
    else if !reachable && elapsed > 0.0 then Some(DeviceUnreachable)
    else None
  }

  // ----- The supervisor's calculation -----

  /** The time left until the nearest deadline, or a quarter of a second if there is none. */
  method SecondsUntilWatchdog(action: ActionSpec, attempt: ActionAttempt, observed: set<string>, now: real) returns (seconds: real)
    ensures seconds == SleepLimit(Deadlines(action, attempt, observed), now)
  {
    hide Least, IdleLimits, Milestones, IdleDeadlines, Since;
    var elapsed := Since(attempt.startedAt, now);
    var remaining := if action.timeoutSeconds > 0.0 then [action.timeoutSeconds - elapsed] else [];
    ghost var first := if action.timeoutSeconds > 0.0 then [Deadline(action.timeoutSeconds, attempt.startedAt)] else [];
    var milestones := LeftUntilMilestones(action.expectations, observed, attempt.startedAt, now);
    var idle := LeftUntilIdle(IdleLimits(action.expectations), ProgressStamp(attempt), now);
    LeftConcat(first, Milestones(action.expectations, observed, attempt.startedAt), now);
    LeftConcat(first + Milestones(action.expectations, observed, attempt.startedAt),
               IdleDeadlines(IdleLimits(action.expectations), ProgressStamp(attempt)), now);
    assert remaining == LeftOf(first, now);
    remaining := remaining + milestones + idle;
    seconds := if remaining != [] then MaxReal(0.0, Least(remaining)) else 0.25;
  }

  lemma LeftConcat(a: seq<Deadline>, b: seq<Deadline>, now: real)
    ensures LeftOf(a + b, now) == LeftOf(a, now) + LeftOf(b, now)
  {
  }

  method LeftUntilMilestones(expectations: seq<Expectation>, observed: set<string>, stamp: Stamp, now: real) returns (remaining: seq<real>)
    ensures remaining == LeftOf(Milestones(expectations, observed, stamp), now)
  {
    var elapsed := Since(stamp, now);
    remaining := [];
    var k := 0;
    while k < |expectations|
      invariant 0 <= k <= |expectations|
      invariant remaining == LeftOf(Milestones(expectations[..k], observed, stamp), now)
    {
      assert expectations[..k + 1] == expectations[..k] + [expectations[k]];
      MilestonesAppend(expectations[..k], expectations[k], observed, stamp);
      var e := expectations[k];
      if e.terminal && e.timeoutSeconds > 0.0 && e.eventType !in observed {
        LeftAppend(Milestones(expectations[..k], observed, stamp), Deadline(e.timeoutSeconds, stamp), now);
        remaining := remaining + [e.timeoutSeconds - elapsed];
      }
      k := k + 1;
    }
    assert expectations[..k] == expectations;
  }

  method LeftUntilIdle(limits: seq<real>, stamp: Stamp, now: real) returns (remaining: seq<real>)
    ensures remaining == LeftOf(IdleDeadlines(limits, stamp), now)
  {
    var idle := Since(stamp, now);
    remaining := [];
    var k := 0;
    while k < |limits|
      invariant 0 <= k <= |limits|
      invariant |remaining| == k && forall i :: 0 <= i < k ==> remaining[i] == limits[i] - idle
    {
      remaining := remaining + [limits[k] - idle];
      k := k + 1;
    }
  }

  lemma LeftAppend(ds: seq<Deadline>, d: Deadline, now: real)
    ensures LeftOf(ds + [d], now) == LeftOf(ds, now) + [Left(d, now)]
  {
  }

  /** A limit and the stamp it is counted from. */
  datatype Deadline = Deadline(limit: real, stamp: Stamp)

  function Milestones(expectations: seq<Expectation>, observed: set<string>, stamp: Stamp): seq<Deadline>
  {
    if expectations == [] then []
    else
      Milestones(expectations[..|expectations| - 1], observed, stamp)
        + if Pending(expectations[|expectations| - 1], observed) then [Deadline(expectations[|expectations| - 1].timeoutSeconds, stamp)] else []
  }

  lemma MilestonesAppend(expectations: seq<Expectation>, e: Expectation, observed: set<string>, stamp: Stamp)
    ensures Milestones(expectations + [e], observed, stamp)
      == Milestones(expectations, observed, stamp) + if Pending(e, observed) then [Deadline(e.timeoutSeconds, stamp)] else []
  {
    assert (expectations + [e])[..|expectations|] == expectations;
  }

  function IdleDeadlines(limits: seq<real>, stamp: Stamp): seq<Deadline>
  {
    seq(|limits|, i requires 0 <= i < |limits| => Deadline(limits[i], stamp))
  }

  /** All deadlines of an action that has not yet shown the observed milestones. */
  function Deadlines(action: ActionSpec, attempt: ActionAttempt, observed: set<string>): seq<Deadline>
  {
    (if action.timeoutSeconds > 0.0 then [Deadline(action.timeoutSeconds, attempt.startedAt)] else [])
      + Milestones(action.expectations, observed, attempt.startedAt)
      + IdleDeadlines(IdleLimits(action.expectations), ProgressStamp(attempt))
  }

  function Left(d: Deadline, now: real): real
  {
    d.limit - Since(d.stamp, now)
  }

  function LeftOf(ds: seq<Deadline>, now: real): seq<real>
  {
    seq(|ds|, i requires 0 <= i < |ds| => Left(ds[i], now))
  }

  /** How long the supervisor sleeps at most. */
  function SleepLimit(ds: seq<Deadline>, now: real): real
  {
    if ds == [] then 0.25 else MaxReal(0.0, Least(LeftOf(ds, now)))
  }

  // ----- What the watchdog reports depends on the deadlines alone -----

  /** The deadline has passed. */
  predicate Passed(d: Deadline, now: real)
  {
    Since(d.stamp, now) >= d.limit
  }

  ghost predicate SomePassed(ds: seq<Deadline>, now: real)
  {
    exists d :: d in ds && Passed(d, now)
  }

  lemma {:induction false} LeastIs(xs: seq<real>)
    requires xs != []
    ensures Least(xs) in xs && forall x :: x in xs ==> Least(xs) <= x
  {
    if |xs| > 1 {
      LeastIs(xs[1..]);
      assert forall x :: x in xs ==> x == xs[0] || x in xs[1..];
    }
  }

  lemma {:induction false} MilestonesAre(expectations: seq<Expectation>, observed: set<string>, stamp: Stamp)
    ensures forall d :: d in Milestones(expectations, observed, stamp) <==>
      d.stamp == stamp && exists i :: 0 <= i < |expectations| && Pending(expectations[i], observed) && expectations[i].timeoutSeconds == d.limit
  {
    if expectations != [] {
      var front, last := expectations[..|expectations| - 1], expectations[|expectations| - 1];
      MilestonesAre(front, observed, stamp);
      forall d ensures d in Milestones(expectations, observed, stamp) <==>
        d.stamp == stamp && exists i :: 0 <= i < |expectations| && Pending(expectations[i], observed) && expectations[i].timeoutSeconds == d.limit
      {
        if i :| 0 <= i < |expectations| && Pending(expectations[i], observed) && expectations[i].timeoutSeconds == d.limit {
          assert i < |front| ==> front[i] == expectations[i];
        }
        if i :| 0 <= i < |front| && Pending(front[i], observed) && front[i].timeoutSeconds == d.limit {
          assert expectations[i] == front[i];
        }
      }
    }
  }

  lemma OverdueIs(expectations: seq<Expectation>, observed: set<string>, stamp: Stamp, now: real)
    ensures Overdue(expectations, observed, Since(stamp, now)) != {} <==> SomePassed(Milestones(expectations, observed, stamp), now)
  {
    MilestonesAre(expectations, observed, stamp);
    hide Milestones;
    var overdue := Overdue(expectations, observed, Since(stamp, now));
    if overdue != {} {
      var x :| x in overdue;
      var i :| 0 <= i < |expectations| && Pending(expectations[i], observed) && Since(stamp, now) >= expectations[i].timeoutSeconds;
      assert Passed(Deadline(expectations[i].timeoutSeconds, stamp), now);
      assert Deadline(expectations[i].timeoutSeconds, stamp) in Milestones(expectations, observed, stamp);
    }
    if SomePassed(Milestones(expectations, observed, stamp), now) {
      var d :| d in Milestones(expectations, observed, stamp) && Passed(d, now);
      var i :| 0 <= i < |expectations| && Pending(expectations[i], observed) && expectations[i].timeoutSeconds == d.limit;
      assert expectations[i].eventType in overdue;
    }
  }

  lemma IdleIs(limits: seq<real>, stamp: Stamp, now: real)
    ensures limits != [] && Since(stamp, now) >= Least(limits) <==> SomePassed(IdleDeadlines(limits, stamp), now)
  {
    if limits != [] {
      LeastIs(limits);
      var k :| 0 <= k < |limits| && limits[k] == Least(limits);
      assert IdleDeadlines(limits, stamp)[k] == Deadline(limits[k], stamp);
      hide Least;
      if Since(stamp, now) >= Least(limits) {
        assert Passed(IdleDeadlines(limits, stamp)[k], now);
      }
      if SomePassed(IdleDeadlines(limits, stamp), now) {
        var d :| d in IdleDeadlines(limits, stamp) && Passed(d, now);
        var i :| 0 <= i < |limits| && IdleDeadlines(limits, stamp)[i] == d;
        assert limits[i] in limits;
      }
    }
  }

  lemma SomePassedConcat(a: seq<Deadline>, b: seq<Deadline>, now: real)
    ensures SomePassed(a + b, now) <==> SomePassed(a, now) || SomePassed(b, now)
  {
    if SomePassed(a, now) {
      var d :| d in a && Passed(d, now);
      assert d in a + b;
    }
    if SomePassed(b, now) {
      var d :| d in b && Passed(d, now);
      assert d in a + b;
    }
  }

  /** For a reachable device the watchdog reports an incident exactly when some deadline has passed. */
  lemma IncidentIsPassedDeadline(action: ActionSpec, attempt: ActionAttempt, observed: set<string>, now: real)
    ensures Evaluate(action, attempt, observed, true, now).Some? <==> SomePassed(Deadlines(action, attempt, observed), now)
  {
    var first := if action.timeoutSeconds > 0.0 then [Deadline(action.timeoutSeconds, attempt.startedAt)] else [];
    var milestones := Milestones(action.expectations, observed, attempt.startedAt);
    var idle := IdleDeadlines(IdleLimits(action.expectations), ProgressStamp(attempt));
    OverdueIs(action.expectations, observed, attempt.startedAt, now);
    IdleIs(IdleLimits(action.expectations), ProgressStamp(attempt), now);
    SomePassedConcat(first, milestones, now);
    SomePassedConcat(first + milestones, idle, now);
    assert SomePassed(first, now) <==> action.timeoutSeconds > 0.0 && Since(attempt.startedAt, now) >= action.timeoutSeconds by {
      if action.timeoutSeconds > 0.0 {
        assert first[0] in first;
      }
    }
    hide Milestones, IdleDeadlines, IdleLimits, Overdue, Least;
  }

  // ----- The supervisor never sleeps past a deadline -----

  /** The deadline is counted from a moment that has been read and is not in the future. */
  predicate Counted(d: Deadline, now: real)
  {
    d.stamp.At? && d.stamp.time <= now
  }

  lemma PositiveIdle(expectations: seq<Expectation>)
    ensures forall x :: x in IdleLimits(expectations) ==> x > 0.0
  {
  }

  lemma PositiveLimits(action: ActionSpec, attempt: ActionAttempt, observed: set<string>)
    ensures forall d :: d in Deadlines(action, attempt, observed) ==> d.limit > 0.0
  {
    MilestonesAre(action.expectations, observed, attempt.startedAt);
    PositiveIdle(action.expectations);
    var limits := IdleLimits(action.expectations);
    hide Milestones, IdleLimits;
    forall d | d in IdleDeadlines(limits, ProgressStamp(attempt)) ensures d.limit > 0.0 {
      var i :| 0 <= i < |limits| && IdleDeadlines(limits, ProgressStamp(attempt))[i] == d;
      assert limits[i] in limits;
    }
  }

  /** A deadline passes no earlier than the time left until it says, and exactly then if it is counted. */
  lemma PassesWhenDue(d: Deadline, now: real, s: real)
    requires s >= 0.0 && d.limit > 0.0
    ensures Passed(d, now + s) ==> s >= Left(d, now)
    ensures Counted(d, now) ==> (Passed(d, now + s) <==> s >= Left(d, now))
    ensures !Counted(d, now) && s <= MaxReal(0.0, Left(d, now)) ==> !Passed(d, now + s)
  {
  }

  lemma LimitIsLeast(ds: seq<Deadline>, now: real)
    requires ds != []
    ensures forall d :: d in ds ==> SleepLimit(ds, now) <= MaxReal(0.0, Left(d, now))
    ensures exists d :: d in ds && SleepLimit(ds, now) == MaxReal(0.0, Left(d, now))
  {
    LeastIs(LeftOf(ds, now));
    hide Least;
    var k :| 0 <= k < |ds| && LeftOf(ds, now)[k] == Least(LeftOf(ds, now));
    assert ds[k] in ds && SleepLimit(ds, now) == MaxReal(0.0, Left(ds[k], now));
    forall d | d in ds ensures SleepLimit(ds, now) <= MaxReal(0.0, Left(d, now)) {
      var i :| 0 <= i < |ds| && ds[i] == d;
      assert LeftOf(ds, now)[i] in LeftOf(ds, now);
    }
  }

  /** Whatever the stamps are, no incident arises before the supervisor wakes up again. */
  lemma NeverSleepsPast(action: ActionSpec, attempt: ActionAttempt, observed: set<string>, now: real, s: real)
    requires 0.0 <= s < SleepLimit(Deadlines(action, attempt, observed), now)
    ensures Evaluate(action, attempt, observed, true, now + s) == None
  {
    var ds := Deadlines(action, attempt, observed);
    IncidentIsPassedDeadline(action, attempt, observed, now + s);
    PositiveLimits(action, attempt, observed);
    hide Deadlines, Evaluate, SleepLimit;
    forall d | d in ds ensures !Passed(d, now + s) {
      LimitIsLeast(ds, now);
      PassesWhenDue(d, now, s);
    }
  }

  /** The watchdog reports an incident of a reachable device s seconds from now. */
  predicate ReportsAfter(action: ActionSpec, attempt: ActionAttempt, observed: set<string>, now: real, s: real)
  {
    Evaluate(action, attempt, observed, true, now + s).Some?
  }

  /** A nearest deadline is counted. */
  ghost predicate NearestCounted(ds: seq<Deadline>, now: real)
  {
    exists d :: d in ds && Counted(d, now) && MaxReal(0.0, Left(d, now)) == SleepLimit(ds, now)
  }

  /** The calculation is exact, that is, the watchdog reports an incident after s seconds if and only if s is at least the
      calculated time, exactly when a nearest deadline is counted from a moment that has been read and is not in the
      future. */
  lemma CalculationIsExact(action: ActionSpec, attempt: ActionAttempt, observed: set<string>, now: real)
    ensures var ds := Deadlines(action, attempt, observed);
      NearestCounted(ds, now) <==>
        forall s: real :: s >= 0.0 ==> (ReportsAfter(action, attempt, observed, now, s) <==> s >= SleepLimit(ds, now))
  {
    var ds := Deadlines(action, attempt, observed);
    var limit := SleepLimit(ds, now);
    if NearestCounted(ds, now) {
      forall s: real | s >= 0.0 ensures ReportsAfter(action, attempt, observed, now, s) <==> s >= limit {
        IncidentWhenDue(action, attempt, observed, now, s);
      }
    } else {
      NoIncidentWhenDue(action, attempt, observed, now);
      assert limit >= 0.0 && !ReportsAfter(action, attempt, observed, now, limit);
    }
  }

  /** A single limit counted from a stamp that is absent, unreadable or in the future: when the calculated time is over,
      there is no incident yet. */
  lemma UncountedIsMissed(limit: real, stamp: Stamp, now: real)
    requires limit > 0.0 && (stamp.At? ==> stamp.time > now)
    ensures var action, attempt := ActionSpec(limit, []), ActionAttempt(stamp, Missing);
      SleepLimit(Deadlines(action, attempt, {}), now) == limit && !ReportsAfter(action, attempt, {}, now, limit)
  {
    var action, attempt := ActionSpec(limit, []), ActionAttempt(stamp, Missing);
    var ds := Deadlines(action, attempt, {});
    assert ds == [Deadline(limit, stamp)];
    assert LeftOf(ds, now) == [Left(ds[0], now)];
    assert Overdue(action.expectations, {}, Since(stamp, now + limit)) == {};
  }

  lemma IncidentWhenDue(action: ActionSpec, attempt: ActionAttempt, observed: set<string>, now: real, s: real)
    requires s >= 0.0 && NearestCounted(Deadlines(action, attempt, observed), now)
    ensures Evaluate(action, attempt, observed, true, now + s).Some? <==> s >= SleepLimit(Deadlines(action, attempt, observed), now)
  {
    var ds := Deadlines(action, attempt, observed);
    PositiveLimits(action, attempt, observed);
    IncidentIsPassedDeadline(action, attempt, observed, now + s);
    if s < SleepLimit(ds, now) {
      NeverSleepsPast(action, attempt, observed, now, s);
    }
    hide Deadlines, Evaluate, SleepLimit;
    if s >= SleepLimit(ds, now) {
      var d :| d in ds && Counted(d, now) && MaxReal(0.0, Left(d, now)) == SleepLimit(ds, now);
      PassesWhenDue(d, now, s);
    }
  }

  lemma NoIncidentWhenDue(action: ActionSpec, attempt: ActionAttempt, observed: set<string>, now: real)
    requires !NearestCounted(Deadlines(action, attempt, observed), now)
    ensures SleepLimit(Deadlines(action, attempt, observed), now) >= 0.0
    ensures Evaluate(action, attempt, observed, true, now + SleepLimit(Deadlines(action, attempt, observed), now)) == None
  {
    var ds := Deadlines(action, attempt, observed);
    var limit := SleepLimit(ds, now);
    PositiveLimits(action, attempt, observed);
    IncidentIsPassedDeadline(action, attempt, observed, now + limit);
    assert limit >= 0.0;
    hide Deadlines, Evaluate, SleepLimit;
    forall d | d in ds ensures !Passed(d, now + limit) {
      LimitIsLeast(ds, now);
      PassesWhenDue(d, now, limit);
    }
  }

  // ----- The polling loop -----

  datatype Outcome = HandlerEnded(time: real) | TimedOut(time: real, incident: Incident)

  /** No round of the loop is shorter than this, unless it is the last. */
  function Shortest(ds: seq<Deadline>, poll: real): real
  {
    if ds == [] then MinReal(poll, 0.25) else MinReal(ds[0].limit, Shortest(ds[1..], poll))
  }

  lemma {:induction false} ShortestIs(ds: seq<Deadline>, poll: real)
    requires poll > 0.0 && forall d :: d in ds ==> d.limit > 0.0
    ensures 0.0 < Shortest(ds, poll) <= poll && Shortest(ds, poll) <= 0.25 && forall d :: d in ds ==> Shortest(ds, poll) <= d.limit
  {
    if ds != [] {
      ShortestIs(ds[1..], poll);
      assert forall d :: d in ds ==> d == ds[0] || d in ds[1..];
    }
  }

  /** A round after which nothing has passed takes at least the shortest time. */
  lemma RoundIsLong(action: ActionSpec, attempt: ActionAttempt, observed: set<string>, now: real, poll: real)
    requires poll > 0.0
    requires Evaluate(action, attempt, observed, true, now + MinReal(poll, SleepLimit(Deadlines(action, attempt, observed), now))) == None
    ensures var ds := Deadlines(action, attempt, observed);
      MinReal(poll, SleepLimit(ds, now)) >= Shortest(ds, poll) > 0.0
  {
    var ds := Deadlines(action, attempt, observed);
    var limit := SleepLimit(ds, now);
    PositiveLimits(action, attempt, observed);
    ShortestIs(ds, poll);
    assert limit >= 0.0;
    if limit < poll {
      if NearestCounted(ds, now) {
        IncidentWhenDue(action, attempt, observed, now, limit);
      }
      hide Deadlines, Evaluate, Shortest;
      if ds != [] {
        LimitIsLeast(ds, now);
        var d :| d in ds && limit == MaxReal(0.0, Left(d, now));
        assert !Counted(d, now);
      }
    }
  }

  lemma OneRoundLess(n: nat, round: real)
    requires n > 0
    ensures ((n - 1) as real) * round == (n as real) * round - round
  {
  }

  lemma EnoughRounds(time: real, round: real) returns (n: nat)
    requires time >= 0.0 && round > 0.0
    ensures time <= (n as real) * round
  {
    n := (time / round).Floor + 1;
    var quotient := time / round;
    assert quotient * round == time;
    assert quotient <= n as real;
    Scaled(quotient, n as real, round);
  }

  lemma Scaled(a: real, b: real, c: real)
    requires a <= b && c > 0.0
    ensures a * c <= b * c
  {
  }

  /** Supervises a handler that ends at a given time and emits no events, on a reachable device: the handler is left alone
      until it ends, or is cut off at the very first moment at which the watchdog reports an incident. */
  method Supervise(action: ActionSpec, attempt: ActionAttempt, observed: set<string>, start: real, pollSeconds: real, finish: real)
    returns (r: Outcome)
    requires start <= finish
    ensures r.HandlerEnded? ==> r.time == finish
    ensures r.TimedOut? ==> start <= r.time < finish && Evaluate(action, attempt, observed, true, r.time) == Some(r.incident)
    ensures forall u :: start <= u < r.time ==> Evaluate(action, attempt, observed, true, u) == None
  {
    hide Evaluate, Deadlines, SleepLimit, Shortest;
    var poll := MaxReal(0.01, pollSeconds);
    var now := start;
    ghost var ds := Deadlines(action, attempt, observed);
    PositiveLimits(action, attempt, observed);
    ShortestIs(ds, poll);
    ghost var round := Shortest(ds, poll);
    ghost var n := EnoughRounds(finish - start, round);
    while now < finish
      invariant start <= now <= finish && finish - now <= (n as real) * round
      invariant forall u :: start <= u < now ==> Evaluate(action, attempt, observed, true, u) == None
      decreases n
    {
      var seconds := SecondsUntilWatchdog(action, attempt, observed, now);
      var wait := MinReal(poll, seconds);
      LimitIsNatural(ds, now);
      forall u | now <= u < now + wait ensures Evaluate(action, attempt, observed, true, u) == None {
        NeverSleepsPast(action, attempt, observed, now, u - now);
        assert now + (u - now) == u;
      }
      if now + wait >= finish {
        return HandlerEnded(finish);
      }
      var incident := Evaluate(action, attempt, observed, true, now + wait);
      if incident.Some? {
        return TimedOut(now + wait, incident.value);
      }
      RoundIsLong(action, attempt, observed, now, poll);
      NonZero(n, round, finish - now);
      OneRoundLess(n, round);
      now, n := now + wait, n - 1;
    }
    return HandlerEnded(finish);
  }

  lemma LimitIsNatural(ds: seq<Deadline>, now: real)
    ensures SleepLimit(ds, now) >= 0.0
  {
  }

  lemma NonZero(n: nat, round: real, time: real)
    requires 0.0 < time <= (n as real) * round
    ensures n > 0
  {
  }
}
