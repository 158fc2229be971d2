/**
  The lock protocol against the clock: a wait lasts from one second to one second and the
  latency, and every other gap between two steps of `acquire` at most the latency. How late
  after `createLock` can the document go in, and when has its lease run out by then?
 */
module TimedLocks {
  import opened Prelude
  import opened LockProtocol
  import opened Runs

  /** A state, and since when each session is where it is. */
  datatype Timed = Timed(s: State, since: map<nat, int>)

  /** The session need not have moved on by `now`; holders and finished sessions never need to. */
  predicate InTime(session: Session, since: int, now: int, latency: nat) {
    match session.pc
    case Sleeping(_, _) => now <= since + LOCK_WAIT_MILLIS + latency
    case Holding => true
    case Finished => true
    case _ => now <= since + latency
  }

  predicate Timely(t: Timed, a: Action, latency: nat) {
    match a
    case Tick(d) =>
      forall p <- t.s.sessions :: p in t.since && InTime(t.s.sessions[p], t.since[p], t.s.now + d, latency)
    case Begin(_, lock, _) => lock.timestamp == t.s.now
    case Act(p, m) => m.Wake? ==> p in t.since && t.since[p] + LOCK_WAIT_MILLIS <= t.s.now
  }

  function After(t: Timed, a: Action): Timed
    requires Enabled(t.s, a)
  {
    Timed(Apply(t.s, a),
          match a
          case Tick(_) => t.since
          case Begin(p, _, _) => t.since[p := t.s.now]
          case Act(p, _) => t.since[p := t.s.now])
  }

  ghost predicate TimedStep(t: Timed, u: Timed, latency: nat) {
    exists a :: Enabled(t.s, a) && Timely(t, a, latency) && u == After(t, a)
  }

  ghost function TimedSteps(latency: nat): (Timed, Timed) -> bool {
    (t, u) => TimedStep(t, u, latency)
  }

  ghost predicate IsTimedRun(run: seq<Timed>, latency: nat) {
    Follows(TimedSteps(latency), run) && Init(run[0].s)
  }

  ghost predicate Reachable(t: Timed, latency: nat) {
    exists run :: IsTimedRun(run, latency) && run[|run| - 1] == t
  }

  lemma Next(t: Timed, a: Action, latency: nat)
    requires Reachable(t, latency) && Enabled(t.s, a) && Timely(t, a, latency)
    ensures Reachable(After(t, a), latency)
  {
    var u := After(t, a);
    var run :| IsTimedRun(run, latency) && run[|run| - 1] == t;
    assert TimedStep(t, u, latency);
    Longer(TimedSteps(latency), run, u);
    assert IsTimedRun(run + [u], latency);
  }

  // ---------------------------------------------------------------------------------
  // The latest insert
  // ---------------------------------------------------------------------------------

  /** The latest end of the k-th wait of a round, from the start of the round. */
  function PollMax(k: nat, latency: nat): nat {
    if k == 0 then 0 else PollMax(k - 1, latency) + LOCK_WAIT_MILLIS + 2 * latency
  }

  function Min(a: int, b: int): int {
    if a < b then a else b
  }

  /** The latest end of a wait after which the round goes on to insert again. */
  function LastPoll(timeoutSecs: int, latency: nat): (r: nat) {
    if timeoutSecs <= 0 then 0 else Min(PollMax(timeoutSecs - 1, latency), timeoutSecs * 1000 - 1)
  }

  /** The latest end of a round that does not get the lock. */
  function RoundEnd(timeoutSecs: int, latency: nat): nat {
    if timeoutSecs <= 0 then latency else LastPoll(timeoutSecs, latency) + LOCK_WAIT_MILLIS + 2 * latency
  }

  /**
    The latest insert after `createLock`, in milliseconds: a first round, the four steps that
    break an expired lock, and a second round up to its last insert.
   */
  function LatestInsert(timeoutSecs: int, latency: nat): nat {
    RoundEnd(timeoutSecs, latency) + LastPoll(timeoutSecs, latency) + 6 * latency
  }

  lemma {:induction false} PollMaxGrows(k: nat, l: nat, latency: nat)
    requires k <= l
    ensures PollMax(k, latency) <= PollMax(l, latency) && l * 1000 <= PollMax(l, latency)
    decreases l
  {
    if k < l {
      PollMaxGrows(k, l - 1, latency);
    } else if l > 0 {
      PollMaxGrows(l - 1, l - 1, latency);
    }
  }

  lemma {:induction false} PollMaxIs(k: nat, latency: nat)
    ensures PollMax(k, latency) == k * (1000 + 2 * latency)
  {
    if k > 0 {
      PollMaxIs(k - 1, latency);
    }
  }

  lemma LatestInsertIs(timeoutSecs: int, latency: nat)
    ensures timeoutSecs <= 0 ==> LatestInsert(timeoutSecs, latency) == 7 * latency
    ensures timeoutSecs > 0 ==>
              LatestInsert(timeoutSecs, latency) ==
                1000 + 8 * latency + 2 * Min((timeoutSecs - 1) * (1000 + 2 * latency), timeoutSecs * 1000 - 1)
  {
    if timeoutSecs > 0 {
      PollMaxIs(timeoutSecs - 1, latency);
    }
  }

  // ---------------------------------------------------------------------------------
  // No insert is later
  // ---------------------------------------------------------------------------------

  /** `k` waits of a round can end `w` milliseconds after its start. */
  predicate Polled(k: nat, w: int, latency: nat) {
    k * 1000 <= w <= PollMax(k, latency)
  }

  /** The round has come to an insert at `w`: its first, or one after a wait that ended in time. */
  ghost predicate Polls(w: int, timeoutSecs: int, latency: nat) {
    (w == 0 || w < timeoutSecs * 1000) && exists k: nat :: Polled(k, w, latency)
  }

  lemma PollsEarly(w: int, timeoutSecs: int, latency: nat)
    requires Polls(w, timeoutSecs, latency)
    ensures 0 <= w <= LastPoll(timeoutSecs, latency)
  {
    var k: nat :| Polled(k, w, latency);
    if w > 0 {
      assert k * 1000 < timeoutSecs * 1000;
      PollMaxGrows(k, timeoutSecs - 1, latency);
    }
  }

  /** The latest start of a round, after `createLock`. */
  function RoundStart(retry: bool, timeoutSecs: int, latency: nat): nat {
    if retry then latency else RoundEnd(timeoutSecs, latency) + 5 * latency
  }

  /** How old the lock of a session can be when the session comes to where it is. */
  ghost predicate Aged(session: Session, since: int, latency: nat) {
    var timeoutSecs := session.timeoutSecs;
    var age := since - session.lock.timestamp;
    var end := RoundEnd(timeoutSecs, latency);
    match session.pc
    case Starting(retry) => age + latency <= RoundStart(retry, timeoutSecs, latency)
    case Inserting(retry, until) =>
      var start := until - timeoutSecs * 1000;
      && start - session.lock.timestamp <= RoundStart(retry, timeoutSecs, latency)
      && Polls(since - start, timeoutSecs, latency)
    case Sleeping(retry, until) =>
      var start := until - timeoutSecs * 1000;
      && start - session.lock.timestamp <= RoundStart(retry, timeoutSecs, latency)
      && timeoutSecs > 0
      && exists w :: Polls(w, timeoutSecs, latency) && w <= since - start <= w + latency
    case Refused(retry) => retry ==> age <= end + latency
    case Checking(_, _) => age <= end + 2 * latency
    case Deleting => age <= end + 3 * latency
    case Holding => age <= LatestInsert(timeoutSecs, latency)
    case Finished => true
  }

  lemma MoveKeepsAged(now: int, stored: Option<Document>, session: Session, since: int, m: Move, latency: nat)
    requires CanMove(stored, session, m) && Aged(session, since, latency)
    requires since <= now && InTime(session, since, now, latency)
    requires m.Wake? ==> since + LOCK_WAIT_MILLIS <= now
    ensures Aged(session.(pc := PcAfter(now, stored, session, m)), now, latency)
  {
    if m.Start? {
      assert Polled(0, 0, latency);
    } else if session.pc.Inserting? && !m.Crash? {
      InsertKeepsAged(now, stored, session, since, m, latency);
    } else if m.Wake? {
      WakeKeepsAged(now, stored, session, since, latency);
    }
  }

  lemma InsertKeepsAged(now: int, stored: Option<Document>, session: Session, since: int, m: Move, latency: nat)
    requires session.pc.Inserting? && (m.Insert? || m.InsertFails? || m.InsertUnreported?)
    requires CanMove(stored, session, m) && Aged(session, since, latency)
    requires since <= now <= since + latency
    ensures Aged(session.(pc := PcAfter(now, stored, session, m)), now, latency)
  {
    var start := session.pc.until - session.timeoutSecs * 1000;
    PollsEarly(since - start, session.timeoutSecs, latency);
    assert Polls(since - start, session.timeoutSecs, latency);
    assert since - start <= now - start <= since - start + latency;
  }

  lemma WakeKeepsAged(now: int, stored: Option<Document>, session: Session, since: int, latency: nat)
    requires session.pc.Sleeping? && Aged(session, since, latency)
    requires since + LOCK_WAIT_MILLIS <= now <= since + LOCK_WAIT_MILLIS + latency
    ensures Aged(session.(pc := PcAfter(now, stored, session, Wake)), now, latency)
  {
    var start := session.pc.until - session.timeoutSecs * 1000;
    var w :| Polls(w, session.timeoutSecs, latency) && w <= since - start <= w + latency;
    PollsEarly(w, session.timeoutSecs, latency);
    var k: nat :| Polled(k, w, latency);
    assert Polled(k + 1, now - start, latency);
  }

  ghost predicate SessionInTime(t: Timed, p: nat, latency: nat)
    requires p in t.s.sessions
  {
    && p in t.since && t.since[p] <= t.s.now
    && InTime(t.s.sessions[p], t.since[p], t.s.now, latency)
    && Aged(t.s.sessions[p], t.since[p], latency)
  }

  ghost predicate TimedInv(t: Timed, latency: nat) {
    forall p <- t.s.sessions :: SessionInTime(t, p, latency)
  }

  lemma TimedActionKeepsInv(t: Timed, a: Action, latency: nat)
    requires TimedInv(t, latency) && Enabled(t.s, a) && Timely(t, a, latency)
    ensures TimedInv(After(t, a), latency)
  {
    var u := After(t, a);
    forall p | p in u.s.sessions
      ensures SessionInTime(u, p, latency)
    {
      if p in t.s.sessions {
        assert SessionInTime(t, p, latency);
      }
      if a == Act(p, if a.Act? then a.move else Crash) {
        MoveKeepsAged(t.s.now, Stored(t.s, t.s.sessions[p].lock.id), t.s.sessions[p], t.since[p], a.move, latency);
      }
    }
  }

  lemma {:induction false} TimedInvOverRuns(run: seq<Timed>, k: nat, latency: nat)
    requires IsTimedRun(run, latency) && k < |run|
    ensures TimedInv(run[k], latency)
  {
    if k > 0 {
      TimedInvOverRuns(run, k - 1, latency);
      assert StepAt(TimedSteps(latency), run, k - 1);
      var a :| Enabled(run[k - 1].s, a) && Timely(run[k - 1], a, latency) && run[k] == After(run[k - 1], a);
      TimedActionKeepsInv(run[k - 1], a, latency);
    }
  }

  /** A session with that validity and timeout holds, and its lease had run out when its document went in. */
  predicate InsertedStale(t: Timed, p: nat, validitySecs: int, timeoutSecs: int) {
    && Holds(t.s, p) && p in t.since
    && t.s.sessions[p].timeoutSecs == timeoutSecs
    && t.s.sessions[p].lock.expiration == Lease(t.s.sessions[p].lock.timestamp, validitySecs)
    && Expired(t.s.sessions[p].lock, t.since[p])
  }

  lemma StaleOnlyIfLate(t: Timed, p: nat, validitySecs: int, timeoutSecs: int, latency: nat)
    requires Reachable(t, latency) && InsertedStale(t, p, validitySecs, timeoutSecs)
    ensures 0 < validitySecs && validitySecs * 1000 < LatestInsert(timeoutSecs, latency)
  {
    var run :| IsTimedRun(run, latency) && run[|run| - 1] == t;
    TimedInvOverRuns(run, |run| - 1, latency);
    assert SessionInTime(t, p, latency);
  }
}
