/**
  Two sweeps that fetch one pending task, at latency 0 and with no call that fails: one run in
  which the second runs it after it has succeeded, and one in which it takes longer than the
  lease of its lock and both run it at once.
 */
module SweepWitnesses {
  import opened Prelude
  import opened Runs
  import opened AsyncTaskManager
  import L = LockProtocol
  import opened TimedLocks
  import opened SweepOverlap

  /** Whether lock actions of an event are made without any delay. */
  ghost predicate Prompt(s: Shared, e: Event) {
    CanHappen(s, e) && (LockAction(s, e).Some? ==> Timely(s.locks, LockAction(s, e).value, 0))
  }

  ghost predicate PromptStep(s: Shared, t: Shared) {
    exists e :: Prompt(s, e) && t == Following(s, e)
  }

  /** The side conditions of the lock; (a) only if wanted. */
  ghost predicate Kept(s: L.State, careful: bool) {
    (careful ==> L.LeasesLive(s)) && L.OneBreaker(s) && L.ChecksPrompt(s)
  }

  ghost predicate IsRunTo(run: seq<Shared>, s: Shared, careful: bool) {
    && Follows(PromptStep, run) && AtFirst(run[0]) && run[|run| - 1] == s
    && forall i :: 0 <= i < |run| ==> Kept(run[i].locks.s, careful)
  }

  ghost predicate Reached(s: Shared, careful: bool) {
    exists run :: IsRunTo(run, s, careful)
  }

  lemma Then(s: Shared, e: Event, careful: bool)
    requires Reached(s, careful) && Prompt(s, e) && Kept(Following(s, e).locks.s, careful)
    ensures Reached(Following(s, e), careful)
  {
    var t := Following(s, e);
    var run :| IsRunTo(run, s, careful);
    assert PromptStep(s, t);
    Longer(PromptStep, run, t);
    assert IsRunTo(run + [t], t, careful);
  }

  /** Prompt runs are among the runs of SweepOverlap. */
  ghost predicate Swept(s: Shared) {
    exists run :: IsSweepRun(run) && run[|run| - 1] == s
  }

  lemma ReachedIsSwept(s: Shared, careful: bool)
    requires Reached(s, careful)
    ensures Swept(s)
  {
    var run :| IsRunTo(run, s, careful);
    assert forall i :: 0 <= i < |run| - 1 ==> StepAt(PromptStep, run, i) ==> StepAt(SweepStep, run, i);
    assert IsSweepRun(run);
  }

  // ---------------------------------------------------------------------------------
  // Two handlings of task 7
  // ---------------------------------------------------------------------------------

  function Two<T>(one: Option<T>, two: Option<T>): map<nat, T> {
    (if one.Some? then map[1 := one.value] else map[]) + (if two.Some? then map[2 := two.value] else map[])
  }

  function Docs(doc: Option<L.Document>): map<L.Digest, L.Document> {
    if doc.Some? then map[7 := doc.value] else map[]
  }

  lemma DocsPut(doc: Option<L.Document>, after: Option<L.Document>)
    ensures L.Store(Docs(doc), 7, after) == Docs(after)
  {
  }

  function RunsMap(runs: nat): map<L.Digest, nat> {
    if runs == 0 then map[] else map[7 := runs]
  }

  lemma StatusPut(status: Status, after: Status)
    ensures map[7 := status][7 := after] == map[7 := after]
  {
  }

  lemma RunsPut(runs: nat, after: nat)
    requires after > 0
    ensures RunsMap(runs)[7 := after] == RunsMap(after)
  {
  }

  lemma TwoPut<T>(one: Option<T>, two: Option<T>, who: nat, x: T)
    requires who in {1, 2}
    ensures Two(one, two)[who := x] == if who == 1 then Two(Some(x), two) else Two(one, Some(x))
  {
  }

  /** A handling, its session once it asks for the lock, and since when that is where it is. */
  datatype Hand = Hand(pc: Pc, ran: bool, session: Option<L.Session>, since: int) {
    predicate Holding() {
      session.Some? && session.value.pc.Holding?
    }

    function Since(): Option<int> {
      if session.Some? then Some(since) else None
    }

    function Handling(): Handling {
      SweepOverlap.Handling(7, pc, 0, ran)
    }

    /** Time may pass. */
    predicate Rests() {
      session.None? || session.value.pc.Holding? || session.value.pc.Finished?
    }
  }

  datatype Pair = Pair(status: Status, now: int, doc: Option<L.Document>, one: Hand, two: Hand, runs: nat) {
    function World(): Shared {
      Shared(
        map[7 := status],
        Locks(),
        Two(Some(one.Handling()), Some(two.Handling())),
        RunsMap(runs), 0)
    }

    function Locks(): Timed {
      Timed(L.State(now, Docs(doc), Two(one.session, two.session)), Two(one.Since(), two.Since()))
    }

    function Of(who: nat): Hand {
      if who == 1 then one else two
    }

    function With(who: nat, h: Hand): Pair {
      if who == 1 then this.(one := h) else this.(two := h)
    }

    /** All sessions are for task 7, and the side conditions hold. */
    predicate Fine(careful: bool) {
      && FineHand(one, careful) && FineHand(two, careful)
      && !(one.session.Some? && two.session.Some? && L.Breaking(one.session.value) && L.Breaking(two.session.value))
    }

    predicate FineHand(h: Hand, careful: bool) {
      h.session.Some? ==>
        var session := h.session.value;
        && session.lock.id == 7
        && (careful && session.pc.Holding? ==> !L.Expired(session.lock, now))
        && (session.pc.Checking? && session.pc.found.Some? && L.Expired(session.pc.found.value, now) ==>
              L.Expired(session.pc.found.value, session.pc.readAt))
    }
  }

  ghost predicate Moves(d: Pair, u: Pair) {
    exists e :: Prompt(d.World(), e) && Following(d.World(), e) == u.World()
  }

  ghost function PairSteps(careful: bool): (Pair, Pair) -> bool {
    (d, u) => Moves(d, u) && u.Fine(careful)
  }

  const WAITING := Hand(Fetched, false, None, 0)

  const BOTH_FETCHED := Pair(PENDING, 0, None, WAITING, WAITING, 0)

  ghost predicate Come(d: Pair, careful: bool) {
    d.Fine(careful) && LeadsTo(PairSteps(careful), BOTH_FETCHED, d)
  }

  lemma To(d: Pair, u: Pair, careful: bool)
    requires Come(d, careful) && Moves(d, u) && u.Fine(careful)
    ensures Come(u, careful)
  {
    OneMore(PairSteps(careful), BOTH_FETCHED, d, u);
  }

  /** A move of the lock protocol, seen from the pair. */
  function Moved(d: Pair, who: nat, m: L.Move): Pair
    requires d.Of(who).session.Some? && L.CanMove(d.doc, d.Of(who).session.value, m)
  {
    var h := d.Of(who);
    var pc := L.PcAfter(d.now, d.doc, h.session.value, m);
    d.(doc := L.StoredAfter(d.doc, who, h.session.value, m))
    .With(who, h.(session := Some(h.session.value.(pc := pc)), since := d.now))
  }

  lemma LocksMove(d: Pair, who: nat, m: L.Move)
    requires who in {1, 2} && d.Of(who).session.Some? && d.Of(who).session.value.lock.id == 7
    requires L.CanMove(d.doc, d.Of(who).session.value, m)
    ensures L.Enabled(d.Locks().s, L.Act(who, m))
    ensures After(d.Locks(), L.Act(who, m)) == Moved(d, who, m).Locks()
  {
    var h := Moved(d, who, m).Of(who);
    assert L.Stored(d.Locks().s, 7) == d.doc;
    DocsPut(d.doc, Moved(d, who, m).doc);
    TwoPut(d.one.session, d.two.session, who, h.session.value);
    TwoPut(d.one.Since(), d.two.Since(), who, d.now);
  }

  lemma LocksAsk(d: Pair, who: nat, session: L.Session)
    requires who in {1, 2} && d.Of(who).session.None? && session.pc == L.Starting(true)
    ensures var a := L.Begin(who, session.lock, session.timeoutSecs);
            && L.Enabled(d.Locks().s, a)
            && After(d.Locks(), a) == d.With(who, d.Of(who).(session := Some(session), since := d.now)).Locks()
  {
    TwoPut(d.one.session, d.two.session, who, session);
    TwoPut(d.one.Since(), d.two.Since(), who, d.now);
  }

  /** The handling `who` goes on to `pc`. */
  lemma HandlingsMove(d: Pair, who: nat, h: Hand)
    requires who in {1, 2}
    ensures d.World().handlings[who := h.Handling()] == d.With(who, h).World().handlings
  {
    TwoPut(Some(d.one.Handling()), Some(d.two.Handling()), who, h.Handling());
  }

  lemma Passes(d: Pair, millis: nat, careful: bool) returns (u: Pair)
    requires Come(d, careful) && d.one.Rests() && d.two.Rests() && d.(now := d.now + millis).Fine(careful)
    ensures u == d.(now := d.now + millis) && Come(u, careful)
  {
    u := d.(now := d.now + millis);
    assert Following(d.World(), Pass(millis)) == u.World();
    To(d, u, careful);
  }

  lemma Asks(d: Pair, who: nat, careful: bool) returns (u: Pair)
    requires Come(d, careful) && who in {1, 2} && d.Of(who).pc.Fetched? && d.Of(who).session.None?
    ensures var lock := L.Lock(7, d.now, L.Lease(d.now, TASK_LOCK_SECS));
            u == d.With(who, Hand(Asking, d.Of(who).ran, Some(L.Session(lock, 0, L.Starting(true))), d.now))
    ensures Come(u, careful)
  {
    var lock := L.Lock(7, d.now, L.Lease(d.now, TASK_LOCK_SECS));
    u := d.With(who, Hand(Asking, d.Of(who).ran, Some(L.Session(lock, 0, L.Starting(true))), d.now));
    LocksAsk(d, who, u.Of(who).session.value);
    HandlingsMove(d, who, u.Of(who));
    assert Following(d.World(), Ask(who)) == u.World();
    To(d, u, careful);
  }

  function Acquired(d: Pair, who: nat, m: L.Move): Pair
    requires d.Of(who).session.Some? && L.CanMove(d.doc, d.Of(who).session.value, m)
  {
    var u := Moved(d, who, m);
    u.With(who, u.Of(who).(pc := Returned(u.Of(who).session.value.pc)))
  }

  lemma WorldAcquires(d: Pair, who: nat, m: L.Move)
    requires who in {1, 2} && d.Of(who).pc.Asking? && d.Of(who).session.Some?
    requires d.Of(who).session.value.lock.id == 7
    requires L.CanMove(d.doc, d.Of(who).session.value, m) && !m.Release? && !m.Crash?
    ensures CanHappen(d.World(), Acquire(who, m))
    ensures Following(d.World(), Acquire(who, m)) == Acquired(d, who, m).World()
  {
    LocksMove(d, who, m);
    HandlingsMove(d, who, Acquired(d, who, m).Of(who));
  }

  lemma AcquireMoves(d: Pair, who: nat, m: L.Move)
    requires who in {1, 2} && d.Of(who).pc.Asking? && d.Of(who).session.Some?
    requires d.Of(who).session.value.lock.id == 7
    requires L.CanMove(d.doc, d.Of(who).session.value, m) && !m.Release? && !m.Crash? && !m.Wake?
    ensures Moves(d, Acquired(d, who, m))
  {
    WorldAcquires(d, who, m);
    assert Prompt(d.World(), Acquire(who, m));
  }

  lemma Acquires(d: Pair, who: nat, m: L.Move, careful: bool) returns (u: Pair)
    requires Come(d, careful) && who in {1, 2} && d.Of(who).pc.Asking? && d.Of(who).session.Some?
    requires L.CanMove(d.doc, d.Of(who).session.value, m) && !m.Release? && !m.Crash? && !m.Wake?
    requires Acquired(d, who, m).Fine(careful)
    ensures u == Acquired(d, who, m) && Come(u, careful)
  {
    u := Acquired(d, who, m);
    AcquireMoves(d, who, m);
    To(d, u, careful);
  }

  function WorkedOn(d: Pair, who: nat, step: WorkStep): Pair {
    var h := d.Of(who);
    d.(status := StatusAfter(d.status, step), runs := d.runs + if step.BeginRun? then 1 else 0)
    .With(who, h.(pc := PcAfter(h.pc, step), ran := h.ran || step.BeginRun?))
  }

  lemma WorldWorks(d: Pair, who: nat, step: WorkStep)
    requires who in {1, 2}
    ensures Worked(d.World(), who, step) == WorkedOn(d, who, step).World()
  {
    HandlingsMove(d, who, WorkedOn(d, who, step).Of(who));
    RunsPut(d.runs, d.runs + 1);
    StatusPut(d.status, StatusAfter(d.status, step));
  }

  lemma WorkMoves(d: Pair, who: nat, step: WorkStep)
    requires who in {1, 2} && MayStep(d.Of(who).pc, step)
    ensures Moves(d, WorkedOn(d, who, step))
  {
    WorldWorks(d, who, step);
    assert Prompt(d.World(), Work(who, step));
  }

  lemma Works(d: Pair, who: nat, step: WorkStep, careful: bool) returns (u: Pair)
    requires Come(d, careful) && who in {1, 2} && MayStep(d.Of(who).pc, step)
    ensures u == WorkedOn(d, who, step) && Come(u, careful)
  {
    u := WorkedOn(d, who, step);
    WorkMoves(d, who, step);
    To(d, u, careful);
  }

  function GivenBack(d: Pair, who: nat): Pair
    requires d.Of(who).Holding()
  {
    var u := Moved(d, who, L.Release);
    u.With(who, u.Of(who).(pc := Over))
  }

  lemma GiveBackMoves(d: Pair, who: nat)
    requires who in {1, 2} && d.Of(who).pc.Unlocking? && d.Of(who).Holding() && d.Of(who).session.value.lock.id == 7
    ensures Moves(d, GivenBack(d, who))
  {
    LocksMove(d, who, L.Release);
    HandlingsMove(d, who, GivenBack(d, who).Of(who));
    assert Following(d.World(), GiveBack(who)) == GivenBack(d, who).World();
  }

  lemma GivesBack(d: Pair, who: nat, careful: bool) returns (u: Pair)
    requires Come(d, careful) && who in {1, 2} && d.Of(who).pc.Unlocking? && d.Of(who).Holding()
    ensures u == GivenBack(d, who) && Come(u, careful)
  {
    u := GivenBack(d, who);
    GiveBackMoves(d, who);
    To(d, u, careful);
  }

  // ---------------------------------------------------------------------------------
  // The runs
  // ---------------------------------------------------------------------------------

  /** Runs of pairs are runs of the system. */
  lemma FineIsPrompt(d: Pair, careful: bool)
    requires d.Fine(careful)
    ensures L.ChecksPrompt(d.World().locks.s)
  {
  }

  lemma FineIsKept(d: Pair, careful: bool)
    requires d.Fine(careful)
    ensures Kept(d.World().locks.s, careful)
  {
    FineIsPrompt(d, careful);
  }

  lemma OneFetched(careful: bool) returns (s: Shared)
    ensures s == Shared(map[7 := PENDING], Timed(L.State(0, map[], map[]), map[]),
                        map[1 := Handling(7, Fetched, 0, false)], map[], 0)
    ensures Reached(s, careful)
  {
    s := Shared(map[7 := PENDING], Timed(L.State(0, map[], map[]), map[]), map[], map[], 0);
    assert IsRunTo([s], s, careful);
    Then(s, Fetch(1, 7), careful);
    s := Following(s, Fetch(1, 7));
  }

  lemma BothFetched(careful: bool)
    ensures Reached(BOTH_FETCHED.World(), careful)
  {
    var s := OneFetched(careful);
    Then(s, Fetch(2, 7), careful);
    assert Following(s, Fetch(2, 7)) == BOTH_FETCHED.World();
  }

  lemma {:induction false} PairRunIsRun(run: seq<Pair>, k: nat, careful: bool)
    requires Follows(PairSteps(careful), run) && run[0] == BOTH_FETCHED && k < |run|
    ensures Reached(run[k].World(), careful)
  {
    if k == 0 {
      BothFetched(careful);
    } else {
      PairRunIsRun(run, k - 1, careful);
      assert StepAt(PairSteps(careful), run, k - 1);
      FineIsKept(run[k], careful);
      var e :| Prompt(run[k - 1].World(), e) && Following(run[k - 1].World(), e) == run[k].World();
      Then(run[k - 1].World(), e, careful);
    }
  }

  lemma ComeIsReached(d: Pair, careful: bool)
    requires Come(d, careful)
    ensures Reached(d.World(), careful)
  {
    var run :| Follows(PairSteps(careful), run) && run[0] == BOTH_FETCHED && run[|run| - 1] == d;
    PairRunIsRun(run, |run| - 1, careful);
  }

  function Session(at: int, pc: L.Pc): L.Session {
    L.Session(L.Lock(7, at, Some(at + 900_000)), 0, pc)
  }

  function Document(at: int, who: nat): Option<L.Document> {
    Some(L.Document(L.Lock(7, at, Some(at + 900_000)), who))
  }

  function RunBy(d: Pair, who: nat): Pair {
    d.(status := RUNNING, doc := Document(d.now, who), runs := d.runs + 1)
    .With(who, Hand(InRun, true, Some(Session(d.now, L.Holding)), d.now))
  }

  /** A handling that finds the lock free gets it, and begins to run. */
  lemma GetsToRun(d: Pair, who: nat, first: bool, careful: bool) returns (u: Pair)
    requires Come(d, careful) && who in {1, 2} && d.doc.None?
    requires d.Of(who) == Hand(Asking, false, Some(Session(d.now, L.Starting(first))), d.now)
    ensures u == RunBy(d, who) && Come(u, careful)
  {
    u := Acquires(d, who, L.Start, careful);
    u := Acquires(u, who, L.Insert, careful);
    u := Works(u, who, MarkRunning, careful);
    u := Works(u, who, BeginRun, careful);
  }

  lemma FirstSucceeds() returns (d: Pair)
    ensures d == Pair(SUCCESS, 0, None, Hand(Over, true, Some(Session(0, L.Finished)), 0), WAITING, 1)
    ensures Come(d, true)
  {
    Stay(PairSteps(true), BOTH_FETCHED);
    d := BOTH_FETCHED;
    d := Asks(d, 1, true);
    d := GetsToRun(d, 1, true, true);
    d := Works(d, 1, EndRun, true);
    d := Works(d, 1, MarkSuccess, true);
    d := Works(d, 1, LogSuccess, true);
    d := GivesBack(d, 1, true);
  }

  /**
    Two sweeps fetch a pending task; the second runs it after it has succeeded in the first.
    The locks are careful all the way and no server is started.
   */
  lemma SucceededRunsAgain() returns (s: Shared, t: Shared)
    ensures Reached(s, true) && 7 in s.store && s.store[7] == SUCCESS && RunsOf(s, 7) == 1
    ensures Swept(s) && Swept(t)
    ensures Reached(t, true) && 7 in t.store && t.store[7] == RUNNING && RunsOf(t, 7) == 2 && t.restarts == 0
  {
    var d := FirstSucceeds();
    ComeIsReached(d, true);
    s := d.World();
    d := Asks(d, 2, true);
    d := GetsToRun(d, 2, true, true);
    ComeIsReached(d, true);
    t := d.World();
    ReachedIsSwept(s, true);
    ReachedIsSwept(t, true);
  }

  /** The run of the first takes a millisecond more than its lease, and then the second asks and is refused. */
  lemma SecondRefused() returns (d: Pair)
    ensures d == Pair(RUNNING, 900_001, Document(0, 1), Hand(InRun, true, Some(Session(0, L.Holding)), 0),
                      Hand(Asking, false, Some(Session(900_001, L.Refused(true))), 900_001), 1)
    ensures Come(d, false)
  {
    Stay(PairSteps(false), BOTH_FETCHED);
    d := BOTH_FETCHED;
    d := Asks(d, 1, false);
    d := GetsToRun(d, 1, true, false);
    d := Passes(d, 900_001, false);
    d := Asks(d, 2, false);
    d := Acquires(d, 2, L.Start, false);
    d := Acquires(d, 2, L.Insert, false);
  }

  lemma SecondBreaksLock() returns (d: Pair)
    ensures d == Pair(RUNNING, 900_001, None, Hand(InRun, true, Some(Session(0, L.Holding)), 0),
                      Hand(Asking, false, Some(Session(900_001, L.Starting(false))), 900_001), 1)
    ensures Come(d, false)
  {
    d := SecondRefused();
    d := Acquires(d, 2, L.Read, false);
    d := Acquires(d, 2, L.Check, false);
    d := Acquires(d, 2, L.Delete, false);
  }

  lemma BothRun() returns (d: Pair)
    ensures d == Pair(RUNNING, 900_001, Document(900_001, 2), Hand(InRun, true, Some(Session(0, L.Holding)), 0),
                      Hand(InRun, true, Some(Session(900_001, L.Holding)), 900_001), 2)
    ensures Come(d, false)
  {
    d := SecondBreaksLock();
    d := GetsToRun(d, 2, false, false);
  }

  /** A task that outlasts the lease of its lock is run by two handlings at once, with (b) and (c) kept all the way. */
  lemma OutlastsItsLease() returns (s: Shared)
    ensures Reached(s, false) && Swept(s) && s.restarts == 0 && RunsOf(s, 7) == 2
    ensures forall p <- [1, 2] :: p in s.handlings && s.handlings[p].task == 7 && s.handlings[p].pc == InRun
    ensures s.locks.s.now == TASK_LOCK_SECS * 1000 + 1
  {
    var d := BothRun();
    ComeIsReached(d, false);
    s := d.World();
    ReachedIsSwept(s, false);
  }
}
