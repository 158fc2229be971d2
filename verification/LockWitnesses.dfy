/**
  Each side condition of the lock protocol is needed: three timed runs that keep the other two
  and still reach two holders of one lock. In none of them a store call fails.
 */
module LockWitnesses {
  import opened Prelude
  import opened LockProtocol
  import opened TimedLocks
  import opened Runs

  datatype Condition = LiveLeases | SingleBreaker | PromptChecks

  /** Which condition is dropped, and the latency of the run. */
  datatype Case = Case(dropped: Condition, latency: nat)

  const WITHOUT_LIVE_LEASES := Case(LiveLeases, 0)
  const WITHOUT_ONE_BREAKER := Case(SingleBreaker, 0)
  const WITHOUT_PROMPT_CHECKS := Case(PromptChecks, 200)

  /** All side conditions but one. */
  ghost predicate AllBut(dropped: Condition, s: State) {
    && (dropped.LiveLeases? || LeasesLive(s))
    && (dropped.SingleBreaker? || OneBreaker(s))
    && (dropped.PromptChecks? || ChecksPrompt(s))
  }

  ghost predicate IsRunTo(run: seq<Timed>, t: Timed, c: Case) {
    && IsTimedRun(run, c.latency) && run[|run| - 1] == t
    && forall i :: 0 <= i < |run| ==> AllBut(c.dropped, run[i].s)
  }

  /** Reachable by a timed run that keeps the other conditions all the way. */
  ghost predicate ReachableIn(t: Timed, c: Case) {
    exists run :: IsRunTo(run, t, c)
  }

  lemma NextIn(t: Timed, a: Action, c: Case)
    requires ReachableIn(t, c) && Enabled(t.s, a) && Timely(t, a, c.latency) && AllBut(c.dropped, After(t, a).s)
    ensures ReachableIn(After(t, a), c)
  {
    var u := After(t, a);
    var run :| IsRunTo(run, t, c);
    assert TimedStep(t, u, c.latency);
    Longer(TimedSteps(c.latency), run, u);
    assert IsRunTo(run + [u], u, c);
  }

  // -- Three sessions on one lock id

  /** A session, and since when it is where it is. */
  datatype Actor = Actor(session: Session, since: int) {
    predicate Live(now: int) {
      session.pc.Holding? ==> !Expired(session.lock, now)
    }

    predicate Prompt(now: int) {
      session.pc.Checking? && session.pc.found.Some? && Expired(session.pc.found.value, now)
      ==> Expired(session.pc.found.value, session.pc.readAt)
    }

    predicate Patient(now: int, latency: nat) {
      InTime(session, since, now, latency)
    }
  }

  /** Sessions 1, 2 and 3 at clock `now`, with at most one document, under 7. */
  datatype Trio = Trio(now: int, doc: Option<Document>, one: Actor, two: Actor, three: Actor) {
    function World(): Timed {
      Timed(
        State(now, if doc.Some? then map[7 := doc.value] else map[],
              map[1 := one.session, 2 := two.session, 3 := three.session]),
        map[1 := one.since, 2 := two.since, 3 := three.since])
    }

    predicate SameLock() {
      one.session.lock.id == two.session.lock.id == three.session.lock.id == 7
    }

    predicate OneBreaks() {
      && !(Breaking(one.session) && Breaking(two.session))
      && !(Breaking(one.session) && Breaking(three.session))
      && !(Breaking(two.session) && Breaking(three.session))
    }

    predicate Keeps(dropped: Condition) {
      && (dropped.LiveLeases? || (one.Live(now) && two.Live(now) && three.Live(now)))
      && (dropped.SingleBreaker? || OneBreaks())
      && (dropped.PromptChecks? || (one.Prompt(now) && two.Prompt(now) && three.Prompt(now)))
    }
  }

  ghost predicate Reached(t: Trio, c: Case) {
    t.SameLock() && ReachableIn(t.World(), c)
  }

  lemma KeepsIsAllBut(t: Trio, dropped: Condition)
    requires t.SameLock() && t.Keeps(dropped)
    ensures AllBut(dropped, t.World().s)
  {
  }

  function At(t: Trio, who: nat): Actor
    requires 1 <= who <= 3
  {
    match who case 1 => t.one case 2 => t.two case 3 => t.three
  }

  /** Session `who` of the trio now at `pc`, with `doc` as the stored document. */
  function Put(t: Trio, who: nat, pc: Pc, doc: Option<Document>): Trio
    requires 1 <= who <= 3
  {
    var actor := Actor(At(t, who).session.(pc := pc), t.now);
    match who
    case 1 => t.(doc := doc, one := actor)
    case 2 => t.(doc := doc, two := actor)
    case 3 => t.(doc := doc, three := actor)
  }

  lemma PutIsAfter(t: Trio, who: nat, m: Move)
    requires t.SameLock() && 1 <= who <= 3 && CanMove(t.doc, At(t, who).session, m)
    ensures Enabled(t.World().s, Act(who, m))
    ensures After(t.World(), Act(who, m))
            == Put(t, who, PcAfter(t.now, t.doc, At(t, who).session, m),
                   StoredAfter(t.doc, who, At(t, who).session, m)).World()
  {
    var s := t.World().s;
    assert s.sessions[who] == At(t, who).session;
    assert Stored(s, 7) == t.doc;
    var session := At(t, who).session;
    var pc, doc := PcAfter(t.now, t.doc, session, m), StoredAfter(t.doc, who, session, m);
    SessionsAfterPut(t, who, pc, doc);
    DocumentsAfterPut(t, who, pc, doc);
  }

  lemma SessionsAfterPut(t: Trio, who: nat, pc: Pc, doc: Option<Document>)
    requires 1 <= who <= 3
    ensures t.World().s.sessions[who := At(t, who).session.(pc := pc)] == Put(t, who, pc, doc).World().s.sessions
    ensures t.World().since[who := t.now] == Put(t, who, pc, doc).World().since
    ensures Put(t, who, pc, doc).now == t.now
  {
  }

  lemma DocumentsAfterPut(t: Trio, who: nat, pc: Pc, doc: Option<Document>)
    requires 1 <= who <= 3
    ensures Store(t.World().s.docs, 7, doc) == Put(t, who, pc, doc).World().s.docs
  {
  }

  /** One move of session `who`, which takes it to `pc` and leaves `doc` stored. */
  lemma Go(t: Trio, who: nat, m: Move, pc: Pc, doc: Option<Document>, c: Case) returns (u: Trio)
    requires Reached(t, c) && 1 <= who <= 3
    requires CanMove(t.doc, At(t, who).session, m) && (m.Wake? ==> At(t, who).since + LOCK_WAIT_MILLIS <= t.now)
    requires PcAfter(t.now, t.doc, At(t, who).session, m) == pc && StoredAfter(t.doc, who, At(t, who).session, m) == doc
    requires Put(t, who, pc, doc).Keeps(c.dropped)
    ensures u == Put(t, who, pc, doc) && Reached(u, c)
  {
    u := Put(t, who, pc, doc);
    PutIsAfter(t, who, m);
    KeepsIsAllBut(u, c.dropped);
    NextIn(t.World(), Act(who, m), c);
  }

  lemma Begun(t: Trio, c: Case)
    requires t.SameLock() && t.one.session.pc == t.two.session.pc == t.three.session.pc == Starting(true)
    requires forall who :: 1 <= who <= 3 ==> At(t, who).since == At(t, who).session.lock.timestamp == t.now
    ensures Reached(t, c)
  {
    var one, two, three := At(t, 1).session, At(t, 2).session, At(t, 3).session;
    assert t.three.since == At(t, 3).since;
    var s := Timed(State(t.now, t.World().s.docs, map[]), map[]);
    assert IsRunTo([s], s, c);
    NextIn(s, Begin(1, one.lock, one.timeoutSecs), c);
    s := After(s, Begin(1, one.lock, one.timeoutSecs));
    NextIn(s, Begin(2, two.lock, two.timeoutSecs), c);
    s := After(s, Begin(2, two.lock, two.timeoutSecs));
    NextIn(s, Begin(3, three.lock, three.timeoutSecs), c);
    s := After(s, Begin(3, three.lock, three.timeoutSecs));
    assert s == t.World();
  }

  /** Three sessions that called `acquire` at the same time can all be about to insert. */
  lemma Inserters(now: int, doc: Option<Document>, x: Lock, y: Lock, z: Lock, timeoutSecs: int, c: Case)
    returns (t: Trio)
    requires x.id == y.id == z.id == 7 && x.timestamp == y.timestamp == z.timestamp == now
    ensures var pc := Inserting(true, now + timeoutSecs * 1000);
            t == Trio(now, doc, Actor(Session(x, timeoutSecs, pc), now), Actor(Session(y, timeoutSecs, pc), now),
                      Actor(Session(z, timeoutSecs, pc), now))
    ensures Reached(t, c)
  {
    var pc := Inserting(true, now + timeoutSecs * 1000);
    t := Trio(now, doc, Actor(Session(x, timeoutSecs, Starting(true)), now),
              Actor(Session(y, timeoutSecs, Starting(true)), now), Actor(Session(z, timeoutSecs, Starting(true)), now));
    Begun(t, c);
    t := Go(t, 1, Start, pc, doc, c);
    t := Go(t, 2, Start, pc, doc, c);
    t := Go(t, 3, Start, pc, doc, c);
  }

  lemma Wait(t: Trio, millis: nat, c: Case) returns (u: Trio)
    requires Reached(t, c) && t.(now := t.now + millis).Keeps(c.dropped)
    requires t.one.Patient(t.now + millis, c.latency) && t.two.Patient(t.now + millis, c.latency)
    requires t.three.Patient(t.now + millis, c.latency)
    ensures u == t.(now := t.now + millis) && Reached(u, c)
  {
    u := t.(now := t.now + millis);
    KeepsIsAllBut(u, c.dropped);
    NextIn(t.World(), Tick(millis), c);
  }

  // -- Without (a): charging station locks, valid 5 s from `createLock`, with 10 s of wait, and
  //    no latency at all. Session 2 polls every second while session 1 holds, which releases in
  //    time, and inserts a document that has expired; session 3 breaks it when its own wait
  //    ends. Nobody is in the critical section for more than 5 s.

  const STATION := Lock(7, 0, Some(5000))

  function Station(pc: Pc, since: int): Actor {
    Actor(Session(STATION, 10, pc), since)
  }

  function Polling(since: int): Actor {
    Station(Inserting(true, 10000), since)
  }

  function ByStation(p: nat): Option<Document> {
    Some(Document(STATION, p))
  }

  /** The first seconds: sessions 2 and 3 insert in vain each second. */
  lemma {:induction false} StationTaken(seconds: nat) returns (u: Trio)
    requires seconds <= 5
    ensures var now := seconds * 1000;
            u == Trio(now, ByStation(1), Station(Holding, 0), Polling(now), Polling(now))
    ensures Reached(u, WITHOUT_LIVE_LEASES)
  {
    if seconds == 0 {
      u := Inserters(0, None, STATION, STATION, STATION, 10, WITHOUT_LIVE_LEASES);
      u := Go(u, 1, Insert, Holding, ByStation(1), WITHOUT_LIVE_LEASES);
    } else {
      u := StationTaken(seconds - 1);
      u := Go(u, 2, Insert, Sleeping(true, 10000), ByStation(1), WITHOUT_LIVE_LEASES);
      u := Go(u, 3, Insert, Sleeping(true, 10000), ByStation(1), WITHOUT_LIVE_LEASES);
      u := Wait(u, 1000, WITHOUT_LIVE_LEASES);
      u := Go(u, 2, Wake, Inserting(true, 10000), ByStation(1), WITHOUT_LIVE_LEASES);
      u := Go(u, 3, Wake, Inserting(true, 10000), ByStation(1), WITHOUT_LIVE_LEASES);
    }
  }

  lemma StationReleased() returns (u: Trio)
    ensures u == Trio(6000, None, Station(Finished, 5000), Station(Sleeping(true, 10000), 5000),
                      Station(Sleeping(true, 10000), 5000))
    ensures Reached(u, WITHOUT_LIVE_LEASES)
  {
    u := StationTaken(5);
    u := Go(u, 2, Insert, Sleeping(true, 10000), ByStation(1), WITHOUT_LIVE_LEASES);
    u := Go(u, 3, Insert, Sleeping(true, 10000), ByStation(1), WITHOUT_LIVE_LEASES);
    u := Go(u, 1, Release, Finished, None, WITHOUT_LIVE_LEASES);
    u := Wait(u, 1000, WITHOUT_LIVE_LEASES);
  }

  lemma StaleInsert() returns (u: Trio)
    ensures u == Trio(6000, ByStation(2), Station(Finished, 5000), Station(Holding, 6000), Polling(6000))
    ensures Reached(u, WITHOUT_LIVE_LEASES)
  {
    u := StationReleased();
    u := Go(u, 2, Wake, Inserting(true, 10000), None, WITHOUT_LIVE_LEASES);
    u := Go(u, 3, Wake, Inserting(true, 10000), None, WITHOUT_LIVE_LEASES);
    u := Go(u, 2, Insert, Holding, ByStation(2), WITHOUT_LIVE_LEASES);
  }

  /** The next seconds: session 3 inserts in vain. */
  lemma {:induction false} StaleKept(seconds: nat) returns (u: Trio)
    requires 6 <= seconds <= 9
    ensures var now := seconds * 1000;
            u == Trio(now, ByStation(2), Station(Finished, 5000), Station(Holding, 6000), Polling(now))
    ensures Reached(u, WITHOUT_LIVE_LEASES)
  {
    if seconds == 6 {
      u := StaleInsert();
    } else {
      u := StaleKept(seconds - 1);
      u := Go(u, 3, Insert, Sleeping(true, 10000), ByStation(2), WITHOUT_LIVE_LEASES);
      u := Wait(u, 1000, WITHOUT_LIVE_LEASES);
      u := Go(u, 3, Wake, Inserting(true, 10000), ByStation(2), WITHOUT_LIVE_LEASES);
    }
  }

  lemma WaitOver() returns (u: Trio)
    ensures u == Trio(10000, ByStation(2), Station(Finished, 5000), Station(Holding, 6000),
                      Station(Refused(true), 10000))
    ensures Reached(u, WITHOUT_LIVE_LEASES)
  {
    u := StaleKept(9);
    u := Go(u, 3, Insert, Sleeping(true, 10000), ByStation(2), WITHOUT_LIVE_LEASES);
    u := Wait(u, 1000, WITHOUT_LIVE_LEASES);
    u := Go(u, 3, Wake, Refused(true), ByStation(2), WITHOUT_LIVE_LEASES);
  }

  lemma StaleFound() returns (u: Trio)
    ensures u == Trio(10000, ByStation(2), Station(Finished, 5000), Station(Holding, 6000), Station(Deleting, 10000))
    ensures Reached(u, WITHOUT_LIVE_LEASES)
  {
    u := WaitOver();
    u := Go(u, 3, Read, Checking(Some(STATION), 10000), ByStation(2), WITHOUT_LIVE_LEASES);
    u := Go(u, 3, Check, Deleting, ByStation(2), WITHOUT_LIVE_LEASES);
  }

  lemma StaleBroken() returns (u: Trio)
    ensures u == Trio(10000, None, Station(Finished, 5000), Station(Holding, 6000),
                      Station(Inserting(false, 20000), 10000))
    ensures Reached(u, WITHOUT_LIVE_LEASES)
  {
    u := StaleFound();
    u := Go(u, 3, Delete, Starting(false), None, WITHOUT_LIVE_LEASES);
    u := Go(u, 3, Start, Inserting(false, 20000), None, WITHOUT_LIVE_LEASES);
  }

  lemma WithoutLiveLeases() returns (t: Timed)
    ensures ReachableIn(t, WITHOUT_LIVE_LEASES) && !MutualExclusion(t.s)
    ensures t.s.now == 10000
    ensures forall p <- t.s.sessions :: t.s.sessions[p].lock == STATION && t.s.sessions[p].timeoutSecs == 10
  {
    var u := StaleBroken();
    u := Go(u, 3, Insert, Holding, ByStation(3), WITHOUT_LIVE_LEASES);
    t := u.World();
    assert Holds(t.s, 2) && Holds(t.s, 3);
  }

  // -- Without (b): two contenders on the expired lock of a crashed holder, all in one instant.

  const ORPHAN := Lock(7, 0, Some(1))
  const CONTENDED := Lock(7, 10, Some(1000))

  function Contender(pc: Pc): Actor {
    Actor(Session(CONTENDED, 0, pc), 10)
  }

  lemma BothRead() returns (u: Trio)
    ensures u == Trio(10, Some(Document(ORPHAN, 0)), Contender(Checking(Some(ORPHAN), 10)),
                      Contender(Checking(Some(ORPHAN), 10)), Contender(Inserting(true, 10)))
    ensures Reached(u, WITHOUT_ONE_BREAKER)
  {
    var orphan := Some(Document(ORPHAN, 0));
    u := Inserters(10, orphan, CONTENDED, CONTENDED, CONTENDED, 0, WITHOUT_ONE_BREAKER);
    u := Go(u, 1, Insert, Refused(true), orphan, WITHOUT_ONE_BREAKER);
    u := Go(u, 2, Insert, Refused(true), orphan, WITHOUT_ONE_BREAKER);
    u := Go(u, 1, Read, Checking(Some(ORPHAN), 10), orphan, WITHOUT_ONE_BREAKER);
    u := Go(u, 2, Read, Checking(Some(ORPHAN), 10), orphan, WITHOUT_ONE_BREAKER);
  }

  lemma FirstBroke() returns (u: Trio)
    ensures u == Trio(10, Some(Document(CONTENDED, 1)), Contender(Holding), Contender(Deleting),
                      Contender(Inserting(true, 10)))
    ensures Reached(u, WITHOUT_ONE_BREAKER)
  {
    u := BothRead();
    u := Go(u, 1, Check, Deleting, u.doc, WITHOUT_ONE_BREAKER);
    u := Go(u, 2, Check, Deleting, u.doc, WITHOUT_ONE_BREAKER);
    u := Go(u, 1, Delete, Starting(false), None, WITHOUT_ONE_BREAKER);
    u := Go(u, 1, Start, Inserting(false, 10), None, WITHOUT_ONE_BREAKER);
    u := Go(u, 1, Insert, Holding, Some(Document(CONTENDED, 1)), WITHOUT_ONE_BREAKER);
  }

  lemma SecondBroke() returns (u: Trio)
    ensures u == Trio(10, None, Contender(Holding), Contender(Inserting(false, 10)), Contender(Inserting(true, 10)))
    ensures Reached(u, WITHOUT_ONE_BREAKER)
  {
    u := FirstBroke();
    u := Go(u, 2, Delete, Starting(false), None, WITHOUT_ONE_BREAKER);
    u := Go(u, 2, Start, Inserting(false, 10), None, WITHOUT_ONE_BREAKER);
  }

  lemma WithoutOneBreaker() returns (t: Timed)
    ensures ReachableIn(t, WITHOUT_ONE_BREAKER) && !MutualExclusion(t.s)
  {
    var u := SecondBroke();
    u := Go(u, 2, Insert, Holding, Some(Document(CONTENDED, 2)), WITHOUT_ONE_BREAKER);
    t := u.World();
    assert Holds(t.s, 1) && Holds(t.s, 2);
  }

  // -- Without (c): session 2 reads the live lock of session 1 and compares its date, 200 ms
  //    later, only after session 1 has released it in time and session 3 has inserted its own.

  const SHORT := Lock(7, 0, Some(100))
  const LONG := Lock(7, 0, Some(1000))

  function By(lock: Lock, pc: Pc, since: int): Actor {
    Actor(Session(lock, 0, pc), since)
  }

  lemma LiveLockRead() returns (u: Trio)
    ensures u == Trio(0, None, By(SHORT, Finished, 0), By(LONG, Checking(Some(SHORT), 0), 0),
                      By(LONG, Inserting(true, 0), 0))
    ensures Reached(u, WITHOUT_PROMPT_CHECKS)
  {
    u := Inserters(0, None, SHORT, LONG, LONG, 0, WITHOUT_PROMPT_CHECKS);
    u := Go(u, 1, Insert, Holding, Some(Document(SHORT, 1)), WITHOUT_PROMPT_CHECKS);
    u := Go(u, 2, Insert, Refused(true), Some(Document(SHORT, 1)), WITHOUT_PROMPT_CHECKS);
    u := Go(u, 2, Read, Checking(Some(SHORT), 0), Some(Document(SHORT, 1)), WITHOUT_PROMPT_CHECKS);
    u := Go(u, 1, Release, Finished, None, WITHOUT_PROMPT_CHECKS);
  }

  lemma LateCheck() returns (u: Trio)
    ensures u == Trio(200, Some(Document(LONG, 3)), By(SHORT, Finished, 0), By(LONG, Deleting, 200),
                      By(LONG, Holding, 0))
    ensures Reached(u, WITHOUT_PROMPT_CHECKS)
  {
    u := LiveLockRead();
    u := Go(u, 3, Insert, Holding, Some(Document(LONG, 3)), WITHOUT_PROMPT_CHECKS);
    u := Wait(u, 200, WITHOUT_PROMPT_CHECKS);
    u := Go(u, 2, Check, Deleting, u.doc, WITHOUT_PROMPT_CHECKS);
  }

  lemma LateBroken() returns (u: Trio)
    ensures u == Trio(200, None, By(SHORT, Finished, 0), By(LONG, Inserting(false, 200), 200), By(LONG, Holding, 0))
    ensures Reached(u, WITHOUT_PROMPT_CHECKS)
  {
    u := LateCheck();
    u := Go(u, 2, Delete, Starting(false), None, WITHOUT_PROMPT_CHECKS);
    u := Go(u, 2, Start, Inserting(false, 200), None, WITHOUT_PROMPT_CHECKS);
  }

  lemma WithoutPromptChecks() returns (t: Timed)
    ensures ReachableIn(t, WITHOUT_PROMPT_CHECKS) && !MutualExclusion(t.s)
  {
    var u := LateBroken();
    u := Go(u, 2, Insert, Holding, Some(Document(LONG, 2)), WITHOUT_PROMPT_CHECKS);
    t := u.World();
    assert Holds(t.s, 2) && Holds(t.s, 3);
  }
}
