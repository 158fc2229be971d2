/**
  When a lock can be stale as it is inserted: exactly if it has a validity, and one shorter than
  the latest insert. The locks of LockingHelper with a wait are cases of this.
 */
module StaleLocks {
  import opened Prelude
  import opened LockProtocol
  import opened TimedLocks

  // ---------------------------------------------------------------------------------
  // One session that waits for id 7, and a rival
  // ---------------------------------------------------------------------------------

  /** Session 1 since `since`, session 2 if it has begun, and the document stored under 7. */
  datatype Duel = Duel(
    now: int, doc: Option<Document>, victim: Session, since: int, rival: Option<Session>, rivalSince: int) {
    function World(): Timed {
      Timed(
        State(now, if doc.Some? then map[7 := doc.value] else map[],
              if rival.Some? then map[1 := victim, 2 := rival.value] else map[1 := victim]),
        if rival.Some? then map[1 := since, 2 := rivalSince] else map[1 := since])
    }

    /** The rival, if any, holds the lock or is done. */
    predicate RivalRests() {
      rival.Some? ==> (rival.value.pc.Holding? || rival.value.pc.Finished?) && rival.value.lock.id == 7
    }
  }

  ghost predicate Reached(d: Duel, latency: nat) {
    d.victim.lock.id == 7 && d.RivalRests() && Reachable(d.World(), latency)
  }

  lemma VictimMoves(d: Duel, m: Move, latency: nat) returns (u: Duel)
    requires Reached(d, latency) && CanMove(d.doc, d.victim, m)
    requires m.Wake? ==> d.since + LOCK_WAIT_MILLIS <= d.now
    ensures u == d.(victim := d.victim.(pc := PcAfter(d.now, d.doc, d.victim, m)), since := d.now,
                    doc := StoredAfter(d.doc, 1, d.victim, m))
    ensures Reached(u, latency)
  {
    u := d.(victim := d.victim.(pc := PcAfter(d.now, d.doc, d.victim, m)), since := d.now,
            doc := StoredAfter(d.doc, 1, d.victim, m));
    var t := d.World();
    assert Stored(t.s, 7) == d.doc;
    assert After(t, Act(1, m)).s.docs == u.World().s.docs;
    assert After(t, Act(1, m)).s.sessions == u.World().s.sessions;
    assert After(t, Act(1, m)).since == u.World().since;
    Next(t, Act(1, m), latency);
  }

  lemma Wait(d: Duel, millis: nat, latency: nat) returns (u: Duel)
    requires Reached(d, latency) && InTime(d.victim, d.since, d.now + millis, latency)
    ensures u == d.(now := d.now + millis) && Reached(u, latency)
  {
    u := d.(now := d.now + millis);
    Next(d.World(), Tick(millis), latency);
  }

  /** The rival comes, with a lock made now, and gets it at once. */
  lemma RivalTakes(d: Duel, validitySecs: int, timeoutSecs: int, latency: nat) returns (u: Duel)
    requires Reached(d, latency) && d.doc == None && d.rival == None
    ensures var lock := Lock(7, d.now, Lease(d.now, validitySecs));
            u == d.(doc := Some(Document(lock, 2)),
                    rival := Some(Session(lock, timeoutSecs, Holding)), rivalSince := d.now)
    ensures Reached(u, latency)
  {
    var lock := Lock(7, d.now, Lease(d.now, validitySecs));
    u := d.(doc := Some(Document(lock, 2)), rival := Some(Session(lock, timeoutSecs, Holding)), rivalSince := d.now);
    var t := d.World();
    Next(t, Begin(2, lock, timeoutSecs), latency);
    t := After(t, Begin(2, lock, timeoutSecs));
    Next(t, Act(2, Start), latency);
    t := After(t, Act(2, Start));
    assert Stored(t.s, 7) == None;
    Next(t, Act(2, Insert), latency);
    t := After(t, Act(2, Insert));
    assert t.s.docs == u.World().s.docs && t.s.sessions == u.World().s.sessions && t.since == u.World().since;
  }

  lemma RivalReleases(d: Duel, latency: nat) returns (u: Duel)
    requires Reached(d, latency) && d.rival.Some? && d.rival.value.pc.Holding?
    ensures u == d.(doc := None, rival := Some(d.rival.value.(pc := Finished)), rivalSince := d.now)
    ensures Reached(u, latency)
  {
    u := d.(doc := None, rival := Some(d.rival.value.(pc := Finished)), rivalSince := d.now);
    var t := d.World();
    var v := After(t, Act(2, Release));
    assert v.s.docs == u.World().s.docs && v.s.sessions == u.World().s.sessions && v.since == u.World().since;
    Next(t, Act(2, Release), latency);
  }

  // ---------------------------------------------------------------------------------
  // The slowest session
  // ---------------------------------------------------------------------------------

  /** Where the k-th wait of the slowest round ends: as late as it can while the last one still ends in time. */
  function Slowest(k: nat, latency: nat): nat {
    Min(PollMax(k, latency), k * 1000 + 999)
  }

  /** One refused insert and the wait after it. */
  lemma OnePoll(d: Duel, k: nat, latency: nat) returns (u: Duel)
    requires Reached(d, latency) && d.doc.Some? && d.victim.pc.Inserting? && d.victim.timeoutSecs > k + 1
    requires d.since == d.now == d.victim.pc.until - d.victim.timeoutSecs * 1000 + Slowest(k, latency)
    ensures var at := d.victim.pc.until - d.victim.timeoutSecs * 1000 + Slowest(k + 1, latency);
            u == d.(now := at, since := at) && Reached(u, latency)
  {
    var delay := Slowest(k + 1, latency) - Slowest(k, latency) - LOCK_WAIT_MILLIS;
    u := Wait(d, Min(delay, latency), latency);
    u := VictimMoves(u, Insert, latency);
    u := Wait(u, LOCK_WAIT_MILLIS + delay - Min(delay, latency), latency);
    u := VictimMoves(u, Wake, latency);
  }

  lemma {:induction false} SlowPolls(d: Duel, k: nat, latency: nat) returns (u: Duel)
    requires Reached(d, latency) && d.doc.Some? && d.victim.pc.Inserting? && d.victim.timeoutSecs > k
    requires d.since == d.now == d.victim.pc.until - d.victim.timeoutSecs * 1000
    ensures var at := d.now + Slowest(k, latency);
            u == d.(now := at, since := at) && Reached(u, latency)
  {
    if k == 0 {
      u := d;
    } else {
      u := SlowPolls(d, k - 1, latency);
      u := OnePoll(u, k - 1, latency);
    }
  }

  /** From the start of a round to its last insert, still to come, all others having been refused. */
  lemma SlowRound(d: Duel, latency: nat) returns (u: Duel)
    requires Reached(d, latency) && d.victim.pc.Starting? && d.victim.timeoutSecs > 0 && d.doc.Some? && d.since == d.now
    ensures var start := d.now + latency;
            var at := start + LastPoll(d.victim.timeoutSecs, latency);
            u == d.(now := at + latency, since := at,
                    victim := d.victim.(pc := Inserting(d.victim.pc.retry, start + d.victim.timeoutSecs * 1000)))
            && Reached(u, latency)
  {
    u := Wait(d, latency, latency);
    u := VictimMoves(u, Start, latency);
    u := SlowPolls(u, d.victim.timeoutSecs - 1, latency);
    PollMaxGrows(d.victim.timeoutSecs - 1, d.victim.timeoutSecs - 1, latency);
    u := Wait(u, latency, latency);
  }

  function Victim(validitySecs: int, timeoutSecs: int, pc: Pc): Session {
    Session(Lock(7, 0, Lease(0, validitySecs)), timeoutSecs, pc)
  }

  /** An expired document of a process that is gone. */
  const ORPHAN := Document(Lock(7, -1, Some(-1)), 0)

  lemma Begun(validitySecs: int, timeoutSecs: int, latency: nat) returns (d: Duel)
    ensures d == Duel(0, Some(ORPHAN), Victim(validitySecs, timeoutSecs, Starting(true)), 0, None, 0)
    ensures Reached(d, latency)
  {
    var lock := Lock(7, 0, Lease(0, validitySecs));
    d := Duel(0, Some(ORPHAN), Session(lock, timeoutSecs, Starting(true)), 0, None, 0);
    var t := Timed(State(0, map[7 := ORPHAN], map[]), map[]);
    assert IsTimedRun([t], latency);
    Next(t, Begin(1, lock, timeoutSecs), latency);
    assert After(t, Begin(1, lock, timeoutSecs)) == d.World();
  }

  /** The first round, as long as it can be, ends without the lock. */
  lemma FirstRound(validitySecs: int, timeoutSecs: int, latency: nat) returns (u: Duel)
    ensures var at := latency + RoundEnd(timeoutSecs, latency);
            u == Duel(at, Some(ORPHAN), Victim(validitySecs, timeoutSecs, Refused(true)), at, None, 0)
    ensures Reached(u, latency)
  {
    u := Begun(validitySecs, timeoutSecs, latency);
    if timeoutSecs > 0 {
      u := SlowRound(u, latency);
      u := VictimMoves(u, Insert, latency);
      PollMaxGrows(timeoutSecs - 1, timeoutSecs - 1, latency);
      u := Wait(u, LOCK_WAIT_MILLIS + latency, latency);
      u := VictimMoves(u, Wake, latency);
    } else {
      u := Wait(u, latency, latency);
      u := VictimMoves(u, Start, latency);
      u := Wait(u, latency, latency);
      u := VictimMoves(u, Insert, latency);
    }
  }

  /** Then it breaks the orphaned lock, each step as late as it can be. */
  lemma Broken(validitySecs: int, timeoutSecs: int, latency: nat) returns (u: Duel)
    ensures var at := RoundEnd(timeoutSecs, latency) + 4 * latency;
            u == Duel(at, None, Victim(validitySecs, timeoutSecs, Starting(false)), at, None, 0)
    ensures Reached(u, latency)
  {
    u := FirstRound(validitySecs, timeoutSecs, latency);
    u := Wait(u, latency, latency);
    u := VictimMoves(u, Read, latency);
    u := Wait(u, latency, latency);
    u := VictimMoves(u, Check, latency);
    u := Wait(u, latency, latency);
    u := VictimMoves(u, Delete, latency);
  }

  /** And in the second round its last insert goes through. */
  lemma InsertsLate(validitySecs: int, timeoutSecs: int, latency: nat) returns (u: Duel)
    ensures Reached(u, latency) && u.victim == Session(Lock(7, 0, Lease(0, validitySecs)), timeoutSecs, Holding)
    ensures u.since == LatestInsert(timeoutSecs, latency)
  {
    u := Broken(validitySecs, timeoutSecs, latency);
    if timeoutSecs > 0 {
      u := RivalTakes(u, validitySecs, timeoutSecs, latency);
      u := SlowRound(u, latency);
      u := RivalReleases(u, latency);
    } else {
      u := Wait(u, latency, latency);
      u := VictimMoves(u, Start, latency);
      u := Wait(u, latency, latency);
    }
    u := VictimMoves(u, Insert, latency);
  }

  // ---------------------------------------------------------------------------------
  // Exactly when
  // ---------------------------------------------------------------------------------

  ghost predicate CanInsertStale(validitySecs: int, timeoutSecs: int, latency: nat) {
    exists t, p :: Reachable(t, latency) && InsertedStale(t, p, validitySecs, timeoutSecs)
  }

  /** A lock can be stale as it is inserted if and only if it has a validity, shorter than the latest insert. */
  lemma StaleIffLate(validitySecs: int, timeoutSecs: int, latency: nat)
    ensures CanInsertStale(validitySecs, timeoutSecs, latency) <==>
              0 < validitySecs && validitySecs * 1000 < LatestInsert(timeoutSecs, latency)
  {
    if CanInsertStale(validitySecs, timeoutSecs, latency) {
      var t, p :| Reachable(t, latency) && InsertedStale(t, p, validitySecs, timeoutSecs);
      StaleOnlyIfLate(t, p, validitySecs, timeoutSecs, latency);
    }
    if 0 < validitySecs && validitySecs * 1000 < LatestInsert(timeoutSecs, latency) {
      var u := InsertsLate(validitySecs, timeoutSecs, latency);
      assert InsertedStale(u.World(), 1, validitySecs, timeoutSecs);
    }
  }

  /** With no latency at all: exactly if there is a validity, less than twice the timeout less one second. */
  lemma StaleWithoutLatency(validitySecs: int, timeoutSecs: int)
    ensures CanInsertStale(validitySecs, timeoutSecs, 0) <==> 0 < validitySecs < 2 * timeoutSecs - 1
  {
    StaleIffLate(validitySecs, timeoutSecs, 0);
    LatestInsertIs(timeoutSecs, 0);
  }

  /** 5 s of validity against 10 s of wait: whatever the latency. */
  lemma ChargingStationLockGoesStale(latency: nat)
    ensures CanInsertStale(5, 10, latency)
  {
    StaleIffLate(5, 10, latency);
    LatestInsertIs(10, latency);
  }

  /** 3 minutes against 5 s: only above a latency of 21.125 s. */
  lemma SiteAreaLockGoesStale(latency: nat)
    ensures CanInsertStale(3 * 60, 5, latency) <==> latency > 21_125
  {
    StaleIffLate(3 * 60, 5, latency);
    LatestInsertIs(5, latency);
  }

  /** 10 minutes against 60 s: only above a latency of 59.875 s. */
  lemma BillUserLockGoesStale(latency: nat)
    ensures CanInsertStale(600, 60, latency) <==> latency > 59_875
  {
    StaleIffLate(600, 60, latency);
    LatestInsertIs(60, latency);
  }
}
