/**
  When can a task still be run? Over all reachable states, exactly when it is pending or a
  handling of it is on its way.
 */
module SweepRuns {
  import opened Prelude
  import opened Runs
  import opened AsyncTaskManager
  import L = LockProtocol
  import opened SweepOverlap

  /** A step that starts no server. */
  ghost predicate CalmStep(s: Shared, t: Shared) {
    exists e :: CanHappen(s, e) && !e.Restart? && t == Following(s, e)
  }

  ghost predicate RunsAgain(step: (Shared, Shared) -> bool, s: Shared, task: L.Digest) {
    exists t :: LeadsTo(step, s, t) && RunsOf(t, task) > RunsOf(s, task)
  }

  ghost predicate Held(s: Shared, task: L.Digest) {
    exists p :: HoldsIt(s, p, task)
  }

  predicate HoldsIt(s: Shared, p: nat, task: L.Digest) {
    p in s.handlings && s.handlings[p].task == task && HasLock(s.handlings[p].pc)
  }

  /**
    `acquire` may still return true. Its first round can break what refuses it. Its second one
    needs that nothing is stored, or that what is stored may yet be released.
   */
  predicate MayGetLock(stored: bool, held: bool, pc: L.Pc) {
    match pc
    case Starting(first) => first || !stored || held
    case Inserting(first, _) => first || !stored || held
    case Refused(first) => first && stored
    case Checking(found, _) => found.Some?
    case Deleting => true
    case _ => false
  }

  ghost predicate MayRun(s: Shared, p: nat, task: L.Digest) {
    && p in s.handlings && s.handlings[p].task == task
    && match s.handlings[p].pc
       case Fetched => true
       case Asking =>
         p in s.locks.s.sessions && MayGetLock(task in s.locks.s.docs, Held(s, task), s.locks.s.sessions[p].pc)
       case Locking => true
       case Marked => true
       case _ => false
  }

  /** It is yet to be created, pending, or in the hands of a handling that may get to run it. */
  ghost predicate CanRun(s: Shared, task: L.Digest) {
    task !in s.store || s.store[task] == PENDING || exists p :: MayRun(s, p, task)
  }

  // ---------------------------------------------------------------------------------
  // If not, it stays so
  // ---------------------------------------------------------------------------------

  lemma NoNewHolder(s: Shared, e: Event, task: L.Digest)
    requires Linked(s) && CanHappen(s, e) && !CanRun(s, task) && Held(Following(s, e), task)
    ensures Held(s, task)
  {
    var t := Following(s, e);
    var p :| HoldsIt(t, p, task);
    if Concerns(e, p) && p in s.handlings {
      assert LinkedAt(s, p);
      assert !MayRun(s, p, task);
    }
    assert HoldsIt(s, p, task);
  }

  /** No document appears under the id, and only a holder takes one away. */
  lemma DocStays(s: Shared, e: Event, task: L.Digest)
    requires Linked(s) && CanHappen(s, e) && !CanRun(s, task)
    ensures task in Following(s, e).locks.s.docs ==> task in s.locks.s.docs
    ensures task in s.locks.s.docs && task !in Following(s, e).locks.s.docs ==> Held(s, task)
  {
    if e.Acquire? || e.GiveBack? || e.Die? {
      assert LinkedAt(s, e.who);
      assert !MayRun(s, e.who, task);
      assert e.GiveBack? && s.handlings[e.who].task == task ==> HoldsIt(s, e.who, task);
    }
  }

  lemma NoNewHope(s: Shared, e: Event, task: L.Digest, p: nat)
    requires Linked(s) && CanHappen(s, e) && !CanRun(s, task)
    ensures !MayRun(Following(s, e), p, task)
  {
    var t := Following(s, e);
    if MayRun(t, p, task) {
      assert !MayRun(s, p, task);
      DocStays(s, e, task);
      if Held(t, task) {
        NoNewHolder(s, e, task);
      }
      if p in s.handlings {
        assert LinkedAt(s, p);
        if !Concerns(e, p) {
          OthersStay(s, e, p);
        }
      }
    }
  }

  lemma StaysDone(s: Shared, e: Event, task: L.Digest)
    requires Linked(s) && CanHappen(s, e) && !CanRun(s, task)
    requires e.Restart? ==> s.store[task] != RUNNING
    ensures !CanRun(Following(s, e), task) && RunsOf(Following(s, e), task) == RunsOf(s, task)
    ensures s.store[task] != RUNNING ==> Following(s, e).store[task] != RUNNING
  {
    forall p
      ensures !MayRun(Following(s, e), p, task)
    {
      NoNewHope(s, e, task, p);
    }
    if e.Work? {
      assert !MayRun(s, e.who, task);
    }
  }

  lemma {:induction false} NeverAgain(step: (Shared, Shared) -> bool, s: Shared, task: L.Digest)
    requires Linked(s) && !CanRun(s, task)
    requires step == CalmStep || (step == SweepStep && s.store[task] != RUNNING)
    ensures !RunsAgain(step, s, task)
  {
    var runs, calm := RunsOf(s, task), step == CalmStep;
    var keep: Shared -> bool :=
      t => Linked(t) && !CanRun(t, task) && RunsOf(t, task) == runs && (calm || t.store[task] != RUNNING);
    forall u, v | step(u, v) && keep(u)
      ensures keep(v)
    {
      var e :| CanHappen(u, e) && v == Following(u, e) && (calm ==> !e.Restart?);
      KeepsLinked(u, e);
      StaysDone(u, e, task);
    }
    forall t | LeadsTo(step, s, t)
      ensures RunsOf(t, task) == runs
    {
      var run :| Follows(step, run) && run[0] == s && run[|run| - 1] == t;
      KeptAlong(step, keep, run, |run| - 1);
    }
  }

  // ---------------------------------------------------------------------------------
  // If so, it can be run
  // ---------------------------------------------------------------------------------

  ghost predicate Runnable(s: Shared, task: L.Digest) {
    RunsAgain(CalmStep, s, task)
  }

  lemma First(s: Shared, e: Event, task: L.Digest)
    requires CanHappen(s, e) && !e.Restart? && Runnable(Following(s, e), task)
    ensures Runnable(s, task)
  {
    var t := Following(s, e);
    var u :| LeadsTo(CalmStep, t, u) && RunsOf(u, task) > RunsOf(t, task);
    assert CalmStep(s, t);
    OneBefore(CalmStep, s, t, u);
  }

  lemma FromMarked(s: Shared, p: nat)
    requires Linked(s) && IsAt(s, p, Marked)
    ensures Runnable(s, s.handlings[p].task)
  {
    assert LinkedAt(s, p);
    var t := Following(s, Work(p, BeginRun));
    assert CalmStep(s, t);
    Stay(CalmStep, s);
    OneMore(CalmStep, s, s, t);
  }

  lemma FromLocking(s: Shared, p: nat)
    requires Linked(s) && IsAt(s, p, Locking)
    ensures Runnable(s, s.handlings[p].task)
  {
    assert LinkedAt(s, p);
    var e := Work(p, MarkRunning);
    KeepsLinked(s, e);
    FromMarked(Following(s, e), p);
    First(s, e, s.handlings[p].task);
  }

  predicate AsksAt(s: Shared, p: nat, pc: L.Pc) {
    IsAt(s, p, Asking) && p in s.locks.s.sessions && s.locks.s.sessions[p].pc == pc
  }

  predicate IsFree(s: Shared, task: L.Digest) {
    task !in s.locks.s.docs
  }

  /** The session makes its move and stays in `acquire`. */
  lemma Acquires(s: Shared, p: nat, m: L.Move) returns (t: Shared)
    requires Linked(s) && IsAt(s, p, Asking) && CanHappen(s, Acquire(p, m))
    ensures t == Following(s, Acquire(p, m)) && Linked(t) && t.handlings[p].task == s.handlings[p].task
    ensures Runnable(t, s.handlings[p].task) ==> Runnable(s, s.handlings[p].task)
  {
    t := Following(s, Acquire(p, m));
    KeepsLinked(s, Acquire(p, m));
    if Runnable(t, s.handlings[p].task) {
      First(s, Acquire(p, m), s.handlings[p].task);
    }
  }

  lemma FromFreeInsert(s: Shared, p: nat, first: bool, until: int)
    requires Linked(s) && AsksAt(s, p, L.Inserting(first, until)) && IsFree(s, s.handlings[p].task)
    ensures Runnable(s, s.handlings[p].task)
  {
    assert LinkedAt(s, p);
    var t := Acquires(s, p, L.Insert);
    FromLocking(t, p);
  }

  lemma FromFreeStart(s: Shared, p: nat, first: bool)
    requires Linked(s) && AsksAt(s, p, L.Starting(first)) && IsFree(s, s.handlings[p].task)
    ensures Runnable(s, s.handlings[p].task)
  {
    assert LinkedAt(s, p);
    var t := Acquires(s, p, L.Start);
    FromFreeInsert(t, p, first, t.locks.s.sessions[p].pc.until);
  }

  lemma FromDeleting(s: Shared, p: nat)
    requires Linked(s) && AsksAt(s, p, L.Deleting)
    ensures Runnable(s, s.handlings[p].task)
  {
    assert LinkedAt(s, p);
    var t := Acquires(s, p, L.Delete);
    FromFreeStart(t, p, false);
  }

  /** The lock that was read has an expiration: the session may be slow enough to see it pass. */
  lemma FromChecking(s: Shared, p: nat, found: L.Lock, readAt: int)
    requires Linked(s) && AsksAt(s, p, L.Checking(Some(found), readAt))
    ensures Runnable(s, s.handlings[p].task)
  {
    assert LinkedAt(s, p);
    var now := s.locks.s.now;
    var e := Pass(if found.expiration.value < now then 0 else found.expiration.value - now + 1);
    KeepsLinked(s, e);
    var t := Following(s, e);
    var u := Acquires(t, p, L.Check);
    FromDeleting(u, p);
    First(s, e, s.handlings[p].task);
  }

  lemma FromRefused(s: Shared, p: nat)
    requires Linked(s) && AsksAt(s, p, L.Refused(true)) && !IsFree(s, s.handlings[p].task)
    ensures Runnable(s, s.handlings[p].task)
  {
    assert LinkedAt(s, p);
    var t := Acquires(s, p, L.Read);
    FromChecking(t, p, s.locks.s.docs[s.handlings[p].task].lock, s.locks.s.now);
  }

  lemma FromFirstInsert(s: Shared, p: nat, until: int)
    requires Linked(s) && AsksAt(s, p, L.Inserting(true, until))
    ensures Runnable(s, s.handlings[p].task)
  {
    assert LinkedAt(s, p);
    if IsFree(s, s.handlings[p].task) {
      FromFreeInsert(s, p, true, until);
    } else {
      var t := Acquires(s, p, L.Insert);
      FromRefused(t, p);
    }
  }

  lemma FromFirstStart(s: Shared, p: nat)
    requires Linked(s) && AsksAt(s, p, L.Starting(true))
    ensures Runnable(s, s.handlings[p].task)
  {
    assert LinkedAt(s, p);
    var t := Acquires(s, p, L.Start);
    FromFirstInsert(t, p, t.locks.s.sessions[p].pc.until);
  }

  lemma FromFetched(s: Shared, p: nat)
    requires Linked(s) && IsAt(s, p, Fetched)
    ensures Runnable(s, s.handlings[p].task)
  {
    assert LinkedAt(s, p);
    KeepsLinked(s, Ask(p));
    FromFirstStart(Following(s, Ask(p)), p);
    First(s, Ask(p), s.handlings[p].task);
  }

  lemma {:induction false} Unused(who: set<nat>) returns (p: nat)
    ensures forall q <- who :: q < p
  {
    if who == {} {
      p := 0;
    } else {
      SomeMember(who);
      var q :| q in who;
      p := Unused(who - {q});
      p := if q < p then p else q + 1;
      assert forall r <- who :: r == q || r in who - {q};
    }
  }

  lemma FromPending(s: Shared, task: L.Digest)
    requires Linked(s) && task in s.store && s.store[task] == PENDING
    ensures Runnable(s, task)
  {
    var p := Unused(s.handlings.Keys);
    KeepsLinked(s, Fetch(p, task));
    FromFetched(Following(s, Fetch(p, task)), p);
    First(s, Fetch(p, task), task);
  }

  lemma FromAbsent(s: Shared, task: L.Digest)
    requires Linked(s) && task !in s.store
    ensures Runnable(s, task)
  {
    KeepsLinked(s, Create(task));
    FromPending(Following(s, Create(task)), task);
    First(s, Create(task), task);
  }

  /** In a second round, or a first one. */
  lemma FromFree(s: Shared, p: nat, task: L.Digest)
    requires Linked(s) && p in s.handlings && s.handlings[p].task == task && s.handlings[p].pc.Asking?
    requires p in s.locks.s.sessions && IsFree(s, task)
    requires s.locks.s.sessions[p].pc.Starting? || s.locks.s.sessions[p].pc.Inserting?
    ensures Runnable(s, task)
  {
    match s.locks.s.sessions[p].pc
    case Starting(first) => FromFreeStart(s, p, first);
    case Inserting(first, until) => FromFreeInsert(s, p, first, until);
  }

  /** The holder `q` gets one step nearer to `finally`. */
  lemma Throws(s: Shared, p: nat, q: nat, task: L.Digest) returns (t: Shared)
    requires Linked(s) && HoldsIt(s, q, task) && !s.handlings[q].pc.Unlocking?
    requires p in s.handlings && s.handlings[p].pc.Asking?
    ensures Linked(t) && t.locks == s.locks && HoldsIt(t, q, task)
    ensures p in t.handlings && t.handlings[p] == s.handlings[p]
    ensures t.handlings[q].pc == if s.handlings[q].pc.InCatch? then Unlocking else InCatch
    ensures Runnable(t, task) ==> Runnable(s, task)
  {
    assert LinkedAt(s, q);
    t := Following(s, Work(q, Throw));
    KeepsLinked(s, Work(q, Throw));
    if Runnable(t, task) {
      First(s, Work(q, Throw), task);
    }
  }

  /** The holder `q` gives the lock back, and `p` takes it. */
  lemma AfterHolder(s: Shared, p: nat, q: nat, task: L.Digest)
    requires Linked(s) && p in s.handlings && s.handlings[p].task == task && s.handlings[p].pc.Asking?
    requires p in s.locks.s.sessions && (s.locks.s.sessions[p].pc.Starting? || s.locks.s.sessions[p].pc.Inserting?)
    requires HoldsIt(s, q, task)
    ensures Runnable(s, task)
    decreases if s.handlings[q].pc.Unlocking? then 0 else if s.handlings[q].pc.InCatch? then 1 else 2
  {
    if s.handlings[q].pc.Unlocking? {
      assert LinkedAt(s, q);
      KeepsLinked(s, GiveBack(q));
      FromFree(Following(s, GiveBack(q)), p, task);
      First(s, GiveBack(q), task);
    } else {
      var t := Throws(s, p, q, task);
      AfterHolder(t, p, q, task);
    }
  }

  lemma FromAsking(s: Shared, p: nat, task: L.Digest)
    requires Linked(s) && MayRun(s, p, task) && s.handlings[p].pc.Asking?
    ensures Runnable(s, task)
  {
    match s.locks.s.sessions[p].pc
    case Starting(first) =>
      if first {
        FromFirstStart(s, p);
      } else {
        FromSecond(s, p, task);
      }
    case Inserting(first, until) =>
      if first {
        FromFirstInsert(s, p, until);
      } else {
        FromSecond(s, p, task);
      }
    case Refused(_) => FromRefused(s, p);
    case Checking(found, readAt) => FromChecking(s, p, found.value, readAt);
    case Deleting => FromDeleting(s, p);
  }

  lemma FromSecond(s: Shared, p: nat, task: L.Digest)
    requires Linked(s) && MayRun(s, p, task) && s.handlings[p].pc.Asking?
    requires s.locks.s.sessions[p].pc.Starting? || s.locks.s.sessions[p].pc.Inserting?
    requires IsFree(s, task) || Held(s, task)
    ensures Runnable(s, task)
  {
    if IsFree(s, task) {
      FromFree(s, p, task);
    } else {
      var q :| HoldsIt(s, q, task);
      AfterHolder(s, p, q, task);
    }
  }

  lemma CanRunIsRunnable(s: Shared, task: L.Digest)
    requires Linked(s) && CanRun(s, task)
    ensures Runnable(s, task)
  {
    if task !in s.store {
      FromAbsent(s, task);
    } else if s.store[task] == PENDING {
      FromPending(s, task);
    } else {
      var p :| MayRun(s, p, task);
      match s.handlings[p].pc
      case Fetched => FromFetched(s, p);
      case Asking => FromAsking(s, p, task);
      case Locking => FromLocking(s, p);
      case Marked => FromMarked(s, p);
    }
  }

  // ---------------------------------------------------------------------------------
  // Exactly when
  // ---------------------------------------------------------------------------------

  /**
    From any reachable state, and while no server is started: some continuation runs the task
    once more if and only if it is yet to come, pending, or a handling may get to run it.
   */
  lemma RunsAgainIff(run: seq<Shared>, k: nat, task: L.Digest)
    requires IsSweepRun(run) && k < |run|
    ensures RunsAgain(CalmStep, run[k], task) <==> CanRun(run[k], task)
  {
    InvOverRuns(run, k);
    if CanRun(run[k], task) {
      CanRunIsRunnable(run[k], task);
    } else {
      NeverAgain(CalmStep, run[k], task);
    }
  }

  /** If servers may be started as well, a task that is RUNNING can be run once more, and no other. */
  lemma RunsAgainWithRestartsIff(run: seq<Shared>, k: nat, task: L.Digest)
    requires IsSweepRun(run) && k < |run|
    ensures RunsAgain(SweepStep, run[k], task) <==> CanRun(run[k], task) || run[k].store[task] == RUNNING
  {
    var s := run[k];
    InvOverRuns(run, k);
    if CanRun(s, task) {
      CanRunIsRunnable(s, task);
      CalmIsSweep(s, s, task);
    } else if s.store[task] == RUNNING {
      var t := Following(s, Restart);
      KeepsLinked(s, Restart);
      CanRunIsRunnable(t, task);
      Stay(SweepStep, s);
      assert SweepStep(s, t);
      CalmIsSweep(s, t, task);
    } else {
      NeverAgain(SweepStep, s, task);
    }
  }

  lemma CalmIsSweep(s: Shared, t: Shared, task: L.Digest)
    requires s == t || SweepStep(s, t)
    requires Runnable(t, task) && RunsOf(s, task) == RunsOf(t, task)
    ensures RunsAgain(SweepStep, s, task)
  {
    var u :| LeadsTo(CalmStep, t, u) && RunsOf(u, task) > RunsOf(t, task);
    Wider(CalmStep, SweepStep, t, u);
    if s != t {
      OneBefore(SweepStep, s, t, u);
    }
  }
}
