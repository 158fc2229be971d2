/**
  Sweeps that overlap, on top of the lease lock, as one system: the database watch and the
  other servers start a sweep whenever a task becomes pending, each sweep works on the snapshot
  it fetched, and a handling gets to its task by the insert that makes its session the holder.
  Tasks are those of known name. They are named by the id of their lock: ids of different
  tasks differ, and no other lock has one of these (LockingManager.SameLockIffSameFields).
 */
module SweepOverlap {
  import opened Prelude
  import opened Runs
  import opened AsyncTaskManager
  import L = LockProtocol
  import opened TimedLocks

  const TASK_LOCK_SECS: nat := 15 * 60

  datatype Pc =
    | Fetched
    | Asking     // in `acquire`
    | Locking    // holds the lock
    | Marked     // saved as RUNNING
    | InRun
    | AfterRun
    | Succeeded  // saved as SUCCESS
    | InCatch
    | Unlocking  // in `finally`
    | Over

  /**
    One fetched task of one sweep. `seen` is how often the task had been run when it was
    fetched, and `ran` whether this handling runs it; no step reads them.
   */
  datatype Handling = Handling(task: L.Digest, pc: Pc, seen: nat, ran: bool)

  /**
    Session `p` of the lock is the one of handling `p`. `runs` counts the calls of a task's
    `run`, and `restarts` the servers started meanwhile; no step reads them.
   */
  datatype Shared = Shared(
    store: map<L.Digest, Status>, locks: Timed, handlings: map<nat, Handling>, runs: map<L.Digest, nat>, restarts: nat)

  datatype WorkStep =
    | MarkRunning
    | BeginRun
    | EndRun
    | MarkSuccess
    | LogSuccess
    | MarkError
    | Throw       // a save, a log or the run itself; the save may have come through

  datatype Event =
    | Pass(millis: nat)
    | Create(task: L.Digest)
    | Fetch(who: nat, task: L.Digest)
    | Ask(who: nat)
    | Acquire(who: nat, move: L.Move)
    | Work(who: nat, step: WorkStep)
    | GiveBack(who: nat)
    | Die(who: nat)  // the process stops, or a call of the lock manager throws
    | Restart        // RUNNING tasks are made pending

  function RunsOf(s: Shared, task: L.Digest): nat {
    if task in s.runs then s.runs[task] else 0
  }

  predicate MayStep(pc: Pc, step: WorkStep) {
    match step
    case MarkRunning => pc.Locking?
    case BeginRun => pc.Marked?
    case EndRun => pc.InRun?
    case MarkSuccess => pc.AfterRun?
    case LogSuccess => pc.Succeeded?
    case MarkError => pc.InCatch?
    case Throw => HasLock(pc) && !pc.Unlocking?
  }

  function PcAfter(pc: Pc, step: WorkStep): Pc {
    match step
    case MarkRunning => Marked
    case BeginRun => InRun
    case EndRun => AfterRun
    case MarkSuccess => Succeeded
    case LogSuccess => Unlocking
    case MarkError => Unlocking
    case Throw => if pc.InCatch? then Unlocking else InCatch
  }

  function StatusAfter(status: Status, step: WorkStep): Status {
    match step
    case MarkRunning => RUNNING
    case MarkSuccess => SUCCESS
    case MarkError => ERROR
    case _ => status
  }

  /** The statuses saved are those that the statements of a sweep save. */
  lemma SavesAlike(name: TaskName, status: Status)
    ensures Saved(map[0 := AsyncTask(name, status)], 0, Running)[0].status == StatusAfter(status, MarkRunning)
    ensures Saved(map[0 := AsyncTask(name, status)], 0, Releasing(true))[0].status == StatusAfter(status, MarkSuccess)
    ensures Saved(map[0 := AsyncTask(name, status)], 0, Releasing(false))[0].status == StatusAfter(status, MarkError)
    ensures Saved(map[0 := AsyncTask(name, status)], 0, Failing)[0].status == StatusAfter(status, Throw)
  {
  }

  /** How far a handling has come in terms of the statements of a sweep. */
  predicate InStep(pc: Pc, p: Phase) {
    match pc
    case Fetched => p.NotStarted?
    case Asking => p == Phase.Acquiring
    case Locking => p == Phase.Locked
    case Marked => p.Running?
    case InRun => p.Running?
    case AfterRun => p.Ran?
    case Succeeded => p == Releasing(true)
    case InCatch => p.Failing?
    case Unlocking => p.Releasing?
    case Over => p.Done?
  }

  lemma LocksInStep(pc: Pc, p: Phase)
    requires InStep(pc, p)
    ensures HasLock(pc) <==> HoldsLock(p)
    ensures InStep(Fetched, NotStarted) && InStep(Locking, Phase.Locked)
  {
  }

  /**
    Each step of a handling is one that the statements of a sweep make, or part of one; only
    errors after a save has come through or inside `catch` are more.
   */
  lemma StepsAlike(pc: Pc, p: Phase, step: WorkStep)
    requires InStep(pc, p) && MayStep(pc, step) && !(step.Throw? && (pc.InCatch? || pc.Succeeded?))
    ensures InStep(PcAfter(pc, step), p)
            || exists fate :: InStep(PcAfter(pc, step), NextPhase(p, true, fate))
  {
    var fate := Fate(true, step.Throw?, step.Throw?, step.Throw?);
    assert InStep(PcAfter(pc, step), p) || InStep(PcAfter(pc, step), NextPhase(p, true, fate));
  }

  /** A handling that has its lock can go on, with an error and without one, until it is in `finally`. */
  lemma CanGoOn(pc: Pc)
    requires HasLock(pc) && !pc.Unlocking?
    ensures MayStep(pc, Throw) && PcAfter(pc, Throw) == if pc.InCatch? then Unlocking else InCatch
    ensures exists step: WorkStep :: MayStep(pc, step) && step != Throw
    ensures MayStep(InCatch, MarkError) && PcAfter(InCatch, MarkError) == Unlocking
  {
    var step := match pc
      case Locking => MarkRunning
      case Marked => BeginRun
      case InRun => EndRun
      case AfterRun => MarkSuccess
      case Succeeded => LogSuccess
      case _ => MarkError;
    assert MayStep(pc, step) && step != Throw;
  }

  /** A handling whose `acquire` has returned goes on or is over, and no other one does. */
  lemma AcquireReturns(s: Shared, p: nat, m: L.Move)
    requires CanHappen(s, Acquire(p, m))
    ensures var t := Following(s, Acquire(p, m));
            && (t.handlings[p].pc.Locking? <==> L.Holds(t.locks.s, p))
            && (t.handlings[p].pc.Over? <==>
                  t.locks.s.sessions[p].pc.Finished? || t.locks.s.sessions[p].pc == L.Refused(false))
  {
  }

  predicate IsAt(s: Shared, p: nat, pc: Pc) {
    p in s.handlings && s.handlings[p].pc == pc
  }

  predicate CanHappen(s: Shared, e: Event) {
    match e
    case Pass(_) => true
    case Create(task) => task !in s.store
    case Fetch(p, task) => p !in s.handlings && task in s.store && s.store[task] == PENDING
    case Ask(p) => IsAt(s, p, Fetched) && p !in s.locks.s.sessions
    case Acquire(p, m) => IsAt(s, p, Asking) && L.Enabled(s.locks.s, L.Act(p, m)) && !m.Release? && !m.Crash?
    case Work(p, step) => p in s.handlings && s.handlings[p].task in s.store && MayStep(s.handlings[p].pc, step)
    case GiveBack(p) => IsAt(s, p, Unlocking) && L.Enabled(s.locks.s, L.Act(p, L.Release))
    case Die(p) => p in s.handlings
    case Restart => true
  }

  predicate Concerns(e: Event, p: nat) {
    match e
    case Pass(_) => false
    case Create(_) => false
    case Restart => false
    case _ => e.who == p
  }

  /** The step that the lock collection makes, if any. */
  function LockAction(s: Shared, e: Event): Option<L.Action>
    requires CanHappen(s, e)
  {
    match e
    case Pass(millis) => Some(L.Tick(millis))
    case Ask(p) =>
      var now := s.locks.s.now;
      Some(L.Begin(p, L.Lock(s.handlings[p].task, now, L.Lease(now, TASK_LOCK_SECS)), 0))
    case Acquire(p, m) => Some(L.Act(p, m))
    case GiveBack(p) => Some(L.Act(p, L.Release))
    case Die(p) => if p in s.locks.s.sessions then Some(L.Act(p, L.Crash)) else None
    case _ => None
  }

  function LocksAfter(s: Shared, e: Event): Timed
    requires CanHappen(s, e)
  {
    if LockAction(s, e).Some? then After(s.locks, LockAction(s, e).value) else s.locks
  }

  /** Where `acquire` has got the handling to: it goes on once it has returned. */
  function Returned(pc: L.Pc): Pc {
    if pc.Holding? then Locking else if pc.Finished? || pc == L.Refused(false) then Over else Asking
  }

  function MovedTo(s: Shared, p: nat, pc: Pc): map<nat, Handling>
    requires p in s.handlings
  {
    s.handlings[p := s.handlings[p].(pc := pc)]
  }

  function Worked(s: Shared, p: nat, step: WorkStep): Shared
    requires p in s.handlings && s.handlings[p].task in s.store
  {
    var h := s.handlings[p];
    s.(store := s.store[h.task := StatusAfter(s.store[h.task], step)],
       handlings := s.handlings[p := h.(pc := PcAfter(h.pc, step), ran := h.ran || step.BeginRun?)],
       runs := if step.BeginRun? then s.runs[h.task := RunsOf(s, h.task) + 1] else s.runs)
  }

  function Following(s: Shared, e: Event): Shared
    requires CanHappen(s, e)
  {
    var t := s.(locks := LocksAfter(s, e));
    match e
    case Pass(_) => t
    case Create(task) => t.(store := s.store[task := PENDING])
    case Fetch(p, task) => t.(handlings := s.handlings[p := Handling(task, Fetched, RunsOf(s, task), false)])
    case Ask(p) => t.(handlings := MovedTo(s, p, Asking))
    case Acquire(p, _) => t.(handlings := MovedTo(s, p, Returned(t.locks.s.sessions[p].pc)))
    case Work(p, step) => Worked(t, p, step)
    case GiveBack(p) => t.(handlings := MovedTo(s, p, Over))
    case Die(p) => t.(handlings := MovedTo(s, p, Over))
    case Restart =>
      t.(store := map task | task in s.store :: if s.store[task] == RUNNING then PENDING else s.store[task],
         restarts := s.restarts + 1)
  }

  ghost predicate SweepStep(s: Shared, t: Shared) {
    exists e :: CanHappen(s, e) && t == Following(s, e)
  }

  /** Locks may be left over from earlier crashes, all made by `acquireAsyncTaskLock`. */
  ghost predicate AtFirst(s: Shared) {
    && L.Init(s.locks.s) && s.handlings == map[] && s.runs == map[] && s.restarts == 0
    && DocsExpire(s.locks.s)
  }

  ghost predicate IsSweepRun(run: seq<Shared>) {
    Follows(SweepStep, run) && AtFirst(run[0])
  }

  // ---------------------------------------------------------------------------------
  // What holds in every run
  // ---------------------------------------------------------------------------------

  predicate HasLock(pc: Pc) {
    !pc.Fetched? && !pc.Asking? && !pc.Over?
  }

  /** A handling is between `acquire` and the end of `finally` exactly while its session holds the lock of its task. */
  predicate LinkedAt(s: Shared, p: nat)
    requires p in s.handlings
  {
    var h := s.handlings[p];
    && h.task in s.store
    && (HasLock(h.pc) <==> L.Holds(s.locks.s, p))
    && (h.pc.Fetched? <==> p !in s.locks.s.sessions && !h.pc.Over?)
    && (p in s.locks.s.sessions ==> TaskSession(s.locks.s.sessions[p], h.task))
  }

  /** A session of `acquireAsyncTaskLock`: no wait, and all locks it may see have an expiration. */
  predicate TaskSession(session: L.Session, task: L.Digest) {
    && session.lock.id == task && session.timeoutSecs == 0 && !session.pc.Sleeping?
    && session.lock.expiration.Some?
    && (session.pc.Checking? && session.pc.found.Some? ==> session.pc.found.value.expiration.Some?)
  }

  ghost predicate Linked(s: Shared) {
    && (forall p <- s.handlings :: LinkedAt(s, p))
    && (forall p <- s.locks.s.sessions :: p in s.handlings)
    && DocsExpire(s.locks.s)
  }

  predicate DocsExpire(locks: L.State) {
    forall task <- locks.docs :: locks.docs[task].lock.expiration.Some?
  }

  predicate YetToRun(pc: Pc) {
    pc.Fetched? || pc.Asking? || pc.Locking? || pc.Marked?
  }

  function Runners(s: Shared, task: L.Digest): set<nat> {
    set p | p in s.handlings && s.handlings[p].task == task && s.handlings[p].ran
  }

  /** A handling runs its task once, and each run has its handling. */
  ghost predicate RunsCounted(s: Shared) {
    RunnersFresh(s) && forall task :: RunsOf(s, task) == |Runners(s, task)|
  }

  predicate RunnersFresh(s: Shared) {
    forall p <- s.handlings :: YetToRun(s.handlings[p].pc) ==> !s.handlings[p].ran
  }

  /** Unless a server was started, a task that has been run is not pending, and was fetched before. */
  ghost predicate OnlyFreshFetched(s: Shared) {
    && (forall task <- s.runs :: task in s.store)
    && (s.restarts == 0 ==>
          && (forall task <- s.store :: s.store[task] == PENDING ==> RunsOf(s, task) == 0)
          && (forall p <- s.handlings :: s.handlings[p].seen == 0 && s.handlings[p].task in s.store)
          && (forall p <- s.handlings ::
                s.handlings[p].pc in {Marked, InRun, AfterRun} ==> s.store[s.handlings[p].task] != PENDING))
  }

  lemma KeepsDocsExpire(s: Shared, e: Event)
    requires Linked(s) && CanHappen(s, e)
    ensures DocsExpire(Following(s, e).locks.s)
  {
    if e.Acquire? || e.GiveBack? || e.Die? {
      assert LinkedAt(s, e.who);
    }
  }

  lemma KeepsTaskSession(s: L.State, p: nat, m: L.Move, task: L.Digest)
    requires L.Enabled(s, L.Act(p, m)) && TaskSession(s.sessions[p], task) && DocsExpire(s)
    ensures TaskSession(L.Apply(s, L.Act(p, m)).sessions[p], task)
  {
  }

  /** An event that is not one of handling `p` leaves it where it is. */
  lemma OthersStay(s: Shared, e: Event, p: nat)
    requires CanHappen(s, e) && p in s.handlings && !Concerns(e, p)
    ensures p in Following(s, e).handlings && Following(s, e).handlings[p] == s.handlings[p]
    ensures p in Following(s, e).locks.s.sessions <==> p in s.locks.s.sessions
    ensures p in s.locks.s.sessions ==> Following(s, e).locks.s.sessions[p] == s.locks.s.sessions[p]
  {
  }

  lemma AcquireKeepsLinkedAt(s: Shared, p: nat, m: L.Move)
    requires Linked(s) && CanHappen(s, Acquire(p, m))
    ensures LinkedAt(Following(s, Acquire(p, m)), p)
  {
    assert LinkedAt(s, p);
    KeepsTaskSession(s.locks.s, p, m, s.handlings[p].task);
  }

  lemma KeepsLinkedAt(s: Shared, e: Event, p: nat)
    requires Linked(s) && CanHappen(s, e) && p in Following(s, e).handlings
    ensures LinkedAt(Following(s, e), p)
  {
    if !Concerns(e, p) {
      OthersStay(s, e, p);
      assert LinkedAt(s, p);
    } else if e.Acquire? {
      AcquireKeepsLinkedAt(s, p, e.move);
    } else if p in s.handlings {
      assert LinkedAt(s, p);
    }
  }

  lemma KeepsLinked(s: Shared, e: Event)
    requires Linked(s) && CanHappen(s, e)
    ensures Linked(Following(s, e))
  {
    KeepsDocsExpire(s, e);
    forall p | p in Following(s, e).handlings
      ensures LinkedAt(Following(s, e), p)
    {
      KeepsLinkedAt(s, e, p);
    }
  }

  lemma KeepsRunnersFresh(s: Shared, e: Event)
    requires RunnersFresh(s) && CanHappen(s, e)
    ensures RunnersFresh(Following(s, e))
  {
  }

  lemma RunnersAfter(s: Shared, e: Event, task: L.Digest)
    requires RunnersFresh(s) && CanHappen(s, e)
    ensures var begins := e.Work? && e.step.BeginRun? && s.handlings[e.who].task == task;
            && RunsOf(Following(s, e), task) == RunsOf(s, task) + (if begins then 1 else 0)
            && |Runners(Following(s, e), task)| == |Runners(s, task)| + (if begins then 1 else 0)
  {
    var t := Following(s, e);
    if e.Work? && e.step.BeginRun? && s.handlings[e.who].task == task {
      assert e.who !in Runners(s, task);
      assert Runners(t, task) == Runners(s, task) + {e.who};
    } else {
      assert Runners(t, task) == Runners(s, task);
    }
  }

  lemma KeepsRunsCounted(s: Shared, e: Event)
    requires RunsCounted(s) && CanHappen(s, e)
    ensures RunsCounted(Following(s, e))
  {
    KeepsRunnersFresh(s, e);
    forall task
      ensures RunsOf(Following(s, e), task) == |Runners(Following(s, e), task)|
    {
      RunnersAfter(s, e, task);
    }
  }

  lemma KeepsFreshFetched(s: Shared, e: Event)
    requires OnlyFreshFetched(s) && CanHappen(s, e)
    ensures OnlyFreshFetched(Following(s, e))
  {
  }

  ghost predicate OverlapInv(s: Shared) {
    Linked(s) && RunsCounted(s) && OnlyFreshFetched(s)
  }

  lemma {:induction false} InvOverRuns(run: seq<Shared>, k: nat)
    requires IsSweepRun(run) && k < |run|
    ensures OverlapInv(run[k])
  {
    if k == 0 {
      forall task
        ensures |Runners(run[0], task)| == 0
      {
        assert Runners(run[0], task) <= {};
      }
    } else {
      InvOverRuns(run, k - 1);
      assert StepAt(SweepStep, run, k - 1);
      var e :| CanHappen(run[k - 1], e) && run[k] == Following(run[k - 1], e);
      KeepsLinked(run[k - 1], e);
      KeepsRunsCounted(run[k - 1], e);
      KeepsFreshFetched(run[k - 1], e);
    }
  }

  /**
    A task has been run as often as handlings of it ran it, each once. If no server was started
    meanwhile, each of these had fetched it before its first run.
   */
  lemma RunsComeFromSnapshots(run: seq<Shared>, k: nat, task: L.Digest)
    requires IsSweepRun(run) && k < |run|
    ensures RunsOf(run[k], task) == |Runners(run[k], task)|
    ensures run[k].restarts == 0 ==> forall p <- Runners(run[k], task) :: run[k].handlings[p].seen == 0
  {
    InvOverRuns(run, k);
  }

  // ---------------------------------------------------------------------------------
  // Careful locks keep two handlings apart
  // ---------------------------------------------------------------------------------

  lemma KeepsLockInv(s: Shared, e: Event)
    requires L.Inv(s.locks.s) && L.Careful(s.locks.s) && CanHappen(s, e)
    ensures L.Inv(Following(s, e).locks.s)
  {
    if LockAction(s, e).Some? {
      L.ActionKeepsInv(s.locks.s, LockAction(s, e).value);
    }
  }

  lemma {:induction false} LockInvOverRuns(run: seq<Shared>, k: nat)
    requires IsSweepRun(run) && k < |run|
    requires forall i :: 0 <= i < k ==> L.Careful(run[i].locks.s)
    ensures L.Inv(run[k].locks.s)
  {
    if k > 0 {
      LockInvOverRuns(run, k - 1);
      assert StepAt(SweepStep, run, k - 1);
      var e :| CanHappen(run[k - 1], e) && run[k] == Following(run[k - 1], e);
      KeepsLockInv(run[k - 1], e);
    }
  }

  /** As long as the locks have been careful, no task is in the hands of two handlings at the same time. */
  lemma NeverTwiceAtOnce(run: seq<Shared>, k: nat, p: nat, q: nat)
    requires IsSweepRun(run) && k < |run| && p in run[k].handlings && q in run[k].handlings
    requires forall i :: 0 <= i < k ==> L.Careful(run[i].locks.s)
    requires HasLock(run[k].handlings[p].pc) && HasLock(run[k].handlings[q].pc)
    requires run[k].handlings[p].task == run[k].handlings[q].task
    ensures p == q
  {
    InvOverRuns(run, k);
    LockInvOverRuns(run, k);
    assert LinkedAt(run[k], p) && LinkedAt(run[k], q);
  }
}
