/**
  Migration passes of any servers on top of the lease lock, as one system: a pass gets in by the
  insert that makes its session the holder, reads what is recorded, and works on that snapshot.
 */
module MigrationPasses {
  import opened Prelude
  import opened Runs
  import opened MigrationHandler
  import L = LockProtocol

  const MIGRATION_LOCK_SECS: nat := 3600

  /** The id of the one lock of all passes. */
  const MIGRATION: L.Digest := 0

  datatype Pc =
    | Asking
    | Entered
    | Between(todo: seq<Task>)
    | Migrating(task: Task, todo: seq<Task>)  // in `migrate` of the task
    | Leaving                                 // in `finally`
    | Over

  datatype Pass = Pass(tasks: seq<Task>, asyncOnly: bool, pc: Pc)

  /** `ran` is every call of a task's `migrate` so far; no step reads it. */
  datatype Shared = Shared(locks: L.State, completed: Completed, passes: map<nat, Pass>, ran: seq<Migration>)

  datatype Event =
    | Tick(millis: nat)
    | Start(who: nat, tasks: seq<Task>, asyncOnly: bool)
    | Acquire(who: nat, move: L.Move)
    | Read(who: nat)
    | Execute(who: nat)
    | Executed(who: nat, recorded: bool)  // or the task or its save failed
    | Finish(who: nat)                    // all done, or something threw
    | Leave(who: nat)
    | Die(who: nat)

  predicate CanHappen(s: Shared, e: Event) {
    match e
    case Tick(_) => true
    case Start(p, _, _) => p !in s.passes && p !in s.locks.sessions
    case Acquire(p, m) =>
      && p in s.passes && s.passes[p].pc.Asking? && L.Enabled(s.locks, L.Act(p, m)) && !m.Release? && !m.Crash?
    case Read(p) => p in s.passes && s.passes[p].pc.Entered?
    case Execute(p) => p in s.passes && s.passes[p].pc.Between? && s.passes[p].pc.todo != []
    case Executed(p, _) => p in s.passes && s.passes[p].pc.Migrating?
    case Finish(p) => p in s.passes && (s.passes[p].pc.Entered? || s.passes[p].pc.Between?)
    case Leave(p) => p in s.passes && s.passes[p].pc.Leaving? && L.Enabled(s.locks, L.Act(p, L.Release))
    case Die(p) => p in s.passes && p in s.locks.sessions
  }

  function LockAction(s: Shared, e: Event): Option<L.Action>
    requires CanHappen(s, e)
  {
    match e
    case Tick(millis) => Some(L.Tick(millis))
    case Start(p, _, _) =>
      Some(L.Begin(p, L.Lock(MIGRATION, s.locks.now, L.Lease(s.locks.now, MIGRATION_LOCK_SECS)), 0))
    case Acquire(p, m) => Some(L.Act(p, m))
    case Leave(p) => Some(L.Act(p, L.Release))
    case Die(p) => Some(L.Act(p, L.Crash))
    case _ => None
  }

  function LocksAfter(s: Shared, e: Event): L.State
    requires CanHappen(s, e)
  {
    if LockAction(s, e).Some? then L.Apply(s.locks, LockAction(s, e).value) else s.locks
  }

  /** Where `acquire` has got the pass to. */
  function Returned(pc: L.Pc): Pc {
    if pc.Holding? then Entered else if pc.Finished? || pc == L.Refused(false) then Over else Asking
  }

  function PassesAfter(s: Shared, e: Event): map<nat, Pass>
    requires CanHappen(s, e)
  {
    match e
    case Tick(_) => s.passes
    case Start(p, tasks, asyncOnly) => s.passes[p := Pass(tasks, asyncOnly, Asking)]
    case _ => s.passes[e.who := s.passes[e.who].(pc := PcAfter(s, e))]
  }

  function PcAfter(s: Shared, e: Event): Pc
    requires CanHappen(s, e) && !e.Tick? && !e.Start?
  {
    var pass := s.passes[e.who];
    match e
    case Acquire(p, m) => Returned(LocksAfter(s, e).sessions[p].pc)
    case Read(_) => Between(Todo(pass.tasks, s.completed, pass.asyncOnly))
    case Execute(_) => Migrating(pass.pc.todo[0], pass.pc.todo[1..])
    case Executed(_, _) => Between(pass.pc.todo)
    case Finish(_) => Leaving
    case Leave(_) => Over
    case Die(_) => Over
  }

  function Following(s: Shared, e: Event): Shared
    requires CanHappen(s, e)
  {
    Shared(
      LocksAfter(s, e),
      if e.Executed? && e.recorded then Saved(s.completed, s.passes[e.who].pc.task.migration) else s.completed,
      PassesAfter(s, e),
      if e.Execute? then s.ran + [s.passes[e.who].pc.todo[0].migration] else s.ran)
  }

  ghost predicate PassStep(s: Shared, t: Shared) {
    exists e :: CanHappen(s, e) && t == Following(s, e)
  }

  ghost predicate IsMigrationRun(run: seq<Shared>) {
    Follows(PassStep, run) && L.Init(run[0].locks) && run[0].passes == map[]
  }

  // ---------------------------------------------------------------------------------
  // What holds while the locks are careful
  // ---------------------------------------------------------------------------------

  predicate Inside(pc: Pc) {
    !pc.Asking? && !pc.Over?
  }

  /** A pass is between `acquire` and the end of `finally` exactly while its session holds the lock. */
  predicate LinkedAt(s: Shared, p: nat)
    requires p in s.passes
  {
    && p in s.locks.sessions && s.locks.sessions[p].lock.id == MIGRATION
    && (Inside(s.passes[p].pc) <==> L.Holds(s.locks, p))
  }

  ghost predicate Linked(s: Shared) {
    forall p <- s.passes :: LinkedAt(s, p)
  }

  /** The migrations a pass may still run, the one under way included. */
  function Ahead(pc: Pc): seq<Task> {
    match pc
    case Between(todo) => todo
    case Migrating(task, todo) => [task] + todo
    case _ => []
  }

  ghost predicate FreshAt(s: Shared, p: nat)
    requires p in s.passes
  {
    DistinctMigrations(s.passes[p].tasks) && NoneRecorded(Ahead(s.passes[p].pc), s.completed)
  }

  /** Different migrations, none of them recorded. */
  ghost predicate NoneRecorded(todo: seq<Task>, completed: Completed) {
    DistinctMigrations(todo) && forall t <- todo :: !Recorded(t.migration, completed)
  }

  ghost predicate Fresh(s: Shared) {
    forall p <- s.passes :: FreshAt(s, p)
  }

  lemma KeepsLinked(s: Shared, e: Event)
    requires Linked(s) && CanHappen(s, e)
    ensures Linked(Following(s, e))
  {
    var t := Following(s, e);
    forall p | p in t.passes
      ensures LinkedAt(t, p)
    {
      if p in s.passes {
        assert LinkedAt(s, p);
      }
    }
  }

  lemma KeepsLockInv(s: Shared, e: Event)
    requires L.Inv(s.locks) && L.Careful(s.locks) && CanHappen(s, e)
    ensures L.Inv(Following(s, e).locks)
  {
    if LockAction(s, e).Some? {
      L.ActionKeepsInv(s.locks, LockAction(s, e).value);
    }
  }

  lemma AloneInside(s: Shared, p: nat, q: nat)
    requires L.Inv(s.locks) && Linked(s) && p in s.passes && q in s.passes
    requires Inside(s.passes[p].pc) && Inside(s.passes[q].pc)
    ensures p == q
  {
    assert LinkedAt(s, p) && LinkedAt(s, q);
    assert s.locks.docs[MIGRATION] == L.Document(s.locks.sessions[p].lock, p);
  }

  lemma {:induction false} TodoDistinct(tasks: seq<Task>, completed: Completed, asyncOnly: bool)
    requires DistinctMigrations(tasks)
    ensures DistinctMigrations(Todo(tasks, completed, asyncOnly))
  {
    if tasks != [] {
      TodoDistinct(tasks[1..], completed, asyncOnly);
      forall t | t in Todo(tasks[1..], completed, asyncOnly)
        ensures t.migration != tasks[0].migration
      {
        TodoMember(tasks[1..], completed, asyncOnly, t);
        var i :| 0 <= i < |tasks[1..]| && tasks[1..][i] == t;
        assert tasks[i + 1] == t;
      }
    }
  }

  lemma TodoUnrecorded(tasks: seq<Task>, completed: Completed, asyncOnly: bool)
    requires DistinctMigrations(tasks)
    ensures NoneRecorded(Todo(tasks, completed, asyncOnly), completed)
  {
    TodoDistinct(tasks, completed, asyncOnly);
    forall t | t in Todo(tasks, completed, asyncOnly)
      ensures !Recorded(t.migration, completed)
    {
      TodoMember(tasks, completed, asyncOnly, t);
    }
  }

  /** Recording a migration leaves the others as recorded as they were. */
  lemma SavedRecords(completed: Completed, m: Migration, n: Migration)
    requires m != n && Recorded(n, Saved(completed, m))
    ensures Recorded(n, completed)
  {
    var id :| id in Saved(completed, m) && Saved(completed, m)[id] == n;
    assert id in completed && completed[id] == n;
  }

  lemma RestUnrecorded(task: Task, todo: seq<Task>, completed: Completed)
    requires NoneRecorded([task] + todo, completed)
    ensures NoneRecorded(todo, completed) && NoneRecorded(todo, Saved(completed, task.migration))
  {
    assert forall i :: 0 <= i < |todo| ==> todo[i] == ([task] + todo)[i + 1];
    forall t | t in todo
      ensures !Recorded(t.migration, completed) && !Recorded(t.migration, Saved(completed, task.migration))
    {
      var i :| 0 <= i < |todo| && todo[i] == t;
      assert ([task] + todo)[0] == task && ([task] + todo)[i + 1] == t && t in [task] + todo;
      if Recorded(t.migration, Saved(completed, task.migration)) {
        SavedRecords(completed, task.migration, t.migration);
      }
    }
  }

  /** Another pass has nothing ahead while this one records. */
  lemma OthersKeepFresh(s: Shared, e: Event, p: nat)
    requires L.Inv(s.locks) && Linked(s) && p in s.passes && FreshAt(s, p) && CanHappen(s, e)
    requires e.Tick? || e.who != p
    ensures p in Following(s, e).passes && FreshAt(Following(s, e), p)
  {
    if e.Executed? && Inside(s.passes[p].pc) {
      AloneInside(s, p, e.who);
    }
  }

  lemma KeepsFreshAt(s: Shared, e: Event, p: nat)
    requires L.Inv(s.locks) && Linked(s) && Fresh(s) && CanHappen(s, e) && p in Following(s, e).passes
    requires e.Start? ==> DistinctMigrations(e.tasks)
    ensures FreshAt(Following(s, e), p)
  {
    if p in s.passes {
      assert FreshAt(s, p);
    }
    var pc := if p in s.passes then s.passes[p].pc else Over;
    if e.Tick? || e.who != p {
      OthersKeepFresh(s, e, p);
    } else if e.Read? {
      TodoUnrecorded(s.passes[p].tasks, s.completed, s.passes[p].asyncOnly);
    } else if e.Execute? {
      assert [pc.todo[0]] + pc.todo[1..] == pc.todo;
    } else if e.Executed? {
      RestUnrecorded(pc.task, pc.todo, s.completed);
    }
  }

  ghost predicate PassesInv(s: Shared) {
    L.Inv(s.locks) && Linked(s) && Fresh(s)
  }

  ghost predicate AllDistinct(s: Shared) {
    forall p <- s.passes :: DistinctMigrations(s.passes[p].tasks)
  }

  lemma KeepsInv(s: Shared, e: Event)
    requires PassesInv(s) && L.Careful(s.locks) && CanHappen(s, e) && AllDistinct(Following(s, e))
    ensures PassesInv(Following(s, e))
  {
    KeepsLinked(s, e);
    KeepsLockInv(s, e);
    assert e.Start? ==> Following(s, e).passes[e.who].tasks == e.tasks;
    forall p | p in Following(s, e).passes
      ensures FreshAt(Following(s, e), p)
    {
      KeepsFreshAt(s, e, p);
    }
  }

  ghost predicate CarefulSoFar(run: seq<Shared>, k: nat)
    requires k < |run|
  {
    (forall i :: 0 <= i < k ==> L.Careful(run[i].locks)) && forall i :: 0 <= i <= k ==> AllDistinct(run[i])
  }

  lemma {:induction false} InvOverRuns(run: seq<Shared>, k: nat)
    requires IsMigrationRun(run) && k < |run| && CarefulSoFar(run, k)
    ensures PassesInv(run[k])
  {
    if k > 0 {
      InvOverRuns(run, k - 1);
      assert StepAt(PassStep, run, k - 1);
      var e :| CanHappen(run[k - 1], e) && run[k] == Following(run[k - 1], e);
      KeepsInv(run[k - 1], e);
    }
  }

  /** A task that has run is recorded exactly if its save goes through, unless its id is taken. */
  lemma ExecutedIsRecorded(s: Shared, p: nat, recorded: bool)
    requires CanHappen(s, Executed(p, recorded))
    ensures var m := s.passes[p].pc.task.migration;
            Following(s, Executed(p, recorded)).completed ==
              if recorded && Id(m) !in s.completed then s.completed[Id(m) := m] else s.completed
  {
  }

  /** No pass begins to run a recorded migration, and what is recorded stays so. */
  lemma RunsOnlyUnrecorded(s: Shared, e: Event, m: Migration)
    requires Fresh(s) && CanHappen(s, e) && Recorded(m, s.completed)
    ensures Recorded(m, Following(s, e).completed)
    ensures multiset(Following(s, e).ran)[m] == multiset(s.ran)[m]
  {
    var id :| id in s.completed && s.completed[id] == m;
    assert Following(s, e).completed[id] == m;
    if e.Execute? {
      assert FreshAt(s, e.who);
      assert s.passes[e.who].pc.todo[0] in Ahead(s.passes[e.who].pc);
    }
  }

  /**
    Whatever passes of whatever servers overlap: as long as the locks are careful and no list
    names a migration twice, what was recorded once is never run again.
   */
  lemma {:induction false} RecordedNeverRunsAgain(run: seq<Shared>, i: nat, k: nat, m: Migration)
    requires IsMigrationRun(run) && i <= k < |run| && CarefulSoFar(run, k)
    requires Recorded(m, run[i].completed)
    ensures Recorded(m, run[k].completed) && multiset(run[k].ran)[m] == multiset(run[i].ran)[m]
    decreases k
  {
    if i < k {
      RecordedNeverRunsAgain(run, i, k - 1, m);
      InvOverRuns(run, k - 1);
      assert StepAt(PassStep, run, k - 1);
      var e :| CanHappen(run[k - 1], e) && run[k] == Following(run[k - 1], e);
      RunsOnlyUnrecorded(run[k - 1], e, m);
    }
  }

  // ---------------------------------------------------------------------------------
  // A pass that nothing disturbs
  // ---------------------------------------------------------------------------------

  function MigrationsOf(tasks: seq<Task>): seq<Migration> {
    seq(|tasks|, i requires 0 <= i < |tasks| => tasks[i].migration)
  }

  function SavedAll(completed: Completed, todo: seq<Task>): Completed
    decreases |todo|
  {
    if todo == [] then completed else SavedAll(Saved(completed, todo[0].migration), todo[1..])
  }

  /** The session and the pass `p` where they are, and everything else as in `s`. */
  function With(s: Shared, p: nat, session: L.Session, pass: Pass, completed: Completed, ran: seq<Migration>): Shared {
    Shared(L.State(s.locks.now, s.locks.docs[MIGRATION := L.Document(session.lock, p)], s.locks.sessions[p := session]),
           completed, s.passes[p := pass], ran)
  }

  lemma Goes(s: Shared, t: Shared, e: Event, u: Shared)
    requires LeadsTo(PassStep, s, t) && CanHappen(t, e) && u == Following(t, e)
    ensures LeadsTo(PassStep, s, u)
  {
    assert PassStep(t, u);
    OneMore(PassStep, s, t, u);
  }

  /** From the snapshot on each task is executed and recorded. */
  lemma {:induction false} ExecutesAll(s: Shared, p: nat, session: L.Session, pass: Pass, todo: seq<Task>,
                                       completed: Completed, ran: seq<Migration>)
    requires LeadsTo(PassStep, s, With(s, p, session, pass.(pc := Between(todo)), completed, ran))
    ensures LeadsTo(PassStep, s, With(s, p, session, pass.(pc := Between([])), SavedAll(completed, todo),
                                      ran + MigrationsOf(todo)))
    decreases |todo|
  {
    if todo == [] {
      assert ran + MigrationsOf(todo) == ran;
    } else {
      var t := With(s, p, session, pass.(pc := Between(todo)), completed, ran);
      var m := todo[0].migration;
      var u := With(s, p, session, pass.(pc := Migrating(todo[0], todo[1..])), completed, ran + [m]);
      assert t.passes[p := u.passes[p]] == u.passes;
      Goes(s, t, Execute(p), u);
      var v := With(s, p, session, pass.(pc := Between(todo[1..])), Saved(completed, m), ran + [m]);
      assert u.passes[p := v.passes[p]] == v.passes;
      Goes(s, u, Executed(p, true), v);
      ExecutesAll(s, p, session, pass, todo[1..], Saved(completed, m), ran + [m]);
      assert ran + [m] + MigrationsOf(todo[1..]) == ran + MigrationsOf(todo);
    }
  }

  function NewSession(s: Shared, pc: L.Pc): L.Session {
    L.Session(L.Lock(MIGRATION, s.locks.now, Some(s.locks.now + 3_600_000)), 0, pc)
  }

  /** A new pass that is in `acquire`, with its session at `pc`. */
  function Come(s: Shared, p: nat, tasks: seq<Task>, asyncOnly: bool, pc: L.Pc): Shared {
    Shared(s.locks.(sessions := s.locks.sessions[p := NewSession(s, pc)]), s.completed,
           s.passes[p := Pass(tasks, asyncOnly, Asking)], s.ran)
  }

  lemma Comes(s: Shared, p: nat, tasks: seq<Task>, asyncOnly: bool)
    requires p !in s.passes && p !in s.locks.sessions
    ensures LeadsTo(PassStep, s, Come(s, p, tasks, asyncOnly, L.Inserting(true, s.locks.now)))
  {
    Stay(PassStep, s);
    var t := Come(s, p, tasks, asyncOnly, L.Starting(true));
    Goes(s, s, Start(p, tasks, asyncOnly), t);
    StartsRound(s, p, tasks, asyncOnly);
    Goes(s, t, Acquire(p, L.Start), Come(s, p, tasks, asyncOnly, L.Inserting(true, s.locks.now)));
  }

  lemma StartsRound(s: Shared, p: nat, tasks: seq<Task>, asyncOnly: bool)
    ensures var t := Come(s, p, tasks, asyncOnly, L.Starting(true));
            CanHappen(t, Acquire(p, L.Start))
            && Following(t, Acquire(p, L.Start)) == Come(s, p, tasks, asyncOnly, L.Inserting(true, s.locks.now))
  {
    var t := Come(s, p, tasks, asyncOnly, L.Starting(true));
    var u := Come(s, p, tasks, asyncOnly, L.Inserting(true, s.locks.now));
    var v := Following(t, Acquire(p, L.Start));
    assert v.locks.docs == u.locks.docs;
    assert v.locks.sessions == u.locks.sessions;
    assert v.passes == u.passes;
  }

  /** With the lock free it gets it, by an insert that makes its session the holder. */
  lemma GetsIn(s: Shared, p: nat, tasks: seq<Task>, asyncOnly: bool)
    requires p !in s.passes && p !in s.locks.sessions && MIGRATION !in s.locks.docs
    ensures LeadsTo(PassStep, s, With(s, p, NewSession(s, L.Holding), Pass(tasks, asyncOnly, Entered), s.completed,
                                      s.ran))
  {
    Comes(s, p, tasks, asyncOnly);
    var u := Come(s, p, tasks, asyncOnly, L.Inserting(true, s.locks.now));
    var v := With(s, p, NewSession(s, L.Holding), Pass(tasks, asyncOnly, Entered), s.completed, s.ran);
    assert L.Stored(u.locks, MIGRATION) == None;
    assert Following(u, Acquire(p, L.Insert)).locks.sessions == v.locks.sessions;
    assert Following(u, Acquire(p, L.Insert)).passes == v.passes;
    Goes(s, u, Acquire(p, L.Insert), v);
  }

  /**
    With the lock free, and nothing that throws or fails, a new pass runs every task of its kind
    that is not recorded, in the order of its list, records what it ran, and frees the lock.
   */
  lemma UndisturbedPass(s: Shared, p: nat, tasks: seq<Task>, asyncOnly: bool)
    requires p !in s.passes && p !in s.locks.sessions && MIGRATION !in s.locks.docs
    ensures var todo := Todo(tasks, s.completed, asyncOnly);
            LeadsTo(PassStep, s,
                    Shared(s.locks.(sessions := s.locks.sessions[p := NewSession(s, L.Finished)]),
                           SavedAll(s.completed, todo), s.passes[p := Pass(tasks, asyncOnly, Over)],
                           s.ran + MigrationsOf(todo)))
  {
    var todo := Todo(tasks, s.completed, asyncOnly);
    var session, pass := NewSession(s, L.Holding), Pass(tasks, asyncOnly, Entered);
    GetsIn(s, p, tasks, asyncOnly);
    var t := With(s, p, session, pass, s.completed, s.ran);
    var u := With(s, p, session, pass.(pc := Between(todo)), s.completed, s.ran);
    assert t.passes[p := u.passes[p]] == u.passes;
    Goes(s, t, Read(p), u);
    ExecutesAll(s, p, session, pass, todo, s.completed, s.ran);
    var v := With(s, p, session, pass.(pc := Between([])), SavedAll(s.completed, todo), s.ran + MigrationsOf(todo));
    LeavesLock(s, v, p, session, pass);
  }

  lemma LeavesLock(s: Shared, v: Shared, p: nat, session: L.Session, pass: Pass)
    requires p !in s.passes && p !in s.locks.sessions && MIGRATION !in s.locks.docs
    requires session == NewSession(s, L.Holding)
    requires v == With(s, p, session, pass.(pc := Between([])), v.completed, v.ran) && LeadsTo(PassStep, s, v)
    ensures LeadsTo(PassStep, s, Shared(s.locks.(sessions := s.locks.sessions[p := NewSession(s, L.Finished)]),
                                        v.completed, s.passes[p := pass.(pc := Over)], v.ran))
  {
    var w := Following(v, Finish(p));
    Goes(s, v, Finish(p), w);
    var x := Following(w, Leave(p));
    Goes(s, w, Leave(p), x);
    assert x.locks.docs == s.locks.docs;
    assert x.locks.sessions == s.locks.sessions[p := NewSession(s, L.Finished)];
    assert x.passes == s.passes[p := pass.(pc := Over)];
  }

  /** A pass whose `acquire` has returned goes on or is over, and no other one does. */
  lemma AcquireReturns(s: Shared, p: nat, m: L.Move)
    requires CanHappen(s, Acquire(p, m))
    ensures var t := Following(s, Acquire(p, m));
            && (t.passes[p].pc.Entered? <==> L.Holds(t.locks, p))
            && (t.passes[p].pc.Over? <==>
                  t.locks.sessions[p].pc.Finished? || t.locks.sessions[p].pc == L.Refused(false))
  {
  }
}
