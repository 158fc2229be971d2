/**
  Migration passes: which tasks a pass runs, and what is recorded so that later passes skip
  them. A task that succeeds is recorded unless the save fails or its document id is taken.
 */
module MigrationHandler {
  import opened Text

  datatype Migration = Migration(name: string, version: string)

  datatype Task = Task(migration: Migration, asynchronous: bool)

  /** The documents of the collection by `_id`. */
  type Completed = map<string, Migration>

  function Id(m: Migration): string {
    m.name + "~" + m.version
  }

  predicate Recorded(m: Migration, completed: Completed) {
    exists id <- completed :: completed[id] == m
  }

  predicate WellKept(completed: Completed) {
    forall id <- completed :: id == Id(completed[id])
  }

  /** The unique `_id` refuses a document whose id is taken. */
  function Saved(completed: Completed, m: Migration): Completed {
    if Id(m) in completed then completed else completed[Id(m) := m]
  }

  /** What a pass that reads `completed` runs, in list order. */
  function Todo(tasks: seq<Task>, completed: Completed, asyncOnly: bool): seq<Task> {
    if tasks == [] then []
    else
      (if !Recorded(tasks[0].migration, completed) && tasks[0].asynchronous == asyncOnly then [tasks[0]] else [])
      + Todo(tasks[1..], completed, asyncOnly)
  }

  function Unrecorded(tasks: seq<Task>, completed: Completed): seq<Task> {
    if tasks == [] then []
    else (if !Recorded(tasks[0].migration, completed) then [tasks[0]] else []) + Unrecorded(tasks[1..], completed)
  }

  predicate Extends(before: Completed, after: Completed) {
    forall id <- before :: id in after && after[id] == before[id]
  }

  /** Everything recorded in between was run in between. */
  ghost predicate OnlyRecords(before: Completed, after: Completed, ran: seq<Task>) {
    forall id <- after :: id !in before ==> exists t <- ran :: t.migration == after[id]
  }

  lemma {:induction false} TodoMember(tasks: seq<Task>, completed: Completed, asyncOnly: bool, t: Task)
    ensures t in Todo(tasks, completed, asyncOnly) <==>
              t in tasks && !Recorded(t.migration, completed) && t.asynchronous == asyncOnly
  {
    if tasks != [] {
      TodoMember(tasks[1..], completed, asyncOnly, t);
      assert tasks == [tasks[0]] + tasks[1..];
    }
  }

  lemma TodoMembers(tasks: seq<Task>, completed: Completed, asyncOnly: bool)
    ensures forall t :: t in Todo(tasks, completed, asyncOnly) <==>
                          && t in tasks && t.asynchronous == asyncOnly
                          && forall id <- completed :: completed[id] != t.migration
  {
    forall t
      ensures t in Todo(tasks, completed, asyncOnly) <==>
                && t in tasks && t.asynchronous == asyncOnly && forall id <- completed :: completed[id] != t.migration
    {
      TodoMember(tasks, completed, asyncOnly, t);
    }
  }

  lemma {:induction false} TodoSplit(a: seq<Task>, b: seq<Task>, completed: Completed, asyncOnly: bool)
    ensures Todo(a + b, completed, asyncOnly) == Todo(a, completed, asyncOnly) + Todo(b, completed, asyncOnly)
  {
    if a == [] {
      assert a + b == b;
    } else {
      assert (a + b)[1..] == a[1..] + b && (a + b)[0] == a[0];
      TodoSplit(a[1..], b, completed, asyncOnly);
      var first := if !Recorded(a[0].migration, completed) && a[0].asynchronous == asyncOnly then [a[0]] else [];
      var x, y := Todo(a[1..], completed, asyncOnly), Todo(b, completed, asyncOnly);
      assert first + (x + y) == (first + x) + y;
    }
  }

  class MigrationHandler {
    var completed: Completed
    ghost var ran: seq<Task>  // every call of a task's `migrate`

    constructor ()
      ensures completed == map[] && WellKept(completed) && ran == []
    {
      completed, ran := map[], [];
    }

    method ExecuteTask(task: Task, failed: bool, saveFailed: bool)
      requires WellKept(completed)
      modifies this
      ensures WellKept(completed) && ran == old(ran) + [task]
      ensures completed ==
                if failed || saveFailed || Id(task.migration) in old(completed) then old(completed)
                else old(completed)[Id(task.migration) := task.migration]
    {
      ran := ran + [task];
      if !failed && !saveFailed && Id(task.migration) !in completed {
        completed := completed[Id(task.migration) := task.migration];
      }
    }

    /** One pass; a task that fails does not stop the ones after it. */
    method Migrate(tasks: seq<Task>, asyncOnly: bool, locked: bool, readFailed: bool)
      requires WellKept(completed)
      modifies this
      ensures WellKept(completed) && Extends(old(completed), completed)
      ensures ran == old(ran) + (if locked && !readFailed then Todo(tasks, old(completed), asyncOnly) else [])
      ensures forall t :: t in ran[|old(ran)|..] <==>
                            && t in tasks && t.asynchronous == asyncOnly && locked && !readFailed
                            && forall id <- old(completed) :: old(completed)[id] != t.migration
      ensures OnlyRecords(old(completed), completed, ran[|old(ran)|..])
    {
      if !locked || readFailed {
        return;
      }
      var migrationTasksCompleted := completed;
      for i := 0 to |tasks|
        invariant WellKept(completed) && Extends(migrationTasksCompleted, completed)
        invariant ran == old(ran) + Todo(tasks[..i], migrationTasksCompleted, asyncOnly)
        invariant OnlyRecords(migrationTasksCompleted, completed, Todo(tasks[..i], migrationTasksCompleted, asyncOnly))
      {
        var task := tasks[i];
        ghost var done := Todo(tasks[..i], migrationTasksCompleted, asyncOnly);
        ghost var was := completed;
        TodoSplit(tasks[..i], [task], migrationTasksCompleted, asyncOnly);
        assert tasks[..i + 1] == tasks[..i] + [task];
        if !Recorded(task.migration, migrationTasksCompleted) && task.asynchronous == asyncOnly {
          var failed: bool, saveFailed: bool := *, *;
          ExecuteTask(task, failed, saveFailed);
          assert Todo([task], migrationTasksCompleted, asyncOnly) == [task];
          forall id | id in completed && id !in migrationTasksCompleted
            ensures exists t <- done + [task] :: t.migration == completed[id]
          {
            if id in was {
              var t :| t in done && t.migration == was[id];
              assert t in done + [task];
            } else {
              assert task in done + [task];
            }
          }
        } else {
          assert Todo([task], migrationTasksCompleted, asyncOnly) == [];
        }
      }
      assert tasks[..|tasks|] == tasks;
      TodoMembers(tasks, migrationTasksCompleted, asyncOnly);
    }

    /**
      The two passes of a start-up. With distinct names and versions, every unrecorded task is
      run exactly once, synchronous tasks first.
     */
    method MigrateBoth(tasks: seq<Task>)
      requires WellKept(completed)
      modifies this
      ensures WellKept(completed) && Extends(old(completed), completed)
      ensures DistinctMigrations(tasks) ==>
                && ran == old(ran) + Todo(tasks, old(completed), false) + Todo(tasks, old(completed), true)
                && multiset(ran) == multiset(old(ran)) + multiset(Unrecorded(tasks, old(completed)))
    {
      ghost var before := completed;
      Migrate(tasks, false, true, false);
      assert ran[|old(ran)|..] == Todo(tasks, before, false);
      ghost var between := completed;
      Migrate(tasks, true, true, false);
      if DistinctMigrations(tasks) {
        AsyncUnaffected(tasks, before, between);
        Partition(tasks, before);
      }
    }
  }

  predicate DistinctMigrations(tasks: seq<Task>) {
    forall i, j :: 0 <= i < j < |tasks| ==> tasks[i].migration != tasks[j].migration
  }

  /** The list of `createMigrationTasks` holds one task at present. */
  lemma OneTaskIsDistinct(task: Task)
    ensures DistinctMigrations([task])
  {
  }

  lemma {:induction false} SameTodo(tasks: seq<Task>, before: Completed, after: Completed, asyncOnly: bool)
    requires forall t <- tasks ::
               t.asynchronous == asyncOnly ==> Recorded(t.migration, after) == Recorded(t.migration, before)
    ensures Todo(tasks, after, asyncOnly) == Todo(tasks, before, asyncOnly)
  {
    if tasks != [] {
      assert tasks[0] in tasks;
      assert forall t <- tasks[1..] :: t in tasks;
      SameTodo(tasks[1..], before, after, asyncOnly);
    }
  }

  /** What the synchronous pass records does not change what the asynchronous one runs. */
  lemma AsyncUnaffected(tasks: seq<Task>, before: Completed, after: Completed)
    requires DistinctMigrations(tasks) && Extends(before, after)
    requires OnlyRecords(before, after, Todo(tasks, before, false))
    ensures Todo(tasks, after, true) == Todo(tasks, before, true)
  {
    forall t | t in tasks && t.asynchronous
      ensures Recorded(t.migration, after) == Recorded(t.migration, before)
    {
      if Recorded(t.migration, after) {
        var id :| id in after && after[id] == t.migration;
        if id !in before {
          var u :| u in Todo(tasks, before, false) && u.migration == after[id];
          TodoMember(tasks, before, false, u);
        }
      }
      if Recorded(t.migration, before) {
        var id :| id in before && before[id] == t.migration;
        assert after[id] == t.migration;
      }
    }
    SameTodo(tasks, before, after, true);
  }

  lemma {:induction false} Partition(tasks: seq<Task>, completed: Completed)
    ensures multiset(Todo(tasks, completed, false)) + multiset(Todo(tasks, completed, true))
            == multiset(Unrecorded(tasks, completed))
  {
    if tasks != [] {
      Partition(tasks[1..], completed);
    }
  }

  /** In one pass a task runs as often as the list names it: distinctness is needed. */
  lemma {:induction false} RunsAsOftenAsListed(tasks: seq<Task>, completed: Completed, asyncOnly: bool, t: Task)
    ensures multiset(Todo(tasks, completed, asyncOnly))[t] ==
              if !Recorded(t.migration, completed) && t.asynchronous == asyncOnly then multiset(tasks)[t] else 0
  {
    if tasks != [] {
      RunsAsOftenAsListed(tasks[1..], completed, asyncOnly, t);
      assert tasks == [tasks[0]] + tasks[1..];
    }
  }

  // ---------------------------------------------------------------------------------
  // Document ids
  // ---------------------------------------------------------------------------------

  lemma SameIdIffSame(m: Migration, n: Migration)
    requires '~' !in m.name && '~' !in n.name
    ensures Id(m) == Id(n) <==> m == n
  {
    if Id(m) == Id(n) {
      assert Id(m) == m.name + ['~'] + m.version && Id(n) == n.name + ['~'] + n.version;
      FirstField('~', m.name, m.version, n.name, n.version);
    }
  }

  lemma TildeConfusesMigrations()
    ensures Id(Migration("a~b", "c")) == Id(Migration("a", "b~c"))
  {
    assert Id(Migration("a~b", "c")) == "a~b~c" == Id(Migration("a", "b~c"));
  }

  /** A task whose id another migration holds can never be recorded: it runs in every pass. */
  lemma ClashRunsInEveryPass(t: Task, completed: Completed, after: Completed, tasks: seq<Task>)
    requires Id(t.migration) in completed && completed[Id(t.migration)] != t.migration
    requires Extends(completed, after) && WellKept(after) && t in tasks
    ensures !Recorded(t.migration, after) && t in Todo(tasks, after, t.asynchronous)
  {
    TodoMember(tasks, after, t.asynchronous, t);
  }
}
