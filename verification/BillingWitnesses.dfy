/** Each side condition of Billing is needed: without it some run bills one transaction twice. */
module BillingWitnesses {
  import opened Prelude
  import opened Billing
  import opened Runs

  datatype Condition = UserLock | SingleUser | ConclusiveResult | SavesKept

  ghost predicate AllBut(dropped: Condition, s: State) {
    && (dropped.UserLock? || Exclusive(s))
    && (dropped.SingleUser? || OneUser(s))
    && (dropped.ConclusiveResult? || Conclusive(s))
  }

  ghost predicate IsRunTo(run: seq<State>, s: State, dropped: Condition) {
    && IsRun(run) && Init(run[0]) && run[|run| - 1] == s
    && (forall i :: 0 <= i < |run| ==> AllBut(dropped, run[i]))
    && (dropped.SavesKept? || forall i, j :: 0 <= i && j == i + 1 < |run| ==> SaveKept(run[i], run[j]))
  }

  ghost predicate Reachable(s: State, dropped: Condition) {
    exists run :: IsRunTo(run, s, dropped)
  }

  lemma Next(s: State, a: Action, dropped: Condition)
    requires Reachable(s, dropped) && Enabled(s, a) && AllBut(dropped, Apply(s, a))
    requires dropped.SavesKept? || SaveKept(s, Apply(s, a))
    ensures Reachable(Apply(s, a), dropped)
  {
    var t := Apply(s, a);
    var run :| IsRunTo(run, s, dropped);
    assert Step(s, t);
    Longer(Step, run, t);
    assert IsRunTo(run + [t], t, dropped);
  }

  // -- Two executions for transaction 1

  datatype Pair = Pair(data: BillingData, count: nat, one: Execution, two: Execution) {
    function World(): State {
      State(map[1 := data], map[1 := one, 2 := two], if count == 0 then map[] else map[1 := count])
    }

    predicate Keeps(dropped: Condition) {
      && one.transactionID == two.transactionID == 1
      && (dropped.UserLock? || one.userID != two.userID || !InCriticalSection(one) || !InCriticalSection(two))
      && (dropped.SingleUser? || one.userID == two.userID)
      && (dropped.ConclusiveResult?
          || ((one.pc.Returned? ==> one.pc.result.stop != Some(Pending))
              && (two.pc.Returned? ==> two.pc.result.stop != Some(Pending))))
    }
  }

  ghost predicate Reached(t: Pair, dropped: Condition) {
    t.Keeps(dropped) && Reachable(t.World(), dropped)
  }

  lemma Begun(data: BillingData, u1: string, u2: string, dropped: Condition) returns (t: Pair)
    requires dropped.SingleUser? || u1 == u2
    ensures t == Pair(data, 0, Execution(1, u1, Waiting), Execution(1, u2, Waiting)) && Reached(t, dropped)
  {
    t := Pair(data, 0, Execution(1, u1, Waiting), Execution(1, u2, Waiting));
    var s := State(map[1 := data], map[], map[]);
    assert IsRunTo([s], s, dropped);
    Next(s, Begin(1, 1, u1), dropped);
    s := Apply(s, Begin(1, 1, u1));
    Next(s, Begin(2, 1, u2), dropped);
    assert Apply(s, Begin(2, 1, u2)) == t.World();
  }

  function Put(t: Pair, who: nat, pc: Pc): Pair
    requires 1 <= who <= 2
  {
    if who == 1 then t.(one := t.one.(pc := pc)) else t.(two := t.two.(pc := pc))
  }

  function Who(t: Pair, who: nat): Execution
    requires 1 <= who <= 2
  {
    if who == 1 then t.one else t.two
  }

  lemma KeepsIsAllBut(t: Pair, dropped: Condition)
    requires t.Keeps(dropped)
    ensures AllBut(dropped, t.World())
  {
  }

  lemma PutIsApply(t: Pair, who: nat, m: Move)
    requires t.one.transactionID == t.two.transactionID == 1 && 1 <= who <= 2 && CanMove(Who(t, who), m)
    requires m.Save? ==> t.data == Who(t, who).pc.result
    ensures var u :=
              Put(t, who, PcAfter(Some(t.data), Who(t, who), m)).(count := t.count + if m.BillReturns? then 1 else 0);
            && Enabled(t.World(), Act(who, m)) && Apply(t.World(), Act(who, m)) == u.World()
            && (!m.SaveLost? && !m.Stop? ==> SaveKept(t.World(), u.World()))
  {
    var u := Put(t, who, PcAfter(Some(t.data), Who(t, who), m)).(count := t.count + if m.BillReturns? then 1 else 0);
    var s := t.World();
    assert s.executions[who] == Who(t, who) && Stored(s, 1) == Some(t.data);
    assert Apply(s, Act(who, m)).executions == u.World().executions;
    assert Apply(s, Act(who, m)).store == u.World().store;
    assert Apply(s, Act(who, m)).billed == u.World().billed;
  }

  /** One move that leaves the store as it is; a successful bill is counted. */
  lemma Go(t: Pair, who: nat, m: Move, pc: Pc, dropped: Condition) returns (u: Pair)
    requires Reached(t, dropped) && 1 <= who <= 2 && CanMove(Who(t, who), m)
    requires m.SaveLost? || m.Stop? ==> dropped.SavesKept?
    requires m.Save? ==> t.data == Who(t, who).pc.result
    requires PcAfter(Some(t.data), Who(t, who), m) == pc
    requires Put(t, who, pc).Keeps(dropped)
    ensures u == Put(t, who, pc).(count := t.count + if m.BillReturns? then 1 else 0) && Reached(u, dropped)
  {
    u := Put(t, who, pc).(count := t.count + if m.BillReturns? then 1 else 0);
    PutIsApply(t, who, m);
    KeepsIsAllBut(u, dropped);
    Next(t.World(), Act(who, m), dropped);
  }

  const PENDING := BillingData(true, Some(Pending))
  const BILLED := BillingData(true, Some(Status.Billed))

  /** One whole execution whose outcome leaves the stored transaction PENDING. */
  lemma FirstPass(m: Move, result: BillingData, dropped: Condition) returns (t: Pair)
    requires (m == Save && result == PENDING && dropped.ConclusiveResult?)
             || (m == SaveLost && result == BILLED && dropped.SavesKept?)
    ensures t == Pair(PENDING, 1, Execution(1, "u", Done), Execution(1, "u", Waiting)) && Reached(t, dropped)
  {
    t := Begun(PENDING, "u", "u", dropped);
    t := Go(t, 1, Lock, Locked, dropped);
    t := Go(t, 1, Read, Guarded(PENDING), dropped);
    t := Go(t, 1, BillReturns(result.stop), Returned(result), dropped);
    t := Go(t, 1, m, Leaving, dropped);
    t := Go(t, 1, Unlock, Done, dropped);
  }

  lemma SecondPass(t: Pair, dropped: Condition) returns (s: State)
    requires t == Pair(PENDING, 1, Execution(1, "u", Done), Execution(1, "u", Waiting)) && Reached(t, dropped)
    ensures Reachable(s, dropped) && !BilledAtMostOnce(s)
  {
    var u := Go(t, 2, Lock, Locked, dropped);
    u := Go(u, 2, Read, Guarded(PENDING), dropped);
    u := Go(u, 2, BillReturns(Some(Status.Billed)), Returned(BILLED), dropped);
    s := u.World();
    assert Count(s, 1) == 2;
  }

  /** A lost save, or a save that stores PENDING again, is billed again by the next execution. */
  lemma WithoutEffectiveSave() returns (s: State, t: State)
    ensures Reachable(s, SavesKept) && !BilledAtMostOnce(s)
    ensures Reachable(t, ConclusiveResult) && !BilledAtMostOnce(t)
  {
    var u := FirstPass(SaveLost, BILLED, SavesKept);
    s := SecondPass(u, SavesKept);
    u := FirstPass(Save, PENDING, ConclusiveResult);
    t := SecondPass(u, ConclusiveResult);
  }

  lemma BothBill(u1: string, u2: string, dropped: Condition) returns (s: State)
    requires (dropped.SingleUser? && u1 != u2) || (dropped.UserLock? && u1 == u2)
    ensures Reachable(s, dropped) && !BilledAtMostOnce(s)
  {
    var t := Begun(PENDING, u1, u2, dropped);
    t := Go(t, 1, Lock, Locked, dropped);
    t := Go(t, 2, Lock, Locked, dropped);
    t := Go(t, 1, Read, Guarded(PENDING), dropped);
    t := Go(t, 2, Read, Guarded(PENDING), dropped);
    t := Go(t, 1, BillReturns(Some(Status.Billed)), Returned(BILLED), dropped);
    t := Go(t, 2, BillReturns(Some(Status.Billed)), Returned(BILLED), dropped);
    s := t.World();
    assert Count(s, 1) == 2;
  }

  /** Two tasks that name different users take different locks; a broken lock does the same. */
  lemma WithoutCommonLock() returns (s: State, t: State)
    ensures Reachable(s, SingleUser) && !BilledAtMostOnce(s)
    ensures Reachable(t, UserLock) && !BilledAtMostOnce(t)
  {
    s := BothBill("u", "v", SingleUser);
    t := BothBill("u", "u", UserLock);
  }
}
