/**
  BillTransactionAsyncTask as the steps of any number of executions over the transaction
  store. The runner may start an execution for the same transaction as often as it likes
  (stale PENDING snapshots, RUNNING tasks put back to PENDING), so executions start freely.
 */
module Billing {
  import opened Prelude
  import opened Runs

  datatype Status = Unbilled | Billed | Pending | Failed

  /** `billingData` of a transaction: whether billing was active, and `stop.status`. */
  datatype BillingData = BillingData(withBillingActive: bool, stop: Option<Status>)

  datatype Pc =
    | Waiting                       // before the lock
    | Locked                        // lock of the user acquired
    | Guarded(read: BillingData)    // transaction read, guards passed
    | Returned(result: BillingData) // billTransaction returned, not saved
    | Leaving                       // in `finally`
    | Done

  datatype Execution = Execution(transactionID: int, userID: string, pc: Pc)

  /** `billed` counts the successful returns of `billTransaction`; no step reads it. */
  datatype State = State(store: map<int, BillingData>, executions: map<nat, Execution>, billed: map<int, nat>)

  datatype Move =
    | Lock
    | LockRefused
    | Read
    | BillReturns(status: Option<Status>)
    | BillThrows
    | Save
    | SaveLost      // the save throws, or the process stops before it
    | Unlock
    | Stop          // of the whole process

  datatype Action =
    | Begin(who: nat, transactionID: int, userID: string)
    | Act(who: nat, move: Move)

  predicate CanMove(e: Execution, m: Move) {
    match m
    case Lock => e.pc.Waiting?
    case LockRefused => e.pc.Waiting?
    case Read => e.pc.Locked?
    case BillReturns(_) => e.pc.Guarded?
    case BillThrows => e.pc.Guarded?
    case Save => e.pc.Returned?
    case SaveLost => e.pc.Returned?
    case Unlock => e.pc.Leaving?
    case Stop => true
  }

  predicate Enabled(s: State, a: Action) {
    match a
    case Begin(p, _, _) => p !in s.executions
    case Act(p, m) => p in s.executions && CanMove(s.executions[p], m)
  }

  /** The checks made before billing: known, billing active, and still PENDING. */
  predicate MayBill(data: Option<BillingData>) {
    data.Some? && data.value.withBillingActive && data.value.stop == Some(Pending)
  }

  function Stored(s: State, transactionID: int): Option<BillingData> {
    if transactionID in s.store then Some(s.store[transactionID]) else None
  }

  function Count(s: State, transactionID: int): nat {
    if transactionID in s.billed then s.billed[transactionID] else 0
  }

  function PcAfter(stored: Option<BillingData>, e: Execution, m: Move): Pc
    requires CanMove(e, m)
  {
    match m
    case Lock => Locked
    case LockRefused => Done
    case Read => if MayBill(stored) then Guarded(stored.value) else Leaving
    case BillReturns(status) => Returned(e.pc.read.(stop := status))
    case BillThrows => Leaving
    case Save => Leaving
    case SaveLost => Leaving
    case Unlock => Done
    case Stop => Done
  }

  function Apply(s: State, a: Action): State
    requires Enabled(s, a)
  {
    match a
    case Begin(p, t, u) => s.(executions := s.executions[p := Execution(t, u, Waiting)])
    case Act(p, m) =>
      var e := s.executions[p];
      State(if m.Save? then s.store[e.transactionID := e.pc.result] else s.store,
            s.executions[p := e.(pc := PcAfter(Stored(s, e.transactionID), e, m))],
            if m.BillReturns? then s.billed[e.transactionID := Count(s, e.transactionID) + 1] else s.billed)
  }

  ghost predicate Step(s: State, t: State) {
    exists a :: Enabled(s, a) && t == Apply(s, a)
  }

  ghost predicate IsRun(run: seq<State>) {
    Follows(Step, run)
  }

  ghost predicate Init(s: State) {
    s.executions == map[] && s.billed == map[]
  }

  ghost predicate BilledAtMostOnce(s: State) {
    forall t :: Count(s, t) <= 1
  }

  // ---------------------------------------------------------------------------------
  // The side conditions
  // ---------------------------------------------------------------------------------

  predicate InCriticalSection(e: Execution) {
    e.pc.Locked? || e.pc.Guarded? || e.pc.Returned? || e.pc.Leaving?
  }

  /** The user lock works: this is what LockProtocol proves of a careful run. */
  ghost predicate Exclusive(s: State) {
    forall p, q ::
      p in s.executions && q in s.executions && InCriticalSection(s.executions[p]) && InCriticalSection(s.executions[q])
      && s.executions[p].userID == s.executions[q].userID
      ==> p == q
  }

  /** Every task for one transaction names the same user. */
  ghost predicate OneUser(s: State) {
    forall p, q ::
      p in s.executions && q in s.executions && s.executions[p].transactionID == s.executions[q].transactionID
      ==> s.executions[p].userID == s.executions[q].userID
  }

  /** What billing returned is not PENDING. */
  ghost predicate Conclusive(s: State) {
    forall p :: p in s.executions && s.executions[p].pc.Returned? ==> s.executions[p].pc.result.stop != Some(Pending)
  }

  /** What billing returned gets saved before the lock is left. */
  ghost predicate SaveKept(s: State, t: State) {
    forall p :: p in s.executions && s.executions[p].pc.Returned? && p in t.executions && !t.executions[p].pc.Returned?
                ==> Stored(t, s.executions[p].transactionID) == Some(s.executions[p].pc.result)
  }

  ghost predicate Careful(s: State) {
    Exclusive(s) && OneUser(s) && Conclusive(s)
  }

  // ---------------------------------------------------------------------------------
  // Safety
  // ---------------------------------------------------------------------------------

  /** A billed transaction is no longer PENDING in the store, unless its save is under way. */
  ghost predicate Inv(s: State) {
    && (forall t :: Count(s, t) <= 1)
    && (forall t :: Count(s, t) == 1 && Stored(s, t).Some? && Stored(s, t).value.stop == Some(Pending) ==>
          exists p :: p in s.executions && s.executions[p].transactionID == t && s.executions[p].pc.Returned?)
    && (forall p :: p in s.executions && s.executions[p].pc.Guarded? ==> Count(s, s.executions[p].transactionID) == 0)
    && (forall p ::
          p in s.executions && s.executions[p].pc.Returned? ==> s.executions[p].pc.result.stop != Some(Pending))
  }

  lemma GuardedUnbilled(s: State, a: Action, p: nat)
    requires Inv(s) && Careful(s) && Enabled(s, a) && Careful(Apply(s, a))
    requires p in Apply(s, a).executions && Apply(s, a).executions[p].pc.Guarded?
    ensures Count(Apply(s, a), Apply(s, a).executions[p].transactionID) == 0
  {
    // Otherwise an execution about to bill or to save would share the user lock with p.
    assert p in s.executions;
  }

  lemma ActionKeepsInv(s: State, a: Action)
    requires Inv(s) && Careful(s) && Enabled(s, a) && Careful(Apply(s, a)) && SaveKept(s, Apply(s, a))
    ensures Inv(Apply(s, a))
  {
    var u := Apply(s, a);
    forall p | p in u.executions && u.executions[p].pc.Guarded?
      ensures Count(u, u.executions[p].transactionID) == 0
    {
      GuardedUnbilled(s, a, p);
    }
    forall t | Count(u, t) == 1 && Stored(u, t).Some? && Stored(u, t).value.stop == Some(Pending)
      ensures exists p :: p in u.executions && u.executions[p].transactionID == t && u.executions[p].pc.Returned?
    {
      if a.Act? && a.move.BillReturns? && s.executions[a.who].transactionID == t {
        assert u.executions[a.who].pc.Returned?;
      } else {
        assert Count(s, t) == 1;
        if a.Act? && a.move.Save? && s.executions[a.who].transactionID == t {
          assert false;
        } else {
          assert Stored(s, t) == Stored(u, t);
          var p :| p in s.executions && s.executions[p].transactionID == t && s.executions[p].pc.Returned?;
          assert p in u.executions && u.executions[p].transactionID == t;
          assert u.executions[p].pc.Returned?;
        }
      }
    }
    forall t
      ensures Count(u, t) <= 1
    {
      assert Count(s, t) <= 1;
    }
  }

  /** Whatever the interleaving, no transaction is billed successfully twice. */
  lemma {:induction false} BilledAtMostOnceOverRuns(run: seq<State>, k: nat)
    requires IsRun(run) && Init(run[0]) && k < |run|
    requires forall i :: 0 <= i <= k ==> Careful(run[i])
    requires forall i :: 0 <= i < k ==> SaveKept(run[i], run[i + 1])
    ensures Inv(run[k]) && BilledAtMostOnce(run[k])
  {
    if k > 0 {
      BilledAtMostOnceOverRuns(run, k - 1);
      assert StepAt(Step, run, k - 1);
      var a :| Enabled(run[k - 1], a) && run[k] == Apply(run[k - 1], a);
      ActionKeepsInv(run[k - 1], a);
    }
  }
}
