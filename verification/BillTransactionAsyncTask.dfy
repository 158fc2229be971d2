/** `executeAsyncTask` of BillTransactionAsyncTask: every store operation is one step of Billing. */
module BillTransactionAsyncTask {
  import opened Prelude
  import opened Billing
  import opened Runs

  /** What the outside world does to one execution, and the status billing returns. */
  datatype Faults = Faults(lockRefused: bool, billThrows: bool, status: Option<Status>, saveFails: bool)

  class BillTransactionAsyncTask {
    var st: State
    ghost var history: seq<State>

    ghost predicate Valid()
      reads this
    {
      IsRun(history) && history[|history| - 1] == st
    }

    constructor (store: map<int, BillingData>)
      ensures Valid() && Init(st) && st.store == store && history == [st]
    {
      st := State(store, map[], map[]);
      history := [State(store, map[], map[])];
    }

    method Do(a: Action)
      requires Valid() && Enabled(st, a)
      modifies this
      ensures Valid() && st == Apply(old(st), a) && history == old(history) + [st]
    {
      var before := st;
      st := Apply(st, a);
      assert Step(before, st);
      Longer(Step, history, st);
      history := history + [st];
    }

    /** Any steps of other executions. */
    method Interfere(me: nat)
      requires Valid() && me in st.executions
      modifies this
      ensures Valid() && old(history) <= history
      ensures me in st.executions && st.executions[me] == old(st.executions[me])
    {
      var steps: nat := *;
      while steps > 0
        invariant Valid() && old(history) <= history
        invariant me in st.executions && st.executions[me] == old(st.executions[me])
      {
        var a: Action := *;
        if Enabled(st, a) && (a.Act? ==> a.who != me) {
          Do(a);
        }
        steps := steps - 1;
      }
    }

    /** In `run` this execution held `result` unsaved, and the next step stored it. */
    ghost predicate SavedIn(run: seq<State>, from: nat, me: nat, transactionID: int, status: Option<Status>) {
      exists i :: from <= i && SavesAt(run, i, me, transactionID, status)
    }

    ghost predicate SavesAt(run: seq<State>, i: int, me: nat, transactionID: int, status: Option<Status>) {
      && 0 <= i < |run| - 1
      && me in run[i].executions && run[i].executions[me].pc == Returned(BillingData(true, status))
      && transactionID in run[i + 1].store && run[i + 1].store[transactionID] == BillingData(true, status)
    }

    /** This execution was refused by a guard: its lock was held and the transaction was not billable. */
    ghost predicate RefusedIn(run: seq<State>, from: nat, me: nat, transactionID: int) {
      exists i :: from <= i && ReadAt(run, i, me) && !IsBillable(run[i].store, transactionID)
    }

    /** This execution read the transaction under its lock, and it was billable. */
    ghost predicate PassedIn(run: seq<State>, from: nat, me: nat, transactionID: int) {
      exists i :: from <= i && ReadAt(run, i, me) && IsBillable(run[i].store, transactionID)
    }

    ghost predicate ReadAt(run: seq<State>, i: int, me: nat) {
      0 <= i < |run| && me in run[i].executions && run[i].executions[me].pc.Locked?
    }

    ghost predicate IsBillable(store: map<int, BillingData>, transactionID: int) {
      transactionID in store && store[transactionID] == BillingData(true, Some(Pending))
    }

    lemma Later(run: seq<State>, longer: seq<State>, from: nat, later: nat, me: nat, transactionID: int,
                status: Option<Status>)
      requires run <= longer && from <= later
      ensures SavedIn(run, later, me, transactionID, status) ==> SavedIn(longer, from, me, transactionID, status)
      ensures RefusedIn(run, later, me, transactionID) ==> RefusedIn(longer, from, me, transactionID)
      ensures PassedIn(run, later, me, transactionID) ==> PassedIn(longer, from, me, transactionID)
    {
      if SavedIn(run, later, me, transactionID, status) {
        var i :| later <= i && SavesAt(run, i, me, transactionID, status);
        assert SavesAt(longer, i, me, transactionID, status);
      }
      if RefusedIn(run, later, me, transactionID) {
        var i :| later <= i && ReadAt(run, i, me) && !IsBillable(run[i].store, transactionID);
        assert longer[i] == run[i] && ReadAt(longer, i, me);
      }
      if PassedIn(run, later, me, transactionID) {
        var i :| later <= i && ReadAt(run, i, me) && IsBillable(run[i].store, transactionID);
        assert longer[i] == run[i] && ReadAt(longer, i, me);
      }
    }

    /** The guarded part: every path leads to `finally`, which is still to come. */
    method BillUnderLock(me: nat, faults: Faults) returns (billed: bool)
      requires Valid() && me in st.executions && st.executions[me].pc.Locked?
      modifies this
      ensures Valid() && old(history) <= history
      ensures me in st.executions && st.executions[me] == old(st.executions[me]).(pc := Leaving)
      ensures billed && !faults.saveFails ==>
                SavedIn(history, |old(history)| - 1, me, st.executions[me].transactionID, faults.status)
      ensures !billed && !faults.billThrows ==>
                RefusedIn(history, |old(history)| - 1, me, st.executions[me].transactionID)
      ensures billed ==> PassedIn(history, |old(history)| - 1, me, st.executions[me].transactionID)
    {
      billed := false;
      ghost var transactionID := st.executions[me].transactionID;
      Interfere(me);
      ghost var reading := |history| - 1;
      Do(Act(me, Read));
      assert ReadAt(history, reading, me);
      if st.executions[me].pc.Guarded? {
        assert IsBillable(history[reading].store, transactionID);
        Interfere(me);
        if faults.billThrows {
          Do(Act(me, BillThrows));
        } else {
          Do(Act(me, BillReturns(faults.status)));
          billed := true;
          Interfere(me);
          ghost var at := |history| - 1;
          Do(Act(me, if faults.saveFails then SaveLost else Save));
          assert !faults.saveFails ==> SavesAt(history, at, me, transactionID, faults.status);
        }
        assert ReadAt(history, reading, me);
      }
    }

    /**
      Takes the lock, checks, bills and saves, and leaves the lock on every path. Errors are
      logged, never thrown; without the billing component nothing happens at all.
     */
    method ExecuteAsyncTask(me: nat, transactionID: int, userID: string, billingActive: bool, faults: Faults)
      returns (billed: bool)
      requires Valid() && me !in st.executions
      modifies this
      ensures Valid() && old(history) <= history
      ensures !billingActive ==> st == old(st) && !billed
      ensures billingActive ==> me in st.executions && st.executions[me] == Execution(transactionID, userID, Done)
      ensures billed && !faults.saveFails ==> SavedIn(history, |old(history)|, me, transactionID, faults.status)
      ensures billed ==> PassedIn(history, |old(history)|, me, transactionID)
      ensures billingActive && !billed && !faults.lockRefused && !faults.billThrows ==>
                RefusedIn(history, |old(history)|, me, transactionID)
    {
      billed := false;
      if !billingActive {
        return;
      }
      Do(Begin(me, transactionID, userID));
      Interfere(me);
      if faults.lockRefused {
        Do(Act(me, LockRefused));
        return;
      }
      Do(Act(me, Lock));
      ghost var locking := |history| - 1;
      billed := BillUnderLock(me, faults);
      ghost var inside := history;
      Interfere(me);
      Do(Act(me, Unlock));
      Later(inside, history, |old(history)|, locking, me, transactionID, faults.status);
    }
  }
}
