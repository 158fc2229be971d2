/**
  Billing on top of the lease lock, as one system: an execution gets into its critical section
  by the insert that makes its session the holder, and out of it by the release.
 */
module BillingUnderLock {
  import opened Prelude
  import opened Billing
  import opened Runs
  import L = LockProtocol

  /** Session `p` of the lock is the one of execution `p`; other sessions do something else. */
  datatype Product = Product(locks: L.State, billing: State)

  datatype Event =
    | Elsewhere(action: L.Action)  // the clock, and sessions that do not bill
    | Launch(who: nat, transactionID: int, userID: string, lock: L.Lock, timeoutSecs: int)
    | Acquiring(who: nat, lockStep: L.Move)
    | Working(who: nat, step: Move)
    | Leave(who: nat)
    | Die(who: nat)

  /** `id` is the id of the lock of a user. */
  predicate CanHappen(s: Product, e: Event, id: string -> L.Digest) {
    match e
    case Elsewhere(a) => L.Enabled(s.locks, a) && (!a.Tick? ==> a.who !in s.billing.executions)
    case Launch(p, t, u, lock, timeoutSecs) =>
      L.Enabled(s.locks, L.Begin(p, lock, timeoutSecs)) && Enabled(s.billing, Begin(p, t, u)) && lock.id == id(u)
    case Acquiring(p, m) =>
      && p in s.billing.executions && s.billing.executions[p].pc.Waiting?
      && L.Enabled(s.locks, L.Act(p, m)) && !m.Release? && !m.Crash?
    case Working(p, m) =>
      Enabled(s.billing, Act(p, m)) && !m.Lock? && !m.LockRefused? && !m.Unlock? && !m.Stop?
    case Leave(p) => Enabled(s.billing, Act(p, Unlock)) && L.Enabled(s.locks, L.Act(p, L.Release))
    case Die(p) => p in s.billing.executions && p in s.locks.sessions
  }

  /** `acquire` has returned: true for a holder, false for a session that has given up. */
  function Returned(billing: State, p: nat, pc: L.Pc): State
    requires p in billing.executions && billing.executions[p].pc.Waiting?
  {
    if pc.Holding? then Apply(billing, Act(p, Lock))
    else if pc.Finished? || pc == L.Refused(false) then Apply(billing, Act(p, LockRefused))
    else billing
  }

  function After(s: Product, e: Event, id: string -> L.Digest): Product
    requires CanHappen(s, e, id)
  {
    match e
    case Elsewhere(a) => s.(locks := L.Apply(s.locks, a))
    case Launch(p, t, u, lock, timeoutSecs) =>
      Product(L.Apply(s.locks, L.Begin(p, lock, timeoutSecs)), Apply(s.billing, Begin(p, t, u)))
    case Acquiring(p, m) =>
      var locks := L.Apply(s.locks, L.Act(p, m));
      Product(locks, Returned(s.billing, p, locks.sessions[p].pc))
    case Working(p, m) => s.(billing := Apply(s.billing, Act(p, m)))
    case Leave(p) => Product(L.Apply(s.locks, L.Act(p, L.Release)), Apply(s.billing, Act(p, Unlock)))
    case Die(p) => Product(L.Apply(s.locks, L.Act(p, L.Crash)), Apply(s.billing, Act(p, Stop)))
  }

  ghost predicate ProductStep(s: Product, t: Product, id: string -> L.Digest) {
    exists e :: CanHappen(s, e, id) && t == After(s, e, id)
  }

  ghost function ProductSteps(id: string -> L.Digest): (Product, Product) -> bool {
    (s, t) => ProductStep(s, t, id)
  }

  ghost predicate IsProductRun(run: seq<Product>, id: string -> L.Digest) {
    Follows(ProductSteps(id), run) && L.Init(run[0].locks) && Init(run[0].billing)
  }

  // ---------------------------------------------------------------------------------
  // The lock makes the executions exclusive
  // ---------------------------------------------------------------------------------

  /** An execution is in its critical section exactly while its session holds the lock of its user. */
  ghost predicate Linked(s: Product, id: string -> L.Digest) {
    forall p <- s.billing.executions :: LinkedAt(s, p, id)
  }

  predicate LinkedAt(s: Product, p: nat, id: string -> L.Digest)
    requires p in s.billing.executions
  {
    && p in s.locks.sessions && s.locks.sessions[p].lock.id == id(s.billing.executions[p].userID)
    && (InCriticalSection(s.billing.executions[p]) <==> L.Holds(s.locks, p))
  }

  lemma EventKeepsLinked(s: Product, e: Event, id: string -> L.Digest)
    requires Linked(s, id) && CanHappen(s, e, id)
    ensures Linked(After(s, e, id), id)
  {
    var t := After(s, e, id);
    forall p | p in t.billing.executions
      ensures LinkedAt(t, p, id)
    {
      if p in s.billing.executions {
        assert LinkedAt(s, p, id);
      }
    }
  }

  lemma EventKeepsLockInv(s: Product, e: Event, id: string -> L.Digest)
    requires L.Inv(s.locks) && L.Careful(s.locks) && CanHappen(s, e, id)
    ensures L.Inv(After(s, e, id).locks)
  {
    match e
    case Elsewhere(a) => L.ActionKeepsInv(s.locks, a);
    case Launch(p, _, _, lock, timeoutSecs) => L.ActionKeepsInv(s.locks, L.Begin(p, lock, timeoutSecs));
    case Acquiring(p, m) => L.ActionKeepsInv(s.locks, L.Act(p, m));
    case Working(_, _) =>
    case Leave(p) => L.ActionKeepsInv(s.locks, L.Act(p, L.Release));
    case Die(p) => L.ActionKeepsInv(s.locks, L.Act(p, L.Crash));
  }

  lemma LinkedIsExclusive(s: Product, id: string -> L.Digest)
    requires L.Inv(s.locks) && Linked(s, id)
    ensures Exclusive(s.billing)
  {
    forall p, q |
      p in s.billing.executions && q in s.billing.executions && InCriticalSection(s.billing.executions[p])
      && InCriticalSection(s.billing.executions[q]) && s.billing.executions[p].userID == s.billing.executions[q].userID
      ensures p == q
    {
      assert LinkedAt(s, p, id) && LinkedAt(s, q, id);
      assert s.locks.docs[s.locks.sessions[p].lock.id] == L.Document(s.locks.sessions[p].lock, p);
    }
  }

  /** The billing step of an event, if it has one. */
  lemma EventKeepsBillingInv(s: Product, e: Event, id: string -> L.Digest)
    requires CanHappen(s, e, id) && Inv(s.billing) && Careful(s.billing) && Careful(After(s, e, id).billing)
    requires SaveKept(s.billing, After(s, e, id).billing)
    ensures Inv(After(s, e, id).billing)
  {
    match e
    case Elsewhere(_) =>
    case Launch(p, t, u, _, _) => ActionKeepsInv(s.billing, Begin(p, t, u));
    case Acquiring(p, m) =>
      var pc := After(s, e, id).locks.sessions[p].pc;
      if pc.Holding? {
        ActionKeepsInv(s.billing, Act(p, Lock));
      } else if pc.Finished? || pc == L.Refused(false) {
        ActionKeepsInv(s.billing, Act(p, LockRefused));
      }
    case Working(p, m) => ActionKeepsInv(s.billing, Act(p, m));
    case Leave(p) => ActionKeepsInv(s.billing, Act(p, Unlock));
    case Die(p) => ActionKeepsInv(s.billing, Act(p, Stop));
  }

  ghost predicate ProductInv(s: Product, id: string -> L.Digest) {
    L.Inv(s.locks) && Linked(s, id) && Inv(s.billing)
  }

  lemma EventKeepsInv(s: Product, e: Event, id: string -> L.Digest)
    requires ProductInv(s, id) && CanHappen(s, e, id) && L.Careful(s.locks)
    requires OneUser(s.billing) && Conclusive(s.billing)
    requires var t := After(s, e, id).billing; OneUser(t) && Conclusive(t) && SaveKept(s.billing, t)
    ensures ProductInv(After(s, e, id), id)
  {
    EventKeepsLinked(s, e, id);
    EventKeepsLockInv(s, e, id);
    LinkedIsExclusive(s, id);
    LinkedIsExclusive(After(s, e, id), id);
    EventKeepsBillingInv(s, e, id);
  }

  /**
    Over every run of the whole system whose locks are careful, with any sessions and crashes
    beside, no transaction is billed successfully twice.
   */
  lemma {:induction false} BilledAtMostOnceUnderLock(run: seq<Product>, id: string -> L.Digest, k: nat)
    requires IsProductRun(run, id) && k < |run|
    requires forall i :: 0 <= i < k ==> L.Careful(run[i].locks)
    requires forall i :: 0 <= i <= k ==> OneUser(run[i].billing) && Conclusive(run[i].billing)
    requires forall i :: 0 <= i < k ==> SaveKept(run[i].billing, run[i + 1].billing)
    ensures ProductInv(run[k], id) && BilledAtMostOnce(run[k].billing)
  {
    if k > 0 {
      BilledAtMostOnceUnderLock(run, id, k - 1);
      assert StepAt(ProductSteps(id), run, k - 1);
      var e :| CanHappen(run[k - 1], e, id) && run[k] == After(run[k - 1], e, id);
      EventKeepsInv(run[k - 1], e, id);
    }
  }

  /** An execution whose `acquire` has returned goes on or is done, and no other one does. */
  lemma AcquireReturns(s: Product, p: nat, m: L.Move, id: string -> L.Digest)
    requires CanHappen(s, Acquiring(p, m), id)
    ensures var t := After(s, Acquiring(p, m), id);
            && (t.billing.executions[p].pc.Locked? <==> L.Holds(t.locks, p))
            && (t.billing.executions[p].pc.Done? <==>
                  t.locks.sessions[p].pc.Finished? || t.locks.sessions[p].pc == L.Refused(false))
  {
  }

  // ---------------------------------------------------------------------------------
  // An execution that nothing disturbs
  // ---------------------------------------------------------------------------------

  /** The execution `p`, its session and what it has changed; `held` tells whether its lock is stored. */
  datatype Alone = Alone(session: L.Session, held: bool, e: Execution, store: map<int, BillingData>,
                         billed: map<int, nat>) {
    function In(s: Product, p: nat): Product {
      Product(
        L.State(s.locks.now,
                if held then s.locks.docs[session.lock.id := L.Document(session.lock, p)] else s.locks.docs,
                s.locks.sessions[p := session]),
        State(store, s.billing.executions[p := e], billed))
    }
  }

  lemma Goes(s: Product, p: nat, id: string -> L.Digest, a: Alone, e: Event, b: Alone)
    requires LeadsTo(ProductSteps(id), s, a.In(s, p)) && CanHappen(a.In(s, p), e, id)
    requires After(a.In(s, p), e, id) == b.In(s, p)
    ensures LeadsTo(ProductSteps(id), s, b.In(s, p))
  {
    assert ProductStep(a.In(s, p), b.In(s, p), id);
    OneMore(ProductSteps(id), s, a.In(s, p), b.In(s, p));
  }

  /** A move of the session, with nothing stored under its id if it inserts. */
  lemma SessionGoes(s: Product, p: nat, id: string -> L.Digest, a: Alone, m: L.Move, b: Alone)
    requires LeadsTo(ProductSteps(id), s, a.In(s, p)) && a.e.pc.Waiting? && !a.held
    requires a.session.lock.id !in s.locks.docs && (m.Start? || m.Insert?) && L.CanMove(None, a.session, m)
    requires var pc := L.PcAfter(s.locks.now, None, a.session, m);
             b == a.(session := a.session.(pc := pc), held := m.Insert?,
                     e := a.e.(pc := if m.Insert? then Locked else Waiting))
    ensures LeadsTo(ProductSteps(id), s, b.In(s, p))
  {
    assert L.Stored(a.In(s, p).locks, a.session.lock.id) == None;
    var t, u := After(a.In(s, p), Acquiring(p, m), id), b.In(s, p);
    assert t.locks.sessions == u.locks.sessions;
    assert t.locks.docs == u.locks.docs;
    assert t.billing.executions == u.billing.executions;
    Goes(s, p, id, a, Acquiring(p, m), b);
  }

  lemma Works(s: Product, p: nat, id: string -> L.Digest, a: Alone, m: Move, b: Alone)
    requires LeadsTo(ProductSteps(id), s, a.In(s, p)) && (m.Read? || m.BillReturns? || m.Save?) && CanMove(a.e, m)
    requires var t := a.e.transactionID;
             b == a.(e := a.e.(pc := PcAfter(if t in a.store then Some(a.store[t]) else None, a.e, m)),
                     store := if m.Save? then a.store[t := a.e.pc.result] else a.store,
                     billed := if m.BillReturns? then a.billed[t := (if t in a.billed then a.billed[t] else 0) + 1]
                               else a.billed)
    ensures LeadsTo(ProductSteps(id), s, b.In(s, p))
  {
    assert After(a.In(s, p), Working(p, m), id).billing.executions == b.In(s, p).billing.executions;
    Goes(s, p, id, a, Working(p, m), b);
  }

  /** The lock of the user is free: a new execution gets it. */
  lemma GetsIn(s: Product, p: nat, transactionID: int, userID: string, id: string -> L.Digest) returns (a: Alone)
    requires p !in s.billing.executions && p !in s.locks.sessions && id(userID) !in s.locks.docs
    ensures var lock := L.Lock(id(userID), s.locks.now, Some(s.locks.now + 600_000));
            a == Alone(L.Session(lock, 60, L.Holding), true, Execution(transactionID, userID, Locked),
                       s.billing.store, s.billing.billed)
    ensures LeadsTo(ProductSteps(id), s, a.In(s, p))
  {
    var lock := L.Lock(id(userID), s.locks.now, Some(s.locks.now + 600_000));
    a := Alone(L.Session(lock, 60, L.Starting(true)), false, Execution(transactionID, userID, Waiting),
               s.billing.store, s.billing.billed);
    Stay(ProductSteps(id), s);
    assert CanHappen(s, Launch(p, transactionID, userID, lock, 60), id);
    assert After(s, Launch(p, transactionID, userID, lock, 60), id) == a.In(s, p);
    assert ProductStep(s, a.In(s, p), id);
    OneMore(ProductSteps(id), s, s, a.In(s, p));
    var b := a.(session := a.session.(pc := L.Inserting(true, s.locks.now + 60_000)));
    SessionGoes(s, p, id, a, L.Start, b);
    a := b.(session := b.session.(pc := L.Holding), held := true, e := b.e.(pc := Locked));
    SessionGoes(s, p, id, b, L.Insert, a);
  }

  /**
    With the lock of the user free and the transaction billable, a new execution that nothing
    disturbs bills it once, saves what billing returned and frees the lock.
   */
  lemma UndisturbedBills(s: Product, p: nat, transactionID: int, userID: string, status: Option<Status>,
                         id: string -> L.Digest) returns (t: Product)
    requires p !in s.billing.executions && p !in s.locks.sessions && id(userID) !in s.locks.docs
    requires transactionID in s.billing.store && s.billing.store[transactionID] == BillingData(true, Some(Pending))
    ensures LeadsTo(ProductSteps(id), s, t) && t.locks.docs == s.locks.docs
    ensures t.billing.store == s.billing.store[transactionID := BillingData(true, status)]
    ensures Count(t.billing, transactionID) == Count(s.billing, transactionID) + 1
    ensures t.billing.executions == s.billing.executions[p := Execution(transactionID, userID, Done)]
  {
    var a := GetsIn(s, p, transactionID, userID, id);
    var b := a.(e := a.e.(pc := Guarded(BillingData(true, Some(Pending)))));
    Works(s, p, id, a, Read, b);
    var c := b.(e := b.e.(pc := Pc.Returned(BillingData(true, status))),
                billed := b.billed[transactionID := Count(s.billing, transactionID) + 1]);
    Works(s, p, id, b, BillReturns(status), c);
    var d := c.(e := c.e.(pc := Leaving), store := c.store[transactionID := BillingData(true, status)]);
    Works(s, p, id, c, Save, d);
    t := Leaves(s, p, id, d);
  }

  lemma Leaves(s: Product, p: nat, id: string -> L.Digest, a: Alone) returns (t: Product)
    requires LeadsTo(ProductSteps(id), s, a.In(s, p)) && a.e.pc.Leaving? && a.held && a.session.pc.Holding?
    requires a.session.lock.id !in s.locks.docs
    ensures LeadsTo(ProductSteps(id), s, t) && t.locks.docs == s.locks.docs
    ensures t.billing == State(a.store, s.billing.executions[p := a.e.(pc := Done)], a.billed)
  {
    var b := a.(session := a.session.(pc := L.Finished), held := false, e := a.e.(pc := Done));
    t := b.In(s, p);
    var u := After(a.In(s, p), Leave(p), id);
    assert u.locks.docs == t.locks.docs;
    assert u.locks.sessions == t.locks.sessions;
    assert u.billing.executions == t.billing.executions;
    Goes(s, p, id, a, Leave(p), b);
  }
}
