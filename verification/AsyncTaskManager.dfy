/**
  One sweep over the pending tasks, run with bounded concurrency, and the chain of sweeps that
  trigger each other.
 */
module AsyncTaskManager {
  import opened Prelude

  datatype TaskName =
    | BillTransaction | TagsImport | UsersImport | SynchronizeCarCatalogs
    | OCPIPushTokens | OCPIPullLocations | OCPIPullSessions | OCPIPullCdrs
    | OCPICheckCdrs | OCPICheckSessions | OCPICheckLocations
    | OCPIPullTokens | OCPIPullTokensWithOffset | OCPIPushEVSEStatuses | OCPIPushLocations
    | EmaidsImport
    | Other(text: string)  // a stored name from outside the enumeration

  datatype Status = PENDING | RUNNING | SUCCESS | ERROR

  datatype AsyncTask = AsyncTask(name: TaskName, status: Status)

  /** The names `createTask` has a case for. */
  predicate Known(name: TaskName) {
    match name
    case EmaidsImport => false
    case Other(_) => false
    case _ => true
  }

  function Pending(store: map<int, AsyncTask>): set<int> {
    set id | id in store && store[id].status == PENDING
  }

  predicate NamesKnown(store: map<int, AsyncTask>) {
    forall id <- Pending(store) :: Known(store[id].name)
  }

  /** What the world does to one fetched task: whether its lock is granted, and what throws. */
  datatype Fate = Fate(granted: bool, firstSaveThrows: bool, runThrows: bool, secondSaveThrows: bool) {
    predicate Throws() {
      firstSaveThrows || runThrows || secondSaveThrows
    }
  }

  /** What became of a fetched task. */
  datatype Outcome = UnknownName | NoLock | Ended(success: bool)

  /** Where the handling of a fetched task is. */
  datatype Phase =
    | NotStarted
    | Acquiring
    | Locked
    | Running
    | Ran
    | Failing             // in `catch`
    | Releasing(success: bool)
    | Done(outcome: Outcome)

  function EndStatus(success: bool): Status {
    if success then SUCCESS else ERROR
  }

  /** How a fetched task stands in the store while its handling is in phase `p`. */
  predicate InPhase(before: AsyncTask, now: AsyncTask, p: Phase) {
    && now.name == before.name
    && (p.NotStarted? || Known(now.name) == (p != Done(UnknownName)))
    && match p
       case NotStarted => now == before
       case Acquiring => now == before
       case Locked => now == before
       case Running => now.status == RUNNING
       case Ran => now.status == RUNNING
       case Failing => true
       case Releasing(success) => now.status == EndStatus(success)
       case Done(Ended(success)) => now.status == EndStatus(success)
       case Done(_) => now == before
  }

  /** How a task can have come to phase `p`. */
  predicate Fated(name: TaskName, p: Phase, fate: Fate) {
    match p
    case NotStarted => true
    case Acquiring => true
    case Locked => fate.granted
    case Running => fate.granted && !fate.firstSaveThrows
    case Ran => fate.granted && !fate.firstSaveThrows && !fate.runThrows
    case Failing => fate.granted && fate.Throws()
    case Releasing(success) => fate.granted && success == !fate.Throws()
    case Done(Ended(success)) => fate.granted && success == !fate.Throws()
    case Done(NoLock) => !fate.granted
    case Done(UnknownName) => true
  }

  predicate HoldsLock(p: Phase) {
    !p.NotStarted? && !p.Acquiring? && !p.Done?
  }

  predicate InFlight(p: Phase) {
    !p.NotStarted? && !p.Done?
  }

  predicate HasEnded(p: Phase, success: bool) {
    p == Releasing(success) || p == Done(Ended(success))
  }

  // ---------------------------------------------------------------------------------
  // One step of a sweep, as a function
  // ---------------------------------------------------------------------------------

  datatype Sweep = Sweep(
    store: map<int, AsyncTask>,
    phases: map<int, Phase>,  // of the fetched tasks
    locks: set<int>,          // the task locks the sweep holds
    failedToAcquireLock: bool, inSuccess: nat, inError: nat)

  function NextPhase(p: Phase, known: bool, fate: Fate): Phase {
    match p
    case NotStarted => if known then Acquiring else Done(UnknownName)
    case Acquiring => if fate.granted then Locked else Done(NoLock)
    case Locked => if fate.firstSaveThrows then Failing else Running
    case Running => if fate.runThrows then Failing else Ran
    case Ran => if fate.secondSaveThrows then Failing else Releasing(true)
    case Failing => Releasing(false)
    case Releasing(success) => Done(Ended(success))
    case Done(_) => p
  }

  /** Reaching a phase may save a status... */
  function Saved(store: map<int, AsyncTask>, id: int, p: Phase): map<int, AsyncTask>
    requires id in store
  {
    match p
    case Running => store[id := store[id].(status := RUNNING)]
    case Releasing(success) => store[id := store[id].(status := EndStatus(success))]
    case _ => store
  }

  /** ...and takes or gives back the lock of the task. */
  function LocksAt(locks: set<int>, id: int, p: Phase): set<int> {
    match p
    case Locked => locks + {id}
    case Done(Ended(_)) => locks - {id}
    case _ => locks
  }

  function Next(w: Sweep, id: int, fate: Fate): Sweep
    requires id in w.phases && id in w.store
  {
    var q := NextPhase(w.phases[id], Known(w.store[id].name), fate);
    Sweep(
      Saved(w.store, id, q), w.phases[id := q], LocksAt(w.locks, id, q),
      w.failedToAcquireLock || q == Done(NoLock),
      w.inSuccess + if q == Releasing(true) then 1 else 0,
      w.inError + if q == Releasing(false) then 1 else 0)
  }

  // ---------------------------------------------------------------------------------
  // What every step keeps
  // ---------------------------------------------------------------------------------

  predicate StoreFollows(before: map<int, AsyncTask>, w: Sweep) {
    && w.store.Keys == before.Keys && w.phases.Keys == Pending(before)
    && (forall id <- before :: id !in w.phases ==> w.store[id] == before[id])
    && (forall id <- w.phases :: InPhase(before[id], w.store[id], w.phases[id]))
  }

  ghost predicate LocksFollow(w: Sweep) {
    && (forall id :: id in w.locks <==> id in w.phases && HoldsLock(w.phases[id]))
    && (w.failedToAcquireLock <==> exists id :: id in w.phases && w.phases[id] == Done(NoLock))
  }

  function EndedSoFar(phases: map<int, Phase>, success: bool): set<int> {
    set id | id in phases && HasEnded(phases[id], success)
  }

  function InFlightNow(phases: map<int, Phase>): set<int> {
    set id | id in phases && InFlight(phases[id])
  }

  predicate CountersFollow(w: Sweep) {
    w.inSuccess == |EndedSoFar(w.phases, true)| && w.inError == |EndedSoFar(w.phases, false)|
  }

  lemma KeepsStore(before: map<int, AsyncTask>, w: Sweep, id: int, fate: Fate)
    requires StoreFollows(before, w) && id in w.phases
    ensures StoreFollows(before, Next(w, id, fate))
  {
    assert InPhase(before[id], w.store[id], w.phases[id]);
  }

  ghost predicate AllFated(w: Sweep, fates: int -> Fate) {
    forall id <- w.phases :: id in w.store && Fated(w.store[id].name, w.phases[id], fates(id))
  }

  lemma KeepsFates(w: Sweep, id: int, fates: int -> Fate)
    requires AllFated(w, fates) && id in w.phases && !w.phases[id].Done?
    ensures AllFated(Next(w, id, fates(id)), fates)
  {
  }

  lemma KeepsLocks(w: Sweep, id: int, fate: Fate)
    requires LocksFollow(w) && id in w.phases && id in w.store && !w.phases[id].Done?
    ensures LocksFollow(Next(w, id, fate))
  {
    var v := Next(w, id, fate);
    if w.failedToAcquireLock {
      var other :| other in w.phases && w.phases[other] == Done(NoLock);
      assert v.phases[other] == Done(NoLock);
    }
    assert v.phases[id] == Done(NoLock) ==> v.failedToAcquireLock;
  }

  lemma EndedUpdate(phases: map<int, Phase>, id: int, q: Phase, success: bool)
    requires id in phases && (HasEnded(phases[id], success) ==> HasEnded(q, success))
    ensures |EndedSoFar(phases[id := q], success)| ==
              |EndedSoFar(phases, success)| + if HasEnded(q, success) && !HasEnded(phases[id], success) then 1 else 0
  {
    if HasEnded(q, success) && !HasEnded(phases[id], success) {
      assert EndedSoFar(phases[id := q], success) == EndedSoFar(phases, success) + {id};
    } else {
      assert EndedSoFar(phases[id := q], success) == EndedSoFar(phases, success);
    }
  }

  lemma KeepsCounters(w: Sweep, id: int, fate: Fate)
    requires CountersFollow(w) && id in w.phases && id in w.store && !w.phases[id].Done?
    ensures CountersFollow(Next(w, id, fate))
  {
    var q := Next(w, id, fate).phases[id];
    EndedUpdate(w.phases, id, q, true);
    EndedUpdate(w.phases, id, q, false);
  }

  lemma KeepsBound(w: Sweep, id: int, fate: Fate, bound: nat)
    requires id in w.phases && id in w.store && !w.phases[id].Done?
    requires |InFlightNow(w.phases)| + (if w.phases[id].NotStarted? then 1 else 0) <= bound
    ensures |InFlightNow(Next(w, id, fate).phases)| <= bound
  {
    var after := InFlightNow(Next(w, id, fate).phases);
    var now := InFlightNow(w.phases);
    if w.phases[id].NotStarted? {
      assert after <= now + {id};
      assert |now + {id}| <= |now| + 1;
    } else {
      assert after <= now;
    }
    Smaller(after, if w.phases[id].NotStarted? then now + {id} else now);
  }

  /** No set of tasks that are begun and not done is larger than the bound. */
  lemma AtMostInFlight(before: map<int, AsyncTask>, w: Sweep, fates: int -> Fate, bound: nat, begun: set<int>)
    requires SweepInv(before, w, fates, bound)
    requires forall id <- begun :: id in w.phases && !w.phases[id].NotStarted? && !w.phases[id].Done?
    ensures |begun| <= bound
  {
    forall id | id in begun
      ensures id in InFlightNow(w.phases)
    {
      assert InFlight(w.phases[id]);
    }
    Smaller(begun, InFlightNow(w.phases));
  }

  lemma {:induction false} Smaller(a: set<int>, b: set<int>)
    requires a <= b
    ensures |a| <= |b|
  {
    assert b == a + (b - a);
  }

  // ---------------------------------------------------------------------------------
  // The steps that are left
  // ---------------------------------------------------------------------------------

  function Rank(p: Phase): nat {
    match p
    case NotStarted => 7
    case Acquiring => 6
    case Locked => 5
    case Running => 4
    case Ran => 3
    case Failing => 2
    case Releasing(_) => 1
    case Done(_) => 0
  }

  function AtLeast(phases: map<int, Phase>, r: nat): set<int> {
    set id | id in phases && Rank(phases[id]) >= r
  }

  /** The ranks of all the tasks added up: no more steps than that are left. */
  function Work(phases: map<int, Phase>): nat {
    |AtLeast(phases, 1)| + |AtLeast(phases, 2)| + |AtLeast(phases, 3)| + |AtLeast(phases, 4)|
    + |AtLeast(phases, 5)| + |AtLeast(phases, 6)| + |AtLeast(phases, 7)|
  }

  lemma RankFalls(phases: map<int, Phase>, id: int, q: Phase, r: nat)
    requires id in phases && Rank(q) < Rank(phases[id])
    ensures |AtLeast(phases[id := q], r)| <= |AtLeast(phases, r)|
    ensures Rank(q) < r <= Rank(phases[id]) ==> |AtLeast(phases[id := q], r)| < |AtLeast(phases, r)|
  {
    var rest := AtLeast(phases, r) - {id};
    assert AtLeast(phases, r) == if Rank(phases[id]) >= r then rest + {id} else rest;
    assert AtLeast(phases[id := q], r) == if Rank(q) >= r then rest + {id} else rest;
  }

  lemma WorkFalls(phases: map<int, Phase>, id: int, q: Phase)
    requires id in phases && Rank(q) < Rank(phases[id])
    ensures Work(phases[id := q]) < Work(phases)
  {
    RankFalls(phases, id, q, 1);
    RankFalls(phases, id, q, 2);
    RankFalls(phases, id, q, 3);
    RankFalls(phases, id, q, 4);
    RankFalls(phases, id, q, 5);
    RankFalls(phases, id, q, 6);
    RankFalls(phases, id, q, 7);
  }

  // ---------------------------------------------------------------------------------
  // What a sweep does to the store
  // ---------------------------------------------------------------------------------

  /** The fetched tasks are all the pending ones; only those that were run have changed. */
  predicate Swept(before: map<int, AsyncTask>, after: map<int, AsyncTask>, outcomes: map<int, Outcome>) {
    && after.Keys == before.Keys
    && outcomes.Keys == Pending(before)
    && (forall id <- before :: id !in outcomes ==> after[id] == before[id])
    && (forall id <- outcomes ::
          && outcomes[id].UnknownName? == !Known(before[id].name)
          && after[id] ==
               if outcomes[id].Ended? then before[id].(status := EndStatus(outcomes[id].success)) else before[id])
  }

  function EndedWith(outcomes: map<int, Outcome>, success: bool): set<int> {
    set id | id in outcomes && outcomes[id] == Ended(success)
  }

  /** The sweep triggers the next one unless it found nothing or was refused a lock. */
  ghost predicate Retriggers(outcomes: map<int, Outcome>) {
    outcomes.Keys != {} && forall id <- outcomes :: outcomes[id] != NoLock
  }
  datatype ActionsResponse = ActionsResponse(inSuccess: nat, inError: nat)

  type Positive = n: nat | n > 0 witness 1

  class AsyncTaskManager {
    const nbrTasksInParallel: Positive
    var store: map<int, AsyncTask>

    // The variables of a sweep
    var phases: map<int, Phase>
    var locks: set<int>
    var failedToAcquireLock: bool
    var inSuccess: nat
    var inError: nat

    constructor (configured: int, store: map<int, AsyncTask>)
      ensures nbrTasksInParallel == if configured > 0 then configured else 1
      ensures this.store == store && locks == {}
    {
      nbrTasksInParallel := if configured > 0 then configured else 1;
      this.store := store;
      locks := {};
    }

    function State(): Sweep
      reads this
    {
      Sweep(store, phases, locks, failedToAcquireLock, inSuccess, inError)
    }

    /** Tasks left RUNNING by a stopped server are pending again. */
    method Init()
      modifies this`store
      ensures store.Keys == old(store).Keys
      ensures forall id <- store ::
                store[id] ==
                  if old(store)[id].status == RUNNING then old(store)[id].(status := PENDING) else old(store)[id]
    {
      store := map id | id in store ::
        if store[id].status == RUNNING then store[id].(status := PENDING) else store[id];
    }

    method Save(id: int, status: Status)
      requires id in store
      modifies this`store
      ensures store == old(store)[id := old(store)[id].(status := status)]
    {
      store := store[id := store[id].(status := status)];
    }

    /** The next step of a fetched task. */
    method Advance(id: int, fate: Fate)
      requires id in phases && id in store && !phases[id].Done?
      modifies this
      ensures State() == Next(old(State()), id, fate)
    {
      match phases[id] {
        case NotStarted =>
          phases := phases[id := if Known(store[id].name) then Acquiring else Done(UnknownName)];
        case Acquiring =>
          if fate.granted {
            locks := locks + {id};
            phases := phases[id := Locked];
          } else {
            failedToAcquireLock := true;
            phases := phases[id := Done(NoLock)];
          }
        case Locked =>
          if !fate.firstSaveThrows {
            Save(id, RUNNING);
          }
          phases := phases[id := if fate.firstSaveThrows then Failing else Running];
        case Running =>
          phases := phases[id := if fate.runThrows then Failing else Ran];
        case Ran =>
          if !fate.secondSaveThrows {
            Save(id, SUCCESS);
            inSuccess := inSuccess + 1;
          }
          phases := phases[id := if fate.secondSaveThrows then Failing else Releasing(true)];
        case Failing =>
          inError := inError + 1;
          Save(id, ERROR);
          phases := phases[id := Releasing(false)];
        case Releasing(success) =>
          locks := locks - {id};
          phases := phases[id := Done(Ended(success))];
      }
    }

    /** `Promise.map`: any schedule that keeps at most `nbrTasksInParallel` tasks in flight. */
    method Map(ghost before: map<int, AsyncTask>, fates: int -> Fate)
      requires SweepInv(before, State(), fates, nbrTasksInParallel)
      modifies this
      ensures SweepInv(before, State(), fates, nbrTasksInParallel)
      ensures AllDone(phases)
    {
      while !AllDone(phases)
        invariant SweepInv(before, State(), fates, nbrTasksInParallel)
        decreases Work(phases)
      {
        AdvanceOne(before, fates);
      }
    }

    method AdvanceOne(ghost before: map<int, AsyncTask>, fates: int -> Fate)
      requires SweepInv(before, State(), fates, nbrTasksInParallel) && !AllDone(phases)
      modifies this
      ensures SweepInv(before, State(), fates, nbrTasksInParallel) && Work(phases) < old(Work(phases))
    {
      var id := Choose(phases, nbrTasksInParallel);
      ghost var was := State();
      Advance(id, fates(id));
      KeepsAll(before, was, id, fates, nbrTasksInParallel);
    }

    /** One sweep; `fates` is what happens to each task it fetches. */
    method HandleAsyncTasks(fates: int -> Fate)
      returns (processed: ActionsResponse, outcomes: map<int, Outcome>, retrigger: bool)
      requires locks == {}
      modifies this
      ensures Swept(old(store), store, outcomes)
      ensures forall id <- old(store) :: id in store && store[id] == SweptTo(old(store)[id], fates(id))
      ensures processed.inSuccess == |RunEnding(old(store), fates, true)|
      ensures processed.inError == |RunEnding(old(store), fates, false)|
      ensures retrigger <==>
                (exists id <- old(store) :: old(store)[id].status == PENDING)
                && forall id <- old(store) ::
                     old(store)[id].status == PENDING && Known(old(store)[id].name) ==> fates(id).granted
      ensures processed == ActionsResponse(|EndedWith(outcomes, true)|, |EndedWith(outcomes, false)|)
      ensures retrigger == Retriggers(outcomes)
      ensures locks == {}
    {
      var before := store;
      phases := map id | id in Pending(store) :: NotStarted;
      failedToAcquireLock, inSuccess, inError := false, 0, 0;
      Begun(before, State(), fates);
      Map(before, fates);
      processed := ActionsResponse(inSuccess, inError);
      outcomes := Outcomes(phases);
      retrigger := phases.Keys != {} && !failedToAcquireLock;
      Finished(before, State());
      SweptByFate(before, State(), fates);
      EndedByFate(before, State(), fates, true);
      EndedByFate(before, State(), fates, false);
    }
  }

  predicate AllDone(phases: map<int, Phase>) {
    forall id <- phases :: phases[id].Done?
  }

  /** Whichever task the scheduler lets take a step. */
  method Choose(phases: map<int, Phase>, bound: Positive) returns (id: int)
    requires !AllDone(phases)
    ensures id in phases && !phases[id].Done?
    ensures phases[id].NotStarted? ==> |InFlightNow(phases)| < bound
  {
    var inFlight := InFlightNow(phases);
    NoMember(inFlight);
    var startNow: bool := *;
    if inFlight != {} && (!startNow || |inFlight| >= bound) {
      SomeMember(inFlight);
      id :| id in inFlight;
    } else {
      id :| id in phases && !phases[id].Done?;
    }
  }

  /** A task after the sweep: unless it stays as it is, SUCCESS exactly if nothing threw. */
  function SweptTo(task: AsyncTask, fate: Fate): AsyncTask {
    if task.status != PENDING || task.name.EmaidsImport? || task.name.Other? || !fate.granted then task
    else if fate.firstSaveThrows || fate.runThrows || fate.secondSaveThrows then task.(status := ERROR)
    else task.(status := SUCCESS)
  }

  /** The tasks a sweep runs that end this way. */
  function RunEnding(store: map<int, AsyncTask>, fates: int -> Fate, success: bool): set<int> {
    set id | id in store && store[id].status == PENDING && !store[id].name.EmaidsImport? && !store[id].name.Other?
             && fates(id).granted
             && success == !(fates(id).firstSaveThrows || fates(id).runThrows || fates(id).secondSaveThrows)
  }

  lemma FatesDecide(before: map<int, AsyncTask>, w: Sweep, fates: int -> Fate)
    requires StoreFollows(before, w) && AllFated(w, fates) && AllDone(w.phases)
    ensures forall id <- w.phases ::
              w.phases[id] == Done(if before[id].name.EmaidsImport? || before[id].name.Other? then UnknownName
                                   else if fates(id).granted then Ended(!fates(id).Throws()) else NoLock)
  {
    forall id | id in w.phases
      ensures Fated(before[id].name, w.phases[id], fates(id)) && InPhase(before[id], w.store[id], w.phases[id])
    {
    }
  }

  /** Whatever the outcome, those that ended one way are those whose fate says so. */
  lemma EndedByFate(before: map<int, AsyncTask>, w: Sweep, fates: int -> Fate, success: bool)
    requires StoreFollows(before, w) && AllFated(w, fates) && AllDone(w.phases)
    ensures EndedSoFar(w.phases, success) == RunEnding(before, fates, success)
  {
    FatesDecide(before, w, fates);
    forall id
      ensures id in EndedSoFar(w.phases, success) <==> id in RunEnding(before, fates, success)
    {
    }
  }

  lemma SweptByFate(before: map<int, AsyncTask>, w: Sweep, fates: int -> Fate)
    requires StoreFollows(before, w) && AllFated(w, fates) && LocksFollow(w) && AllDone(w.phases)
    ensures forall id <- before :: SweptTo(before[id], fates(id)) == w.store[id]
    ensures w.phases.Keys != {} && !w.failedToAcquireLock <==>
              (exists id <- before :: before[id].status == PENDING)
              && forall id <- before :: before[id].status == PENDING && Known(before[id].name) ==> fates(id).granted
  {
    FatesDecide(before, w, fates);
    forall id | id in before
      ensures SweptTo(before[id], fates(id)) == w.store[id]
    {
      if id in w.phases {
        assert InPhase(before[id], w.store[id], w.phases[id]);
      }
    }
    if w.phases.Keys != {} {
      SomeMember(w.phases.Keys);
    }
  }

  ghost predicate SweepInv(before: map<int, AsyncTask>, w: Sweep, fates: int -> Fate, bound: nat) {
    && StoreFollows(before, w) && AllFated(w, fates) && LocksFollow(w) && CountersFollow(w)
    && |InFlightNow(w.phases)| <= bound
  }

  lemma KeepsAll(before: map<int, AsyncTask>, w: Sweep, id: int, fates: int -> Fate, bound: nat)
    requires SweepInv(before, w, fates, bound) && id in w.phases && id in w.store && !w.phases[id].Done?
    requires w.phases[id].NotStarted? ==> |InFlightNow(w.phases)| < bound
    ensures SweepInv(before, Next(w, id, fates(id)), fates, bound)
    ensures Work(Next(w, id, fates(id)).phases) < Work(w.phases)
  {
    WorkFalls(w.phases, id, Next(w, id, fates(id)).phases[id]);
    KeepsStore(before, w, id, fates(id));
    KeepsFates(w, id, fates);
    KeepsLocks(w, id, fates(id));
    KeepsCounters(w, id, fates(id));
    KeepsBound(w, id, fates(id), bound);
  }

  lemma Begun(before: map<int, AsyncTask>, w: Sweep, fates: int -> Fate)
    requires w.store == before && w.phases == map id | id in Pending(before) :: NotStarted
    requires w.locks == {} && !w.failedToAcquireLock && w.inSuccess == 0 && w.inError == 0
    ensures SweepInv(before, w, fates, 0)
  {
    assert forall id <- w.phases :: w.phases[id] == NotStarted;
    assert forall id :: id !in EndedSoFar(w.phases, true);
    NoMember(EndedSoFar(w.phases, true));
    assert forall id :: id !in EndedSoFar(w.phases, false);
    NoMember(EndedSoFar(w.phases, false));
    assert forall id :: id !in InFlightNow(w.phases);
    NoMember(InFlightNow(w.phases));
  }

  function Outcomes(phases: map<int, Phase>): map<int, Outcome>
    requires AllDone(phases)
  {
    map id | id in phases :: phases[id].outcome
  }

  lemma SameEnded(phases: map<int, Phase>, success: bool)
    requires AllDone(phases)
    ensures EndedWith(Outcomes(phases), success) == EndedSoFar(phases, success)
  {
    forall id
      ensures id in EndedWith(Outcomes(phases), success) <==> id in EndedSoFar(phases, success)
    {
      if id in phases {
        assert phases[id] == Done(Outcomes(phases)[id]);
      }
    }
  }

  lemma AllSwept(before: map<int, AsyncTask>, w: Sweep)
    requires StoreFollows(before, w) && AllDone(w.phases)
    ensures Swept(before, w.store, Outcomes(w.phases))
  {
    var outcomes := Outcomes(w.phases);
    assert outcomes.Keys == w.phases.Keys;
    forall id | id in outcomes
      ensures outcomes[id].UnknownName? == !Known(before[id].name)
      ensures w.store[id] ==
                if outcomes[id].Ended? then before[id].(status := EndStatus(outcomes[id].success)) else before[id]
    {
      assert w.phases[id] == Done(outcomes[id]) && InPhase(before[id], w.store[id], w.phases[id]);
    }
  }

  lemma Finished(before: map<int, AsyncTask>, w: Sweep)
    requires StoreFollows(before, w) && LocksFollow(w) && CountersFollow(w) && AllDone(w.phases)
    ensures var outcomes := Outcomes(w.phases);
            && Swept(before, w.store, outcomes)
            && w.inSuccess == |EndedWith(outcomes, true)| && w.inError == |EndedWith(outcomes, false)|
            && ((w.phases.Keys != {} && !w.failedToAcquireLock) <==> Retriggers(outcomes))
            && w.locks == {}
  {
    AllSwept(before, w);
    SameEnded(w.phases, true);
    SameEnded(w.phases, false);
    NoMember(w.locks);
    assert Outcomes(w.phases).Keys == w.phases.Keys;
    assert forall id <- w.phases :: w.phases[id] == Done(Outcomes(w.phases)[id]);
  }

  // ---------------------------------------------------------------------------------
  // The chain of sweeps
  // ---------------------------------------------------------------------------------

  /** One sweep took the store from `before` to `after` and triggered another one. */
  ghost predicate Triggered(before: map<int, AsyncTask>, after: map<int, AsyncTask>) {
    exists outcomes :: Swept(before, after, outcomes) && Retriggers(outcomes)
  }

  ghost predicate LinkAt(stores: seq<map<int, AsyncTask>>, i: nat)
    requires i + 1 < |stores|
  {
    Triggered(stores[i], stores[i + 1])
  }

  /** The store before the first sweep and after each of them; nobody adds tasks. */
  ghost predicate IsChain(stores: seq<map<int, AsyncTask>>) {
    stores != [] && forall i: nat :: i + 1 < |stores| ==> LinkAt(stores, i)
  }

  function UnknownPending(store: map<int, AsyncTask>): set<int> {
    set id | id in store && store[id].status == PENDING && !Known(store[id].name)
  }

  /** After a sweep that triggers another, exactly the tasks of unknown name are pending. */
  lemma TriggeredLeavesUnknown(before: map<int, AsyncTask>, after: map<int, AsyncTask>)
    requires Triggered(before, after)
    ensures Pending(after) == UnknownPending(before) == UnknownPending(after)
  {
    var outcomes :| Swept(before, after, outcomes) && Retriggers(outcomes);
    forall id | id in before
      ensures id in Pending(after) <==> id in UnknownPending(before)
      ensures id in UnknownPending(after) <==> id in UnknownPending(before)
    {
      if id in Pending(before) {
        assert id in outcomes;
      }
    }
  }

  lemma TriggeredHadWork(before: map<int, AsyncTask>, after: map<int, AsyncTask>)
    requires Triggered(before, after)
    ensures Pending(before) != {}
  {
    var outcomes :| Swept(before, after, outcomes) && Retriggers(outcomes);
    assert outcomes.Keys == Pending(before);
  }

  lemma {:induction false} ChainLeavesUnknown(stores: seq<map<int, AsyncTask>>)
    requires IsChain(stores) && |stores| > 1
    ensures Pending(stores[|stores| - 1]) == UnknownPending(stores[0]) == UnknownPending(stores[|stores| - 1])
  {
    var n := |stores| - 1;
    assert LinkAt(stores, n - 1);
    TriggeredLeavesUnknown(stores[n - 1], stores[n]);
    if n > 1 {
      var shorter := stores[..n];
      forall i: nat | i + 1 < n
        ensures LinkAt(shorter, i)
      {
        assert LinkAt(stores, i);
      }
      ChainLeavesUnknown(shorter);
    }
  }

  /**
    Whatever the outcomes of the tasks, after the first sweep of a chain the next one finds
    nothing to do exactly when the names of all the tasks pending at first are known.
   */
  lemma ChainStopsIffNamesKnown(stores: seq<map<int, AsyncTask>>)
    requires IsChain(stores) && |stores| > 1
    ensures Pending(stores[|stores| - 1]) == {} <==> NamesKnown(stores[0])
    ensures NamesKnown(stores[0]) ==> |stores| == 2
  {
    ChainLeavesUnknown(stores);
    var unknown := UnknownPending(stores[0]);
    if NamesKnown(stores[0]) {
      assert forall id :: id !in unknown;
      NoMember(unknown);
      if |stores| > 2 {
        assert LinkAt(stores, 0) && LinkAt(stores, 1);
        TriggeredHadWork(stores[1], stores[2]);
        TriggeredLeavesUnknown(stores[0], stores[1]);
      }
    } else {
      var id :| id in Pending(stores[0]) && !Known(stores[0][id].name);
      assert id in unknown;
    }
  }

  /** With an unknown name pending, every sweep that gets its locks triggers another one. */
  lemma ChainGoesOn(stores: seq<map<int, AsyncTask>>, after: map<int, AsyncTask>, outcomes: map<int, Outcome>)
    requires IsChain(stores) && !NamesKnown(stores[0])
    requires Swept(stores[|stores| - 1], after, outcomes) && forall id <- outcomes :: outcomes[id] != NoLock
    ensures IsChain(stores + [after])
  {
    var last := stores[|stores| - 1];
    var id :| id in Pending(stores[0]) && !Known(stores[0][id].name);
    assert id in UnknownPending(stores[0]);
    if |stores| > 1 {
      ChainLeavesUnknown(stores);
    }
    assert id in Pending(last);
    assert id in outcomes;
    var longer := stores + [after];
    forall i: nat | i + 1 < |longer|
      ensures LinkAt(longer, i)
    {
      if i + 1 < |stores| {
        assert LinkAt(stores, i);
      } else {
        assert longer[i] == last && longer[i + 1] == after;
      }
    }
  }

  /** One task named EMAIDS_IMPORT, a member of the enumeration, and the sweeps never end. */
  lemma EmaidsImportSpins(n: nat)
    ensures var store := map[0 := AsyncTask(EmaidsImport, PENDING)];
            IsChain(seq(n + 1, _ => store))
  {
    var store := map[0 := AsyncTask(EmaidsImport, PENDING)];
    var outcomes := map[0 := UnknownName];
    assert 0 in outcomes.Keys;
    assert Swept(store, store, outcomes) by {
      assert Pending(store) == {0};
    }
    assert Triggered(store, store);
    var stores := seq(n + 1, _ => store);
    forall i: nat | i + 1 < |stores|
      ensures LinkAt(stores, i)
    {
    }
  }
}
