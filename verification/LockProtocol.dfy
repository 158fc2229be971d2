/**
  The lease lock of LockingManager as the steps of any number of sessions over one lock
  collection and one clock. A session is one call of `acquire` together with what follows
  it up to `release`; between two of its store operations any other session may move.
 */
module LockProtocol {
  import opened Prelude
  import opened Runs

  const LOCK_WAIT_MILLIS: nat := 1000

  /** A SHA-256 digest, read as a number. */
  type Digest = nat

  /** The document `createLock` builds; the expiration is fixed before the first insert. */
  datatype Lock = Lock(id: Digest, timestamp: int, expiration: Option<int>)

  /** The expiration `createLock` sets: none without a validity. */
  function Lease(timestamp: int, validitySecs: int): Option<int> {
    if validitySecs > 0 then Some(timestamp + validitySecs * 1000) else None
  }

  /** A stored lock. `insertedBy` is bookkeeping for the proofs: no step reads it. */
  datatype Document = Document(lock: Lock, insertedBy: nat)

  datatype Pc =
    | Starting(retry: bool)               // entering acquireExclusiveLock
    | Inserting(retry: bool, until: int)  // about to insert, round ends at `until`
    | Sleeping(retry: bool, until: int)   // insert refused, waiting
    | Refused(retry: bool)                // acquireExclusiveLock threw
    | Checking(found: Option<Lock>, readAt: int)  // lock read back, expiration not yet compared
    | Deleting                            // the lock read was found to be expired
    | Holding                             // acquire returned true
    | Finished                            // gave up, released, or crashed

  datatype Session = Session(lock: Lock, timeoutSecs: int, pc: Pc)

  datatype State = State(now: int, docs: map<Digest, Document>, sessions: map<nat, Session>)

  /** What a session does next. */
  datatype Move =
    | Start
    | Insert           // the unique id accepts or refuses the document
    | InsertFails      // refused for another reason, nothing stored
    | InsertUnreported // stored, but the call still threw
    | Wake
    | Read
    | Check
    | Delete
    | Release
    | Crash            // includes any store call that throws out of acquire

  datatype Action =
    | Tick(millis: nat)
    | Begin(who: nat, lock: Lock, timeoutSecs: int)
    | Act(who: nat, move: Move)

  predicate Expired(lock: Lock, now: int) {
    lock.expiration.Some? && lock.expiration.value < now
  }

  /** The document stored under an id, if any. */
  function Stored(s: State, id: Digest): Option<Document> {
    if id in s.docs then Some(s.docs[id]) else None
  }

  function Store(docs: map<Digest, Document>, id: Digest, doc: Option<Document>): map<Digest, Document> {
    if doc.Some? then docs[id := doc.value] else docs - {id}
  }

  predicate CanMove(stored: Option<Document>, session: Session, m: Move) {
    match m
    case Start => session.pc.Starting?
    case Insert => session.pc.Inserting?
    case InsertFails => session.pc.Inserting?
    case InsertUnreported => session.pc.Inserting? && stored.None?
    case Wake => session.pc.Sleeping?
    case Read => session.pc == Refused(true)
    case Check => session.pc.Checking?
    case Delete => session.pc.Deleting?
    case Release => session.pc.Holding?
    case Crash => true
  }

  predicate Enabled(s: State, a: Action) {
    match a
    case Tick(_) => true
    case Begin(p, _, _) => p !in s.sessions
    case Act(p, m) => p in s.sessions && CanMove(Stored(s, s.sessions[p].lock.id), s.sessions[p], m)
  }

  /** Where a refused insert leads: with a timeout the loop sleeps, without one it throws. */
  function AfterRefusal(session: Session): Pc
    requires session.pc.Inserting?
  {
    if session.timeoutSecs > 0 then Sleeping(session.pc.retry, session.pc.until)
    else Refused(session.pc.retry)
  }

  function PcAfter(now: int, stored: Option<Document>, session: Session, m: Move): Pc
    requires CanMove(stored, session, m)
  {
    match m
    case Start => Inserting(session.pc.retry, now + session.timeoutSecs * 1000)
    case Insert => if stored.Some? then AfterRefusal(session) else Holding
    case InsertFails => AfterRefusal(session)
    case InsertUnreported => AfterRefusal(session)
    case Wake =>
      if now < session.pc.until then Inserting(session.pc.retry, session.pc.until) else Refused(session.pc.retry)
    case Read => Checking(if stored.Some? then Some(stored.value.lock) else None, now)
    case Check =>
      if session.pc.found.Some? && Expired(session.pc.found.value, now) then Deleting else Finished
    // A delete that finds nothing is only logged: the retry goes ahead either way.
    case Delete => Starting(false)
    case Release => Finished
    case Crash => Finished
  }

  /** What is stored under the session's id afterwards. Deletes never ask whose document it is. */
  function StoredAfter(stored: Option<Document>, p: nat, session: Session, m: Move): Option<Document> {
    if m.Delete? || m.Release? then None
    else if (m.Insert? || m.InsertUnreported?) && stored.None? then Some(Document(session.lock, p))
    else stored
  }

  function Apply(s: State, a: Action): State
    requires Enabled(s, a)
  {
    match a
    case Tick(d) => s.(now := s.now + d)
    case Begin(p, lock, timeoutSecs) =>
      s.(sessions := s.sessions[p := Session(lock, timeoutSecs, Starting(true))])
    case Act(p, m) =>
      var session := s.sessions[p];
      var stored := Stored(s, session.lock.id);
      State(s.now,
            Store(s.docs, session.lock.id, StoredAfter(stored, p, session, m)),
            s.sessions[p := session.(pc := PcAfter(s.now, stored, session, m))])
  }

  ghost predicate Step(s: State, t: State) {
    exists a :: Enabled(s, a) && t == Apply(s, a)
  }

  ghost predicate IsRun(run: seq<State>) {
    Follows(Step, run)
  }

  /** Documents left over by earlier crashes may be there from the start. */
  ghost predicate Init(s: State) {
    s.sessions == map[]
  }

  predicate Holds(s: State, p: nat) {
    p in s.sessions && s.sessions[p].pc.Holding?
  }

  ghost predicate MutualExclusion(s: State) {
    forall p, q :: Holds(s, p) && Holds(s, q) && s.sessions[p].lock.id == s.sessions[q].lock.id ==> p == q
  }

  // ---------------------------------------------------------------------------------
  // The side conditions
  // ---------------------------------------------------------------------------------

  /** (a) Whoever holds a lock holds an unexpired lease. */
  ghost predicate LeasesLive(s: State) {
    forall p :: Holds(s, p) ==> !Expired(s.sessions[p].lock, s.now)
  }

  /** The session has read a lock that was expired when read, and has not deleted it yet. */
  predicate Breaking(session: Session) {
    || session.pc.Deleting?
    || (session.pc.Checking? && session.pc.found.Some? && Expired(session.pc.found.value, session.pc.readAt))
  }

  /** (b) No two sessions are breaking the same expired lock at once. */
  ghost predicate OneBreaker(s: State) {
    forall p, q ::
      p in s.sessions && q in s.sessions && p != q && Breaking(s.sessions[p]) && Breaking(s.sessions[q])
      ==> s.sessions[p].lock.id != s.sessions[q].lock.id
  }

  /** (c) A lock read as live does not expire before its expiration date is compared. */
  ghost predicate ChecksPrompt(s: State) {
    forall p ::
      p in s.sessions && s.sessions[p].pc.Checking? && s.sessions[p].pc.found.Some?
      && Expired(s.sessions[p].pc.found.value, s.now)
      ==> Expired(s.sessions[p].pc.found.value, s.sessions[p].pc.readAt)
  }

  ghost predicate Careful(s: State) {
    LeasesLive(s) && OneBreaker(s) && ChecksPrompt(s)
  }

  // ---------------------------------------------------------------------------------
  // Safety
  // ---------------------------------------------------------------------------------

  /** A holder's document is stored, and a lock being broken is stored and has no holder. */
  ghost predicate Inv(s: State) {
    && (forall p :: Holds(s, p) ==>
          var lock := s.sessions[p].lock;
          lock.id in s.docs && s.docs[lock.id] == Document(lock, p))
    && (forall p :: p in s.sessions && Breaking(s.sessions[p]) ==> s.sessions[p].lock.id in s.docs)
    && (forall p, q :: p in s.sessions && Breaking(s.sessions[p]) && Holds(s, q) ==>
          s.sessions[p].lock.id != s.sessions[q].lock.id)
  }

  lemma ActionKeepsInv(s: State, a: Action)
    requires Inv(s) && Careful(s) && Enabled(s, a)
    ensures Inv(Apply(s, a))
  {
  }

  /** At every point of every careful run, at most one session holds each lock id. */
  lemma {:induction false} MutualExclusionOverRuns(run: seq<State>, k: nat)
    requires IsRun(run) && Init(run[0]) && k < |run|
    requires forall i :: 0 <= i < k ==> Careful(run[i])
    ensures Inv(run[k]) && MutualExclusion(run[k])
  {
    if k > 0 {
      MutualExclusionOverRuns(run, k - 1);
      var s := run[k - 1];
      assert StepAt(Step, run, k - 1);
      var a :| Enabled(s, a) && run[k] == Apply(s, a);
      ActionKeepsInv(s, a);
    }
  }
}
