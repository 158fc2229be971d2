/**
  LockingManager and the LockingHelper locks whose lease is at stake, as methods over the
  shared lock collection. Every store operation is one step of LockProtocol, and between two
  of them other sessions and the clock may move.
 */
module LockingManager {
  import opened Prelude
  import opened LockProtocol
  import opened Runs
  import opened Text
  import opened TimedLocks

  // ---------------------------------------------------------------------------------
  // createLock
  // ---------------------------------------------------------------------------------

  function LockText(lower: string -> string, tenantID: string, entity: string, key: string, lockType: string): string {
    tenantID + "~" + entity + "~" + lower(key) + "~" + lockType
  }

  function CreateLock(hash: string -> Digest, lower: string -> string, tenantID: string, entity: string, key: string,
                      lockType: string, lockValiditySecs: Option<int>, now: int): Result<Lock>
  {
    if tenantID == "" then Err("Tenant must be provided")
    else if entity == "" then Err("Entity must be provided")
    else if key == "" then Err("Key must be provided")
    else
      var id := hash(LockText(lower, tenantID, entity, key, lockType));
      Ok(Lock(id, now, if lockValiditySecs.Some? then Lease(now, lockValiditySecs.value) else None))
  }

  ghost predicate Injective(hash: string -> Digest) {
    forall a, b :: hash(a) == hash(b) ==> a == b
  }

  /** Two locks contend exactly when tenant, entity, lower-cased key and type agree; keys may hold '~'. */
  lemma SameLockIffSameFields(hash: string -> Digest, lower: string -> string,
                              t1: string, e1: string, k1: string, y1: string,
                              t2: string, e2: string, k2: string, y2: string,
                              v1: Option<int>, v2: Option<int>, n1: int, n2: int)
    requires Injective(hash)
    requires '~' !in t1 + e1 + y1 && '~' !in t2 + e2 + y2
    requires CreateLock(hash, lower, t1, e1, k1, y1, v1, n1).Ok? && CreateLock(hash, lower, t2, e2, k2, y2, v2, n2).Ok?
    ensures CreateLock(hash, lower, t1, e1, k1, y1, v1, n1).value.id
            == CreateLock(hash, lower, t2, e2, k2, y2, v2, n2).value.id
            <==> t1 == t2 && e1 == e2 && lower(k1) == lower(k2) && y1 == y2
  {
    var a, b := LockText(lower, t1, e1, k1, y1), LockText(lower, t2, e2, k2, y2);
    if a == b {
      assert forall c <- t1 :: c in t1 + e1 + y1;
      assert forall c <- e1 :: c in t1 + e1 + y1;
      assert forall c <- y1 :: c in t1 + e1 + y1;
      assert forall c <- t2 :: c in t2 + e2 + y2;
      assert forall c <- e2 :: c in t2 + e2 + y2;
      assert forall c <- y2 :: c in t2 + e2 + y2;
      var x1, x2 := t1 + "~" + e1 + "~" + lower(k1), t2 + "~" + e2 + "~" + lower(k2);
      assert a == x1 + "~" + y1 && b == x2 + "~" + y2;
      LastField('~', x1, y1, x2, y2);
      assert x1 == t1 + "~" + (e1 + "~" + lower(k1)) && x2 == t2 + "~" + (e2 + "~" + lower(k2));
      FirstField('~', t1, e1 + "~" + lower(k1), t2, e2 + "~" + lower(k2));
      FirstField('~', e1, lower(k1), e2, lower(k2));
    }
  }

  /** A '~' in the tenant lets two different locks share an id, whatever the hash. */
  lemma TildeInTenantConfusesLocks(hash: string -> Digest, lower: string -> string, now: int)
    ensures CreateLock(hash, lower, "a~b", "c", "k", "E", None, now)
            == CreateLock(hash, lower, "a", "b~c", "k", "E", None, now)
  {
    assert "a~b" + "~" + "c" == "a" + "~" + "b~c";
  }

  // ---------------------------------------------------------------------------------
  // acquire
  // ---------------------------------------------------------------------------------

  /** The pc of a session at a point of a run. */
  ghost function PcAt(run: seq<State>, i: nat, me: nat): Option<Pc> {
    if i < |run| && me in run[i].sessions then Some(run[i].sessions[me].pc) else None
  }

  ghost predicate Goes(run: seq<State>, i: nat, me: nat, from: Pc, to: Pc) {
    PcAt(run, i, me) == Some(from) && PcAt(run, i + 1, me) == Some(to)
  }

  /** An insert that did not make the session the holder. */
  ghost predicate RefusedAt(run: seq<State>, i: nat, me: nat, retry: bool) {
    && PcAt(run, i, me).Some? && PcAt(run, i, me).value.Inserting? && PcAt(run, i, me).value.retry == retry
    && PcAt(run, i + 1, me).Some? && !PcAt(run, i + 1, me).value.Holding?
  }

  /** What was read is no expired lock, or deleting that threw. */
  ghost predicate GivesUp(run: seq<State>, i: nat, me: nat) {
    && PcAt(run, i, me).Some? && PcAt(run, i + 1, me) == Some(Finished)
    && var pc := PcAt(run, i, me).value;
       pc.Deleting? || (pc.Checking? && (pc.found.None? || !Expired(pc.found.value, run[i].now)))
  }

  lemma StaysInHistory(run: seq<State>, longer: seq<State>, i: nat, me: nat)
    requires run <= longer
    ensures forall retry :: RefusedAt(run, i, me, retry) ==> RefusedAt(longer, i, me, retry)
    ensures forall from, to :: Goes(run, i, me, from, to) ==> Goes(longer, i, me, from, to)
    ensures GivesUp(run, i, me) ==> GivesUp(longer, i, me)
  {
    assert i < |run| ==> longer[i] == run[i];
    assert i + 1 < |run| ==> longer[i + 1] == run[i + 1];
  }

  /** After it has deleted the expired lock the session makes a second round, and is refused again. */
  ghost predicate TriesAgain(run: seq<State>, from: nat, me: nat) {
    exists i: nat, j: nat ::
      from <= i < j && Goes(run, i, me, Deleting, Starting(false)) && RefusedAt(run, j, me, false)
  }

  datatype Outcome = Acquired | NotAcquired | Threw

  function Max(a: int, b: int): int {
    if a > b then a else b
  }

  lemma OthersLeaveMeAlone(s: State, a: Action, me: nat)
    requires me in s.sessions && Enabled(s, a) && (a.Act? ==> a.who != me)
    ensures me in Apply(s, a).sessions && Apply(s, a).sessions[me] == s.sessions[me]
    ensures s.now <= Apply(s, a).now == s.now + (if a.Tick? then a.millis else 0)
  {
  }

  class LockingManager {
    var st: State
    ghost var history: seq<State>
    const latency: nat  // the longest a store call, a log call or a scheduling gap takes, in ms
    const alone: bool   // no other session moves, and no store call fails
    const hash: string -> Digest
    const lower: string -> string

    ghost predicate Valid()
      reads this
    {
      IsRun(history) && history[|history| - 1] == st
    }

    constructor (st: State, latency: nat, alone: bool, hash: string -> Digest, lower: string -> string)
      ensures Valid() && this.st == st && history == [st] && this.latency == latency && this.alone == alone
      ensures this.hash == hash && this.lower == lower
    {
      this.st, this.history, this.latency, this.alone := st, [st], latency, alone;
      this.hash, this.lower := hash, lower;
    }

    /** One step of the protocol. */
    method Do(a: Action)
      requires Valid() && Enabled(st, a)
      modifies this
      ensures Valid() && st == Apply(old(st), a) && history == old(history) + [st]
    {
      var before := st;
      st := Apply(st, a);
      assert Step(before, st);
      Longer(Step, history, st);
      history := history + [st];
    }

    /** Any steps of other sessions while between `atLeast` and `atMost` ms go by. */
    method Interfere(me: nat, atLeast: nat, atMost: nat)
      requires Valid() && me in st.sessions && atLeast <= atMost
      modifies this
      ensures Valid() && old(history) <= history
      ensures me in st.sessions && st.sessions[me] == old(st.sessions[me])
      ensures old(st.now) + atLeast <= st.now <= old(st.now) + atMost
      ensures alone ==> st.docs == old(st.docs)
    {
      var start := st.now;
      var steps: nat := *;
      while steps > 0
        invariant Valid() && old(history) <= history
        invariant me in st.sessions && st.sessions[me] == old(st.sessions[me])
        invariant start <= st.now <= start + atMost
        invariant alone ==> st.docs == old(st.docs)
      {
        var a: Action := *;
        if Enabled(st, a) && (alone ==> a.Tick?) && (a.Tick? ==> st.now + a.millis <= start + atMost)
           && (a.Act? ==> a.who != me) {
          OthersLeaveMeAlone(st, a, me);
          Do(a);
        }
        steps := steps - 1;
      }
      if st.now < start + atLeast {
        Do(Tick(start + atLeast - st.now));
      }
    }

    /** One insert: the store takes the document, refuses its id, or the call throws anyhow. */
    method InsertLock(me: nat) returns (stored: bool)
      requires Valid() && me in st.sessions && st.sessions[me].pc.Inserting?
      modifies this
      ensures Valid() && history == old(history) + [st] && st.now == old(st.now)
      ensures me in st.sessions && stored == Holds(st, me)
      ensures alone ==>
                stored == Stored(old(st), old(st.sessions[me].lock.id)).None? && (!stored ==> st.docs == old(st.docs))
      ensures var id := old(st.sessions[me].lock.id);
              var inserted := old(st.docs)[id := Document(old(st.sessions[me].lock), me)];
              if stored then id !in old(st.docs) && st.docs == inserted
              else st.docs == old(st.docs) || (id !in old(st.docs) && st.docs == inserted)
      ensures st.sessions[me] ==
              old(st.sessions[me]).(pc := if stored then Holding else AfterRefusal(old(st.sessions[me])))
    {
      var fails, unreported: bool := *, *;
      if !alone && unreported && Stored(st, st.sessions[me].lock.id).None? {
        Do(Act(me, InsertUnreported));
      } else if !alone && fails {
        Do(Act(me, InsertFails));
      } else {
        Do(Act(me, Insert));
      }
      stored := st.sessions[me].pc.Holding?;
    }

    ghost predicate InsertedIn(run: seq<State>, from: nat, me: nat, at: int) {
      exists i :: from <= i < |run| && run[i].now == at && Holds(run[i], me)
                  && Stored(run[i], run[i].sessions[me].lock.id) == Some(Document(run[i].sessions[me].lock, me))
    }

    /** The call and its insert; `at` is where the history was just before the insert. */
    method TryInsert(me: nat) returns (stored: bool, ghost at: nat)
      requires Valid() && me in st.sessions && st.sessions[me].pc.Inserting?
      modifies this
      ensures Valid() && old(history) <= history && old(st.now) <= st.now <= old(st.now) + latency
      ensures me in st.sessions && |old(history)| - 1 <= at
      ensures st.sessions[me] ==
              old(st.sessions[me]).(pc := if stored then Holding else AfterRefusal(old(st.sessions[me])))
      ensures stored ==> InsertedIn(history, |old(history)|, me, st.now)
      ensures !stored ==> RefusedAt(history, at, me, old(st.sessions[me].pc.retry))
      ensures alone ==>
                stored == Stored(old(st), old(st.sessions[me].lock.id)).None? && (!stored ==> st.docs == old(st.docs))
    {
      Interfere(me, 0, latency);
      at := |history| - 1;
      stored := InsertLock(me);
      assert stored ==> Holds(history[|history| - 1], me);
    }

    /** Either the insert went through at `insertedAt`, or the wait is over and the call throws. */
    method AcquireExclusiveLock(me: nat, retry: bool)
      returns (thrown: bool, inserts: nat, insertedAt: int, ghost refused: nat)
      requires Valid() && me in st.sessions && st.sessions[me].pc == Starting(retry)
      modifies this
      ensures Valid() && old(history) <= history && me in st.sessions
      ensures st.sessions[me] == old(st.sessions[me]).(pc := if thrown then Refused(retry) else Holding)
      ensures 1 <= inserts <= Max(1, st.sessions[me].timeoutSecs)
      ensures !thrown ==> InsertedIn(history, |old(history)|, me, insertedAt)
      ensures !thrown ==> insertedAt <= old(st.now) + LastPoll(st.sessions[me].timeoutSecs, latency) + latency
      ensures !thrown ==> st.now == insertedAt
      ensures old(st.now) <= st.now
      ensures thrown ==> old(st.now) + st.sessions[me].timeoutSecs * 1000 <= st.now
      ensures thrown ==> st.now <= old(st.now) + RoundEnd(st.sessions[me].timeoutSecs, latency)
      ensures thrown ==> |old(history)| <= refused && RefusedAt(history, refused, me, retry)
      ensures alone ==> thrown == Stored(old(st), st.sessions[me].lock.id).Some? && (thrown ==> st.docs == old(st.docs))
    {
      var timeoutSecs := st.sessions[me].timeoutSecs;
      Do(Act(me, Start));
      inserts, insertedAt, refused := 0, st.now, 0;
      var stored;
      if timeoutSecs > 0 {
        var timeoutDateMs := st.now + timeoutSecs * 1000;
        var expired := false;
        while !expired
          invariant Valid() && old(history) < history && me in st.sessions
          invariant st.sessions[me] ==
                    old(st.sessions[me]).(pc := if expired then Refused(retry) else Inserting(retry, timeoutDateMs))
          invariant Polled(inserts, st.now - old(st.now), latency)
          invariant inserts <= timeoutSecs && (expired ==> inserts > 0)
          invariant !expired ==> st.now < timeoutDateMs
          invariant expired ==> timeoutDateMs <= st.now <= old(st.now) + RoundEnd(timeoutSecs, latency)
          invariant inserts > 0 ==> |old(history)| <= refused && RefusedAt(history, refused, me, retry)
          invariant alone ==> st.docs == old(st.docs)
          invariant alone && inserts > 0 ==> Stored(st, st.sessions[me].lock.id).Some?
          decreases !expired, timeoutDateMs - st.now
        {
          PollsIn(inserts, st.now - old(st.now), timeoutSecs);
          stored, expired, refused := InsertOrSleep(me);
          inserts := inserts + 1;
          if stored {
            insertedAt := st.now;
            return false, inserts, insertedAt, refused;
          }
        }
        thrown := true;
      } else {
        stored, refused := TryInsert(me);
        inserts, insertedAt, thrown := 1, st.now, !stored;
      }
    }

    /** One turn of the loop; `at` is where the history was just before the insert. */
    method InsertOrSleep(me: nat) returns (stored: bool, expired: bool, ghost at: nat)
      requires Valid() && me in st.sessions && st.sessions[me].pc.Inserting? && st.sessions[me].timeoutSecs > 0
      modifies this
      ensures Valid() && old(history) <= history && me in st.sessions && |old(history)| - 1 <= at
      ensures var pc := old(st.sessions[me].pc);
              && (expired == (!stored && st.now >= pc.until))
              && st.sessions[me] ==
                   old(st.sessions[me]).(pc := if stored then Holding else if expired then Refused(pc.retry) else pc)
      ensures stored ==> InsertedIn(history, |old(history)|, me, st.now)
      ensures stored ==> old(st.now) <= st.now <= old(st.now) + latency
      ensures !stored ==> RefusedAt(history, at, me, old(st.sessions[me].pc.retry))
      ensures !stored ==> old(st.now) + LOCK_WAIT_MILLIS <= st.now <= old(st.now) + LOCK_WAIT_MILLIS + 2 * latency
      ensures alone ==>
                stored == Stored(old(st), old(st.sessions[me].lock.id)).None? && (!stored ==> st.docs == old(st.docs))
    {
      expired := false;
      stored, at := TryInsert(me);
      if !stored {
        ghost var before := history;
        expired := Sleep(me);
        StaysInHistory(before, history, at, me);
      }
    }

    /** The wait after a refused insert, and whether the time is over then. */
    method Sleep(me: nat) returns (expired: bool)
      requires Valid() && me in st.sessions && st.sessions[me].pc.Sleeping?
      modifies this
      ensures Valid() && old(history) <= history && me in st.sessions
      ensures old(st.now) + LOCK_WAIT_MILLIS <= st.now <= old(st.now) + LOCK_WAIT_MILLIS + latency
      ensures expired == (st.now >= old(st.sessions[me].pc.until))
      ensures st.sessions[me] ==
              old(st.sessions[me]).(pc := if expired then Refused(old(st.sessions[me].pc.retry))
                                          else Inserting(old(st.sessions[me].pc.retry), old(st.sessions[me].pc.until)))
      ensures alone ==> st.docs == old(st.docs)
    {
      Interfere(me, LOCK_WAIT_MILLIS, LOCK_WAIT_MILLIS + latency);
      expired := !(st.now < st.sessions[me].pc.until);
      Do(Act(me, Wake));
      assert alone ==> st.docs == old(st.docs);
    }

    lemma PollsIn(inserts: nat, w: int, timeoutSecs: int)
      requires Polled(inserts, w, latency) && (w == 0 || w < timeoutSecs * 1000)
      ensures 0 <= w <= LastPoll(timeoutSecs, latency)
    {
      assert Polls(w, timeoutSecs, latency);
      PollsEarly(w, timeoutSecs, latency);
    }

    /** True when an expired lock was found and its deletion went ahead, even if it found nothing. */
    method CheckAndReleaseExpiredLock(me: nat) returns (released: bool, threw: bool, ghost at: nat)
      requires Valid() && me in st.sessions && st.sessions[me].pc == Refused(true)
      modifies this
      ensures Valid() && old(history) <= history && me in st.sessions
      ensures st.sessions[me] == old(st.sessions[me]).(pc := if released then Starting(false) else Finished)
      ensures old(st.now) <= st.now <= old(st.now) + 4 * latency
      ensures threw ==> !released
      ensures !threw ==> |old(history)| <= at < |history|
      ensures released ==> Goes(history, at, me, Deleting, Starting(false))
      ensures !released && !threw ==> GivesUp(history, at, me)
      ensures alone ==>
                var doc := Stored(old(st), st.sessions[me].lock.id);
                && !threw
                && (released ==>
                      doc.Some? && Expired(doc.value.lock, st.now) && Stored(st, st.sessions[me].lock.id).None?)
                && (doc.Some? && Expired(doc.value.lock, old(st.now)) ==> released)
    {
      released, threw, at := false, false, 0;
      Interfere(me, 0, latency);
      var readFails: bool := *;
      if !alone && readFails {
        Do(Act(me, Crash));
        threw := true;
        return;
      }
      Do(Act(me, Read));
      Interfere(me, 0, latency);
      at := |history| - 1;
      Do(Act(me, Check));
      if st.sessions[me].pc.Deleting? {
        released, at := DeleteExpiredLock(me);
      }
    }

    method DeleteExpiredLock(me: nat) returns (released: bool, ghost at: nat)
      requires Valid() && me in st.sessions && st.sessions[me].pc.Deleting?
      modifies this
      ensures Valid() && old(history) <= history && me in st.sessions && |old(history)| - 1 <= at < |history|
      ensures st.sessions[me] == old(st.sessions[me]).(pc := if released then Starting(false) else Finished)
      ensures old(st.now) <= st.now <= old(st.now) + 2 * latency
      ensures if released then Goes(history, at, me, Deleting, Starting(false)) else GivesUp(history, at, me)
      ensures alone ==> released && Stored(st, st.sessions[me].lock.id).None?
    {
      Interfere(me, 0, latency);
      at := |history| - 1;
      var deleteFails: bool := *;
      if !alone && deleteFails {
        Do(Act(me, Crash));
        released := false;
      } else {
        Do(Act(me, Delete));
        ghost var before := history;
        Interfere(me, 0, latency);
        StaysInHistory(before, history, at, me);
        released := true;
      }
    }

    /**
      At most two rounds of at most max(1, timeout) inserts, and at most two waits before the
      document goes in. When it does, this session's document is the stored one.
     */
    method Acquire(me: nat, retry: bool) returns (outcome: Outcome, inserts: nat, insertedAt: int)
      requires Valid() && me in st.sessions && st.sessions[me].pc == Starting(retry)
      modifies this
      ensures Valid() && old(history) <= history && me in st.sessions
      ensures st.sessions[me].lock == old(st.sessions[me].lock)
      ensures outcome.Acquired? <==> Holds(st, me)
      ensures inserts <= (if retry then 2 else 1) * Max(1, old(st.sessions[me].timeoutSecs))
      ensures outcome.Acquired? ==> InsertedIn(history, |old(history)|, me, insertedAt)
      ensures outcome.Acquired? ==>
                var timeoutSecs := old(st.sessions[me].timeoutSecs);
                insertedAt - old(st.now) <= LastPoll(timeoutSecs, latency) + latency
                                            + if retry then RoundEnd(timeoutSecs, latency) + 4 * latency else 0
      ensures !outcome.Acquired? ==> st.sessions[me].pc == Refused(false) || (retry && st.sessions[me].pc == Finished)
      ensures !retry ==> !outcome.Threw? && !st.sessions[me].pc.Finished?
      ensures !retry && outcome.NotAcquired? ==>
                exists i: nat :: |old(history)| <= i && RefusedAt(history, i, me, false)
      ensures retry && outcome.NotAcquired? ==>
                if st.sessions[me].pc.Finished? then exists i: nat :: |old(history)| <= i && GivesUp(history, i, me)
                else TriesAgain(history, |old(history)|, me)
      ensures alone ==>
                var doc := Stored(old(st), st.sessions[me].lock.id);
                && (doc.None? ==> outcome.Acquired?)
                && (doc.Some? && !outcome.Acquired? ==> !retry || !Expired(doc.value.lock, old(st.now)))
                && (doc.Some? && outcome.Acquired? ==>
                      retry && doc.value.lock.expiration.Some?
                      && doc.value.lock.expiration.value
                         < old(st.now) + RoundEnd(old(st.sessions[me].timeoutSecs), latency) + 4 * latency)
      decreases retry
    {
      var thrown: bool;
      ghost var refused: nat;
      thrown, inserts, insertedAt, refused := AcquireExclusiveLock(me, retry);
      if !thrown {
        return Acquired, inserts, insertedAt;
      }
      if retry {
        var released, threw;
        ghost var at: nat;
        released, threw, at := CheckAndReleaseExpiredLock(me);
        if threw {
          return Threw, inserts, insertedAt;
        }
        if released {
          ghost var before := history;
          var more: nat;
          outcome, more, insertedAt := Acquire(me, false);
          StaysInHistory(before, history, at, me);
          return outcome, inserts + more, insertedAt;
        }
      }
      outcome := NotAcquired;
    }

    /**
      `createExclusiveLock` followed by `acquire`; `leaseLeft` is what remains when the insert
      goes in. Without a tenant, an entity or a key nothing is done.
     */
    method AcquireNewLock(me: nat, tenantID: string, entity: string, key: string, lockValiditySecs: int,
                          timeoutSecs: int) returns (outcome: Outcome, leaseLeft: int)
      requires Valid() && me !in st.sessions
      modifies this
      ensures Valid() && old(history) <= history
      ensures tenantID == "" || entity == "" || key == "" ==> outcome.Threw? && history == old(history)
      ensures tenantID != "" && entity != "" && key != "" ==>
                && me in st.sessions && (outcome.Acquired? <==> Holds(st, me))
                && st.sessions[me].lock ==
                     Lock(hash(tenantID + "~" + entity + "~" + lower(key) + "~E"), old(st.now),
                          if lockValiditySecs > 0 then Some(old(st.now) + lockValiditySecs * 1000) else None)
      ensures outcome.Acquired? ==>
                && InsertedIn(history, |old(history)|, me, old(st.now) + lockValiditySecs * 1000 - leaseLeft)
                && leaseLeft >= lockValiditySecs * 1000 - LatestInsert(timeoutSecs, latency)
    {
      var created := st.now;
      var lock := CreateLock(hash, lower, tenantID, entity, key, "E", Some(lockValiditySecs), created);
      if lock.Err? {
        return Threw, 0;
      }
      assert LockText(lower, tenantID, entity, key, "E") == tenantID + "~" + entity + "~" + lower(key) + "~E";
      Do(Begin(me, lock.value, timeoutSecs));
      Interfere(me, 0, latency);
      var inserts, insertedAt;
      outcome, inserts, insertedAt := Acquire(me, true);
      leaseLeft := created + lockValiditySecs * 1000 - insertedAt;
    }

    /** 3 minutes of lease against 5 s of wait. */
    method AcquireSiteAreaSmartChargingLock(me: nat, tenantID: string, siteAreaID: string)
      returns (outcome: Outcome, leaseLeft: int)
      requires Valid() && me !in st.sessions
      modifies this
      ensures Valid() && (tenantID == "" ==> outcome.Threw?)
      ensures tenantID != "" ==>
                && me in st.sessions && (outcome.Acquired? <==> Holds(st, me))
                && st.sessions[me].lock ==
                     Lock(hash(tenantID + "~site-area~" + lower(siteAreaID + "-smart-charging") + "~E"), old(st.now),
                          Some(old(st.now) + 180_000))
      ensures outcome.Acquired? && latency <= 21_000 ==> leaseLeft >= 1_000
      ensures outcome.Acquired? && latency <= 21_125 ==> leaseLeft >= 0
    {
      LatestInsertIs(5, latency);
      outcome, leaseLeft := AcquireNewLock(me, tenantID, "site-area", siteAreaID + "-smart-charging", 3 * 60, 5);
      assert tenantID + "~" + "site-area" + "~" == tenantID + "~site-area~";
    }

    /** 10 minutes of lease against 60 s of wait. */
    method AcquireBillUserLock(me: nat, tenantID: string, userID: string) returns (outcome: Outcome, leaseLeft: int)
      requires Valid() && me !in st.sessions
      modifies this
      ensures Valid() && (tenantID == "" ==> outcome.Threw?)
      ensures tenantID != "" ==>
                && me in st.sessions && (outcome.Acquired? <==> Holds(st, me))
                && st.sessions[me].lock ==
                     Lock(hash(tenantID + "~user~" + lower("bill-user-" + userID) + "~E"), old(st.now),
                          Some(old(st.now) + 600_000))
      ensures outcome.Acquired? && latency <= 50_000 ==> leaseLeft >= 79_000
      ensures outcome.Acquired? && latency <= 59_875 ==> leaseLeft >= 0
    {
      LatestInsertIs(60, latency);
      outcome, leaseLeft := AcquireNewLock(me, tenantID, "user", "bill-user-" + userID, 600, 60);
      assert tenantID + "~" + "user" + "~" == tenantID + "~user~";
    }

    /** Deletes by id; false when nothing was stored any more. */
    method ReleaseLock(me: nat) returns (existed: bool)
      requires Valid() && Holds(st, me)
      modifies this
      ensures Valid() && history == old(history) + [st]
      ensures var id := old(st.sessions[me].lock.id);
              && existed == (id in old(st.docs)) && st.docs == old(st.docs) - {id} && st.now == old(st.now)
              && st.sessions == old(st.sessions)[me := old(st.sessions[me]).(pc := Finished)]
    {
      existed := Stored(st, st.sessions[me].lock.id).Some?;
      Do(Act(me, Release));
    }
  }

  /** Once `Acquire` has returned true in a careful run, no other session holds that lock. */
  lemma AcquiredAlone(history: seq<State>, me: nat, other: nat)
    requires IsRun(history) && Init(history[0])
    requires forall s <- history :: Careful(s)
    requires Holds(history[|history| - 1], me) && Holds(history[|history| - 1], other) && me != other
    ensures history[|history| - 1].sessions[me].lock.id != history[|history| - 1].sessions[other].lock.id
  {
    MutualExclusionOverRuns(history, |history| - 1);
  }
}
