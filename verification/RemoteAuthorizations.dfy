/**
  Where a roaming transaction gets its authorization ID from: the OCPP authorizations of the
  badge, and the remote authorizations kept in the charging station.
 */
module RemoteAuthorizations {
  import opened Prelude

  const ROAMING_AUTHORIZATION_TIMEOUT_MINS := 2

  /** Instants are in milliseconds. */
  datatype RemoteAuthorization = RemoteAuthorization(id: string, tagId: Option<string>, timestamp: Option<int>)

  type Entry = Option<RemoteAuthorization>

  predicate IsAuthorizationValid(timestamp: Option<int>, now: int) {
    timestamp.Some? && timestamp.value > now - ROAMING_AUTHORIZATION_TIMEOUT_MINS * 60 * 1000
  }

  /** There is an entry, with a timestamp less than `millis` before `now`. */
  predicate Within(entry: Entry, now: int, millis: int) {
    entry.Some? && entry.value.timestamp.Some? && now - entry.value.timestamp.value < millis
  }

  /** Each entry is checked at its own time: the clock runs while the loop does. */
  predicate IsValid(entries: seq<Entry>, now: nat -> int, i: nat)
    requires i < |entries|
  {
    entries[i].Some? && IsAuthorizationValid(entries[i].value.timestamp, now(i))
  }

  predicate IsMatch(entries: seq<Entry>, now: nat -> int, uid: Option<string>, i: nat)
    requires i < |entries|
  {
    IsValid(entries, now, i) && entries[i].value.tagId == uid
  }

  /** The valid entries from index `from` on, in order. */
  function ValidFrom(entries: seq<Entry>, now: nat -> int, from: nat): seq<Entry>
    requires from <= |entries|
    decreases |entries| - from
  {
    if from == |entries| then []
    else (if IsValid(entries, now, from) then [entries[from]] else []) + ValidFrom(entries, now, from + 1)
  }

  /** The entry the search settles on, the last valid one for the badge. */
  predicate Settles(entries: seq<Entry>, now: nat -> int, uid: Option<string>, k: int) {
    && -1 <= k < |entries|
    && (k >= 0 ==> IsMatch(entries, now, uid, k))
    && forall i: nat :: k < i < |entries| ==> !IsMatch(entries, now, uid, i)
  }

  /** The last entry of the badge that is less than two minutes old, each age taken when the entry is looked at. */
  predicate LastWithin(entries: seq<Entry>, now: nat -> int, uid: Option<string>, k: int) {
    && -1 <= k < |entries|
    && (k >= 0 ==> Within(entries[k], now(k), 120_000) && entries[k].value.tagId == uid)
    && forall i: nat :: k < i < |entries| && Within(entries[i], now(i), 120_000) ==> entries[i].value.tagId != uid
  }

  lemma SettlesIffLast(entries: seq<Entry>, now: nat -> int, uid: Option<string>)
    ensures forall k :: Settles(entries, now, uid, k) <==> LastWithin(entries, now, uid, k)
  {
    forall i: nat | i < |entries|
      ensures IsValid(entries, now, i) <==> Within(entries[i], now(i), 120_000)
    {
    }
    forall k
      ensures Settles(entries, now, uid, k) <==> LastWithin(entries, now, uid, k)
    {
      if Settles(entries, now, uid, k) {
        assert k >= 0 ==> IsMatch(entries, now, uid, k);
        forall i: nat | k < i < |entries| && Within(entries[i], now(i), 120_000)
          ensures entries[i].value.tagId != uid
        {
          assert !IsMatch(entries, now, uid, i);
        }
      }
      if LastWithin(entries, now, uid, k) {
        forall i: nat | k < i < |entries|
          ensures !IsMatch(entries, now, uid, i)
        {
          assert IsValid(entries, now, i) <==> Within(entries[i], now(i), 120_000);
        }
      }
    }
  }

  lemma SettlesOnOne(entries: seq<Entry>, now: nat -> int, uid: Option<string>, k: int, l: int)
    requires Settles(entries, now, uid, k) && Settles(entries, now, uid, l)
    ensures k == l
  {
    assert k >= 0 ==> IsMatch(entries, now, uid, k);
    assert l >= 0 ==> IsMatch(entries, now, uid, l);
  }

  lemma {:induction false} FullLengthIffAllValid(entries: seq<Entry>, now: nat -> int, from: nat)
    requires from <= |entries|
    ensures |ValidFrom(entries, now, from)| <= |entries| - from
    ensures |ValidFrom(entries, now, from)| == |entries| - from <==>
              forall i: nat :: from <= i < |entries| ==> IsValid(entries, now, i)
    decreases |entries| - from
  {
    if from < |entries| {
      FullLengthIffAllValid(entries, now, from + 1);
    }
  }

  lemma {:induction false} KeptAreValid(entries: seq<Entry>, now: nat -> int, uid: Option<string>, from: nat)
    requires from <= |entries|
    requires forall i: nat :: from <= i < |entries| ==> !IsMatch(entries, now, uid, i)
    ensures forall e <- ValidFrom(entries, now, from) :: e.Some? && e.value.tagId != uid
    decreases |entries| - from
  {
    if from < |entries| {
      KeptAreValid(entries, now, uid, from + 1);
      assert !IsMatch(entries, now, uid, from);
    }
  }

  /**
    Finding a remote authorization does not consume it: until it expires, later calls for the
    same badge settle on it again, whatever has expired in between.
   */
  lemma NotConsumed(entries: seq<Entry>, now: nat -> int, later: nat -> int, uid: Option<string>, k: nat)
    requires Settles(entries, now, uid, k)
    ensures var left := entries[..k + 1] + ValidFrom(entries, now, k + 1);
            Settles(left, later, uid, k) <==> IsAuthorizationValid(entries[k].value.timestamp, later(k))
  {
    var rest := ValidFrom(entries, now, k + 1);
    var left := entries[..k + 1] + rest;
    assert left[k] == entries[k] && IsMatch(entries, now, uid, k);
    KeptAreValid(entries, now, uid, k + 1);
    forall i: nat | k < i < |left|
      ensures !IsMatch(left, later, uid, i)
    {
      assert left[i] == rest[i - (k + 1)] && left[i] in rest;
    }
    assert IsMatch(left, later, uid, k) == IsAuthorizationValid(entries[k].value.timestamp, later(k));
  }

  /** `tag.ocpiToken`, and its `uid` if it has one. */
  datatype Token = NoToken | Token(uid: Option<string>)

  function UidOf(token: Token): Option<string> {
    match token
    case NoToken => None
    case Token(uid) => uid
  }

  class ChargingStation {
    var remoteAuthorizations: seq<Entry>
    var stored: seq<Entry>  // the copy in the database

    /**
      The backward loop that removes expired entries on its way. A match without a token makes
      the log message throw, after the removals and before the save.
     */
    method CheckIOPRemoteStartTransaction(token: Token, now: nat -> int)
      returns (r: Result<Option<string>>, ghost k: int)
      modifies this
      ensures Settles(old(remoteAuthorizations), now, UidOf(token), k)
      ensures LastWithin(old(remoteAuthorizations), now, if token.Token? then token.uid else None, k)
      ensures remoteAuthorizations ==
                old(remoteAuthorizations)[..k + 1] + ValidFrom(old(remoteAuthorizations), now, k + 1)
      ensures r.Err? <==> k >= 0 && token.NoToken?
      ensures r.Err? ==> r.message == "Cannot read properties of undefined (reading 'uid')"
      ensures r.Ok? ==> r.value == if k >= 0 then Some(old(remoteAuthorizations)[k].value.id) else None
      ensures stored ==
                if r.Ok? && |remoteAuthorizations| < |old(remoteAuthorizations)| then remoteAuthorizations
                else old(stored)
    {
      var authorizationID: Option<string> := None;
      var remoteAuthorizationsUpdated := false;
      ghost var entries := remoteAuthorizations;
      k := -1;
      SettlesIffLast(entries, now, UidOf(token));
      var i := |remoteAuthorizations|;
      while i > 0
        invariant 0 <= i <= |entries| && k == -1 && authorizationID == None
        invariant remoteAuthorizations == entries[..i] + ValidFrom(entries, now, i)
        invariant remoteAuthorizationsUpdated <==> |remoteAuthorizations| < |entries|
        invariant |remoteAuthorizations| <= |entries|
        invariant forall j: nat :: i <= j < |entries| ==> !IsMatch(entries, now, UidOf(token), j)
        invariant stored == old(stored)
      {
        i := i - 1;
        var remoteAuthorization := remoteAuthorizations[i];
        assert remoteAuthorization == entries[i];
        assert entries[..i + 1] == entries[..i] + [entries[i]];
        if remoteAuthorization.Some? && IsAuthorizationValid(remoteAuthorization.value.timestamp, now(i)) {
          if remoteAuthorization.value.tagId == UidOf(token) {
            k := i;
            if token.NoToken? {
              return Err("Cannot read properties of undefined (reading 'uid')"), k;
            }
            authorizationID := Some(remoteAuthorization.value.id);
            break;
          }
        } else {
          remoteAuthorizations := remoteAuthorizations[..i] + remoteAuthorizations[i + 1..];
          remoteAuthorizationsUpdated := true;
        }
      }
      if remoteAuthorizationsUpdated {
        stored := remoteAuthorizations;
      }
      r := Ok(authorizationID);
    }
  }

  predicate Usable(authorizationId: Option<string>, used: set<string>) {
    authorizationId.Some? && authorizationId.value != "" && authorizationId.value !in used
  }

  /** The first authorization ID of the recent OCPP Authorize requests that no transaction uses yet. */
  method CheckOCPPAuthorize(authorizations: seq<Option<string>>, used: set<string>) returns (r: Option<string>)
    ensures r.None? ==> forall a <- authorizations :: !Usable(a, used)
    ensures r.Some? ==>
              Usable(r, used)
              && exists i ::
                   0 <= i < |authorizations| && authorizations[i] == r
                   && forall a <- authorizations[..i] :: !Usable(a, used)
  {
    for i := 0 to |authorizations|
      invariant forall a <- authorizations[..i] :: !Usable(a, used)
    {
      assert authorizations[..i + 1] == authorizations[..i] + [authorizations[i]];
      var authorization := authorizations[i];
      if authorization.Some? && authorization.value != "" {
        if authorization.value !in used {
          return authorization;
        }
      }
    }
    assert authorizations[..|authorizations|] == authorizations;
    r := None;
  }
}
