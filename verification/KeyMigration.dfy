/**
  Changing the crypto key: settings are re-encrypted one by one, each with a backup that marks
  it as done, then the backups are dropped. The process may stop after any save.
 */
module KeyMigration {
  import opened Prelude
  import opened Json
  import opened CipherText
  import opened SensitiveData

  /** A stored setting. No backup and an empty one both mean "not migrated yet". */
  datatype Setting = Setting(content: Json, sensitiveData: Option<seq<Path>>, backup: Option<map<Path, string>>)

  predicate HasSensitiveData(s: Setting) {
    s.sensitiveData.Some? && s.sensitiveData.value != []
  }

  /** The listed properties of a setting, none if it has no list. */
  function Listed(s: Setting): seq<Path> {
    if s.sensitiveData.Some? then s.sensitiveData.value else []
  }

  predicate IsEmptyBackup(s: Setting) {
    s.backup.None? || s.backup.value == map[]
  }

  /** The crypto library, its random source, and the keys before and after the change. */
  datatype Crypto = Crypto(cipher: Cipher, random: nat -> seq<Byte>, setting: CryptoSetting)

  function Encoder(c: Crypto, useFormerKey: bool): Coder {
    (s, n: nat) => Encrypt(c.cipher, s, useFormerKey, c.setting, c.random, n)
  }

  function Decoder(c: Crypto, useFormerKey: bool): string -> Result<string> {
    s => Decrypt(c.cipher, s, useFormerKey, c.setting)
  }

  lemma EncoderHasInverse(c: Crypto, useFormerKey: bool)
    requires Lawful(c.cipher)
    ensures Inverse(Encoder(c, useFormerKey), Decoder(c, useFormerKey))
  {
    forall s, n | s != "" && Encoder(c, useFormerKey)(s, n).Ok?
      ensures Encoder(c, useFormerKey)(s, n).value != ""
      ensures Decoder(c, useFormerKey)(Encoder(c, useFormerKey)(s, n).value) == Ok(s)
    {
      DecryptInvertsEncrypt(c.cipher, s, useFormerKey, c.setting, c.random, n);
    }
  }

  /** Encrypting the listed properties and decrypting them with the same key gives the document back. */
  lemma SensitiveDataRoundTrip(c: Crypto, j: Json, paths: seq<Path>, useFormerKey: bool, n: nat)
    requires Lawful(c.cipher) && Walk(j, paths, Encoder(c, useFormerKey), n).Ok?
    ensures Plain(c, Walk(j, paths, Encoder(c, useFormerKey), n).value.json, paths, useFormerKey) == Ok(j)
  {
    EncoderHasInverse(c, useFormerKey);
    DecodeInvertsEncode(j, paths, Encoder(c, useFormerKey), Decoder(c, useFormerKey), n, 0);
  }

  /** What a document reads as once its listed properties are decrypted. */
  function Plain(c: Crypto, j: Json, paths: seq<Path>, useFormerKey: bool): Result<Json> {
    match Walk(j, paths, Decoding(Decoder(c, useFormerKey)), 0)
    case Err(e) => Err(e)
    case Ok(w) => Ok(w.json)
  }

  /** The non-empty strings among the listed properties. */
  function PrepareBackup(j: Json, paths: seq<Path>): map<Path, string> {
    map p | p in paths && IsText(j, p) && TextAt(j, p) != "" :: TextAt(j, p)
  }

  /** Where nothing is to be backed up, coding changes nothing, whatever the key. */
  lemma {:induction false} NothingToCode(j: Json, paths: seq<Path>, code: Coder, n: nat)
    requires (forall p <- paths :: !Blocked(j, p)) && PrepareBackup(j, paths) == map[]
    ensures Walk(j, paths, code, n) == Ok(Walked(j, n))
    decreases |paths|
  {
    if paths != [] {
      assert paths[0] in PrepareBackup(j, paths) <==> IsText(j, paths[0]) && TextAt(j, paths[0]) != "";
      assert forall p <- PrepareBackup(j, paths[1..]) :: p in PrepareBackup(j, paths);
      assert PrepareBackup(j, paths[1..]) == map[];
      NothingToCode(j, paths[1..], code, n);
    }
  }

  // ---------------------------------------------------------------------------------
  // The invariant of the migration
  // ---------------------------------------------------------------------------------

  /** Apart from the non-empty listed strings the content is the original one. */
  ghost predicate SameOutside(j: Json, original: Json, paths: seq<Path>) {
    && SameShape(original, j)
    && (forall q :: IsText(original, q) && (q !in paths || TextAt(original, q) == "") ==>
          IsText(j, q) && TextAt(j, q) == TextAt(original, q))
  }

  /**
    Before its migration a setting is the original one, readable with the former key. After it,
    the new key reads the same plaintext and the backup holds the original ciphertexts.
   */
  ghost predicate Recoverable(c: Crypto, s: Setting, original: Json) {
    var paths := Listed(s);
    if paths == [] then s.content == original
    else
      && Plain(c, original, paths, true).Ok?
      && SameOutside(s.content, original, paths)
      && (IsEmptyBackup(s) ==> s.content == original)
      && (!IsEmptyBackup(s) ==>
            && Plain(c, s.content, paths, false) == Plain(c, original, paths, true)
            && s.backup == Some(PrepareBackup(original, paths)))
  }

  /** The setting is under the new key. */
  ghost predicate Converted(c: Crypto, s: Setting, original: Json) {
    Plain(c, s.content, Listed(s), false) == Plain(c, original, Listed(s), true)
  }

  /** Re-encrypting an original setting makes it recoverable from its backup, and converted. */
  lemma MigratedIsRecoverable(c: Crypto, s: Setting, original: Json, n: nat)
    requires Lawful(c.cipher)
    requires HasSensitiveData(s) && IsEmptyBackup(s) && Recoverable(c, s, original)
    requires var paths := s.sensitiveData.value;
             Walk(Plain(c, original, paths, true).value, paths, Encoder(c, false), n).Ok?
    ensures var paths := s.sensitiveData.value;
            var content := Walk(Plain(c, original, paths, true).value, paths, Encoder(c, false), n).value.json;
            var migrated := Setting(content, s.sensitiveData, Some(PrepareBackup(original, paths)));
            Recoverable(c, migrated, original) && Converted(c, migrated, original)
  {
    var paths := s.sensitiveData.value;
    var plain := Plain(c, original, paths, true).value;
    var content := Walk(plain, paths, Encoder(c, false), n).value.json;
    EncoderHasInverse(c, false);
    DecodeInvertsEncode(plain, paths, Encoder(c, false), Decoder(c, false), n, 0);
    WalkChangesOnlyListed(original, paths, Decoding(Decoder(c, true)), 0);
    WalkChangesOnlyListed(plain, paths, Encoder(c, false), n);
    SameShapeTransitive(original, plain, content);
    assert forall q :: IsText(original, q) ==> IsText(plain, q);
    if PrepareBackup(original, paths) == map[] {
      WalkMeetsNoArray(original, paths, Decoding(Decoder(c, true)), 0);
      NothingToCode(original, paths, Decoding(Decoder(c, true)), 0);
      NothingToCode(original, paths, Encoder(c, false), n);
    }
  }

  function Restore(j: Json, paths: seq<Path>, backup: map<Path, string>): Json
    decreases |paths|
  {
    if paths == [] then j
    else
      Restore(if IsText(j, paths[0]) && paths[0] in backup then Set(j, paths[0], Str(backup[paths[0]])) else j,
              paths[1..], backup)
  }

  lemma {:induction false} RestoreTexts(j: Json, paths: seq<Path>, backup: map<Path, string>)
    ensures var r := Restore(j, paths, backup);
            && SameShape(j, r)
            && (forall q :: IsText(j, q) ==>
                  IsText(r, q) && TextAt(r, q) == if q in paths && q in backup then backup[q] else TextAt(j, q))
    decreases |paths|
  {
    var r := Restore(j, paths, backup);
    if paths == [] {
      SameShapeReflexive(j);
    } else {
      var p := paths[0];
      if IsText(j, p) && p in backup {
        var k := Set(j, p, Str(backup[p]));
        WalkStep(j, p, backup[p]);
        RestoreTexts(k, paths[1..], backup);
        SameShapeTransitive(j, k, r);
        forall q | IsText(j, q)
          ensures IsText(r, q) && TextAt(r, q) == if q in paths && q in backup then backup[q] else TextAt(j, q)
        {
          assert IsText(k, q);
        }
      } else {
        RestoreTexts(j, paths[1..], backup);
      }
    }
  }

  /** The backup of a migrated setting gives the original content back exactly. */
  lemma BackupRestoresOriginal(c: Crypto, s: Setting, original: Json)
    requires Recoverable(c, s, original) && HasSensitiveData(s) && !IsEmptyBackup(s)
    ensures Restore(s.content, s.sensitiveData.value, s.backup.value) == original
  {
    var paths := s.sensitiveData.value;
    var r := Restore(s.content, paths, s.backup.value);
    RestoreTexts(s.content, paths, s.backup.value);
    SameShapeTransitive(original, s.content, r);
    forall q | Get(original, q).Some? && Get(original, q).value.Str?
      ensures Get(r, q) == Get(original, q)
    {
      assert IsText(original, q);
      SameShapeAt(original, s.content, q);
      assert IsText(s.content, q);
    }
    SameStringsSameTree(original, r);
  }

  /** Not migrated, and the former key reads whatever its list names. */
  ghost predicate FreshAndReadable(c: Crypto, s: Setting) {
    && s.backup == None
    && Plain(c, s.content, if s.sensitiveData.Some? then s.sensitiveData.value else [], true).Ok?
  }

  /** The settings with sensitive data, each once. */
  ghost predicate Listing(order: seq<string>, store: map<string, Setting>) {
    && (forall id <- order :: id in store && HasSensitiveData(store[id]))
    && (forall id <- store :: HasSensitiveData(store[id]) ==> id in order)
    && (forall a, b :: 0 <= a < b < |order| ==> order[a] != order[b])
  }

  ghost predicate EachRecoverable(c: Crypto, store: map<string, Setting>, originals: map<string, Json>) {
    store.Keys <= originals.Keys && forall id <- store :: Recoverable(c, store[id], originals[id])
  }

  /** `content` is what re-encrypting the setting gives, with the n-th draw of the random source on. */
  ghost predicate Reencrypted(c: Crypto, before: Setting, content: Json, n: nat)
    requires HasSensitiveData(before) && Plain(c, before.content, before.sensitiveData.value, true).Ok?
  {
    var paths := before.sensitiveData.value;
    var walked := Walk(Plain(c, before.content, paths, true).value, paths, Encoder(c, false), n);
    walked.Ok? && walked.value.json == content
  }

  /** What a run of `migrateSettings` makes of a setting; backups aside. */
  ghost predicate MigratedFrom(c: Crypto, before: Setting, after: Setting) {
    if !HasSensitiveData(before) then after == before
    else
      && after.sensitiveData == before.sensitiveData
      && (IsEmptyBackup(before) ==>
            && Plain(c, before.content, before.sensitiveData.value, true).Ok?
            && exists n :: Reencrypted(c, before, after.content, n))
      && (!IsEmptyBackup(before) ==> after.content == before.content)
  }

  /**
    The new key reads in it what the former one read before, whatever its list names. Only a
    setting that had a backup is as it was.
   */
  ghost predicate UnderNewKey(c: Crypto, before: Setting, after: Setting) {
    var paths := if before.sensitiveData.Some? then before.sensitiveData.value else [];
    && after.sensitiveData == before.sensitiveData
    && if paths == [] || before.backup == None || before.backup == Some(map[])
       then Plain(c, after.content, paths, false) == Plain(c, before.content, paths, true)
       else after.content == before.content
  }

  predicate BackupGone(s: Setting) {
    s.sensitiveData.Some? && |s.sensitiveData.value| > 0 ==> s.backup == None
  }

  ghost predicate CleanedFrom(before: Setting, after: Setting) {
    after == before || (HasSensitiveData(after) && after == before.(backup := None))
  }

  lemma AllCleaned(c: Crypto, before: map<string, Setting>, migrated: map<string, Setting>, after: map<string, Setting>)
    requires Lawful(c.cipher) && migrated.Keys == before.Keys && after.Keys == before.Keys
    requires forall id <- migrated :: MigratedFrom(c, before[id], migrated[id])
    requires forall id <- after :: CleanedFrom(migrated[id], after[id])
    ensures forall id <- after :: MigratedFrom(c, before[id], after[id])
    ensures forall id <- after :: UnderNewKey(c, before[id], after[id])
  {
    forall id | id in after
      ensures MigratedFrom(c, before[id], after[id])
    {
      assert MigratedFrom(c, before[id], migrated[id]) && CleanedFrom(migrated[id], after[id]);
    }
    AllUnderNewKey(c, before, after);
  }

  lemma AllUnderNewKey(c: Crypto, before: map<string, Setting>, after: map<string, Setting>)
    requires Lawful(c.cipher) && after.Keys == before.Keys
    requires forall id <- after :: MigratedFrom(c, before[id], after[id])
    ensures forall id <- after :: UnderNewKey(c, before[id], after[id])
  {
    forall id | id in after && HasSensitiveData(before[id]) && IsEmptyBackup(before[id])
      ensures UnderNewKey(c, before[id], after[id])
    {
      var paths := before[id].sensitiveData.value;
      var n :| Reencrypted(c, before[id], after[id].content, n);
      SensitiveDataRoundTrip(c, Plain(c, before[id].content, paths, true).value, paths, false, n);
    }
  }

  /** As before, or re-encrypted with what was there in the backup. */
  ghost predicate KeptOrBackedUp(c: Crypto, before: Setting, after: Setting) {
    || after == before
    || (HasSensitiveData(before) && IsEmptyBackup(before) && MigratedFrom(c, before, after)
        && after.backup == Some(PrepareBackup(before.content, before.sensitiveData.value)))
  }

  /** In either case the content from before can be had back. */
  lemma KeptOrRestorable(c: Crypto, before: Setting, after: Setting)
    requires Lawful(c.cipher) && KeptOrBackedUp(c, before, after)
    ensures after.content == before.content
            || (after.backup.Some? && HasSensitiveData(after)
                && Restore(after.content, after.sensitiveData.value, after.backup.value) == before.content)
  {
    if after != before {
      var n :| Reencrypted(c, before, after.content, n);
      SameShapeReflexive(before.content);
      MigratedIsRecoverable(c, before, before.content, n);
      if !IsEmptyBackup(after) {
        BackupRestoresOriginal(c, after, before.content);
      }
    }
  }

  /** The first `i` settings of the list as read are done, and the others still as they were read. */
  ghost predicate Migrating(c: Crypto, store: map<string, Setting>, read: map<string, Setting>, order: seq<string>,
                            i: nat) {
    && i <= |order| && Listing(order, read) && store.Keys == read.Keys
    && (forall id <- store :: KeptOrBackedUp(c, read[id], store[id]))
    && (forall k :: i <= k < |order| ==> store[order[k]] == read[order[k]])
    && (forall k :: 0 <= k < i ==> Readable(c, read[order[k]]) && MigratedFrom(c, read[order[k]], store[order[k]]))
  }

  ghost predicate RecoverableSoFar(c: Crypto, store: map<string, Setting>, originals: map<string, Json>,
                                   order: seq<string>, i: nat) {
    && i <= |order| && (forall id <- order :: id in store) && EachRecoverable(c, store, originals)
    && forall k :: 0 <= k < i ==> Converted(c, store[order[k]], originals[order[k]])
  }

  lemma OneDone(c: Crypto, store: map<string, Setting>, read: map<string, Setting>, order: seq<string>, i: nat,
                after: Setting)
    requires i < |order| && Migrating(c, store, read, order, i)
    requires MigratedFrom(c, read[order[i]], after) && Readable(c, read[order[i]])
    requires KeptOrBackedUp(c, read[order[i]], after)
    ensures Migrating(c, store[order[i] := after], read, order, i + 1)
  {
    assert order[i] in order;
  }

  lemma OneConverted(c: Crypto, store: map<string, Setting>, originals: map<string, Json>, order: seq<string>, i: nat,
                     after: Setting)
    requires i < |order| && RecoverableSoFar(c, store, originals, order, i)
    requires Recoverable(c, store[order[i]], originals[order[i]]) ==>
               Recoverable(c, after, originals[order[i]]) && Converted(c, after, originals[order[i]])
    ensures RecoverableSoFar(c, store[order[i] := after], originals, order, i + 1)
  {
    var saved := store[order[i] := after];
    assert order[i] in order;
    forall id | id in saved
      ensures Recoverable(c, saved[id], originals[id])
    {
      assert Recoverable(c, store[id], originals[id]);
    }
    forall k | 0 <= k < i + 1
      ensures Converted(c, saved[order[k]], originals[order[k]])
    {
      assert k < i ==> Converted(c, store[order[k]], originals[order[k]]);
    }
  }

  lemma AllMigrated(c: Crypto, store: map<string, Setting>, read: map<string, Setting>, order: seq<string>)
    requires Migrating(c, store, read, order, |order|)
    ensures forall id <- store :: MigratedFrom(c, read[id], store[id]) && Readable(c, read[id])
    ensures forall id <- store :: HasSensitiveData(store[id]) ==> id in order
  {
    forall id | id in store && HasSensitiveData(read[id])
      ensures MigratedFrom(c, read[id], store[id]) && Readable(c, read[id])
    {
      var k :| 0 <= k < |order| && order[k] == id;
    }
  }

  lemma AllListedConverted(c: Crypto, store: map<string, Setting>, originals: map<string, Json>, order: seq<string>)
    requires RecoverableSoFar(c, store, originals, order, |order|)
    requires forall id <- store :: HasSensitiveData(store[id]) ==> id in order
    ensures forall id <- store :: Converted(c, store[id], originals[id])
  {
    forall id | id in store && HasSensitiveData(store[id])
      ensures Converted(c, store[id], originals[id])
    {
      var k :| 0 <= k < |order| && order[k] == id;
    }
  }

  /** A setting with a backup is passed over: it has been converted before. */
  lemma OneSkipped(c: Crypto, store: map<string, Setting>, originals: map<string, Json>, order: seq<string>, i: nat)
    requires i < |order| && RecoverableSoFar(c, store, originals, order, i) && !IsEmptyBackup(store[order[i]])
    ensures RecoverableSoFar(c, store, originals, order, i + 1)
  {
    assert order[i] in order && Recoverable(c, store[order[i]], originals[order[i]]);
  }

  /** The new key suits the cipher. */
  ghost predicate AcceptsNewKey(c: Crypto) {
    forall s, n :: Encoder(c, false)(s, n).Ok?
  }

  /** Already migrated, or to be read with the former key. */
  ghost predicate Readable(c: Crypto, s: Setting) {
    HasSensitiveData(s) && IsEmptyBackup(s) ==> Plain(c, s.content, s.sensitiveData.value, true).Ok?
  }

  lemma EncodingCannotFail(c: Crypto, s: Setting, n: nat)
    requires HasSensitiveData(s) && Plain(c, s.content, s.sensitiveData.value, true).Ok?
    ensures AcceptsNewKey(c) ==>
              var paths := s.sensitiveData.value;
              Walk(Plain(c, s.content, paths, true).value, paths, Encoder(c, false), n).Ok?
  {
    var paths := s.sensitiveData.value;
    var plain := Plain(c, s.content, paths, true).value;
    WalkMeetsNoArray(s.content, paths, Decoding(Decoder(c, true)), 0);
    WalkChangesOnlyListed(s.content, paths, Decoding(Decoder(c, true)), 0);
    forall p <- paths
      ensures !Blocked(plain, p)
    {
      SameShapeAt(s.content, plain, p);
    }
    WalkMeetsNoArray(plain, paths, Encoder(c, false), n);
  }

  // ---------------------------------------------------------------------------------
  // The program
  // ---------------------------------------------------------------------------------

  /** A setting in memory, changed in place. */
  class SettingDB {
    var content: Json
    var sensitiveData: Option<seq<Path>>
    var backup: Option<map<Path, string>>

    constructor (s: Setting)
      ensures Value() == s
    {
      content, sensitiveData, backup := s.content, s.sensitiveData, s.backup;
    }

    function Value(): Setting
      reads this
    {
      Setting(content, sensitiveData, backup)
    }
  }

  datatype Outcome = Completed | Interrupted | Failed | InProgress

  /** Where the process stops: after some saves of a phase, or before the flag is saved. */
  datatype Stop = Never | WhileMigrating(saves: nat) | WhileCleaning(saves: nat) | BeforeFlag

  class Cypher {
    const cipher: Cipher
    const random: nat -> seq<Byte>
    var drawn: nat                       // draws from the random source so far
    var setting: CryptoSetting
    var store: map<string, Setting>
    ghost var originals: map<string, Json>  // the contents when the key was changed

    constructor (cipher: Cipher, random: nat -> seq<Byte>, setting: CryptoSetting, store: map<string, Setting>)
      ensures this.cipher == cipher && this.random == random && this.setting == setting && this.store == store
      ensures originals == map id | id in store :: store[id].content
      ensures (forall id <- store :: FreshAndReadable(Crypto(cipher, random, setting), store[id])) ==> AllRecoverable()
    {
      this.cipher, this.random, this.drawn, this.setting, this.store := cipher, random, 0, setting, store;
      this.originals := map id | id in store :: store[id].content;
      new;
      forall id | id in store
        ensures SameShape(store[id].content, store[id].content)
      {
        SameShapeReflexive(store[id].content);
      }
    }

    function Keys(): Crypto
      reads this`setting
    {
      Crypto(cipher, random, setting)
    }

    /** Encrypts the listed properties in place; a missing list becomes the empty one. */
    method EncryptSensitiveDataInJSON(data: SettingDB, useFormerKey: bool) returns (ok: bool)
      modifies data, this`drawn
      ensures var paths := if old(data.sensitiveData).Some? then old(data.sensitiveData).value else [];
              var walked := Walk(old(data.content), paths, Encoder(Keys(), useFormerKey), old(drawn));
              && ok == walked.Ok?
              && (ok ==>
                    && data.Value() == Setting(walked.value.json, Some(paths), old(data.backup))
                    && drawn == walked.value.applied)
    {
      if data.sensitiveData.None? || data.sensitiveData.value == [] {
        data.sensitiveData := Some([]);
      }
      ok := EncryptListed(data, data.sensitiveData.value, useFormerKey);
    }

    method EncryptListed(data: SettingDB, paths: seq<Path>, useFormerKey: bool) returns (ok: bool)
      modifies data`content, this`drawn
      ensures var walked := Walk(old(data.content), paths, Encoder(Keys(), useFormerKey), old(drawn));
              ok == walked.Ok? && (ok ==> data.content == walked.value.json && drawn == walked.value.applied)
    {
      ghost var code := Encoder(Keys(), useFormerKey);
      ghost var walked := Walk(data.content, paths, code, drawn);
      var i := 0;
      while i < |paths|
        invariant 0 <= i <= |paths|
        invariant walked == Walk(data.content, paths[i..], code, drawn)
      {
        assert paths[i..][0] == paths[i] && paths[i..][1..] == paths[i + 1..];
        var value := Get(data.content, paths[i]);
        if value.Some? && value.value.Str? && value.value.s != "" {
          var text := Encrypt(cipher, value.value.s, useFormerKey, setting, random, drawn);
          assert text == code(value.value.s, drawn);
          if text.Err? {
            return false;
          }
          data.content := Set(data.content, paths[i], Str(text.value));
          drawn := drawn + 1;
        } else if value.Some? && value.value.Arr? && value.value.items != [] {
          return false;
        }
        i := i + 1;
      }
      ok := true;
    }

    /** Decrypts the listed properties in place. */
    method DecryptSensitiveDataInJSON(data: SettingDB, useFormerKey: bool) returns (ok: bool)
      modifies data
      ensures var paths := if old(data.sensitiveData).Some? then old(data.sensitiveData).value else [];
              var plain := Plain(Keys(), old(data.content), paths, useFormerKey);
              ok == plain.Ok? && (ok ==> data.Value() == old(data.Value()).(content := plain.value))
    {
      if data.sensitiveData.None? || data.sensitiveData.value == [] {
        return true;
      }
      var paths := data.sensitiveData.value;
      ghost var code := Decoding(Decoder(Keys(), useFormerKey));
      var i := 0;
      ghost var n := 0;
      while i < |paths|
        invariant 0 <= i <= |paths|
        invariant data.sensitiveData == Some(paths) && data.backup == old(data.backup)
        invariant Walk(old(data.content), paths, code, 0) == Walk(data.content, paths[i..], code, n)
      {
        var value := Get(data.content, paths[i]);
        if value.Some? && value.value.Str? && value.value.s != "" {
          var text := Decrypt(cipher, value.value.s, useFormerKey, setting);
          if text.Err? {
            return false;
          }
          data.content := Set(data.content, paths[i], Str(text.value));
          n := n + 1;
        } else if value.Some? && value.value.Arr? && value.value.items != [] {
          return false;
        }
        assert paths[i..][1..] == paths[i + 1..];
        i := i + 1;
      }
      ok := true;
    }
 
    // -- The migration

    /** `getSettingsWithSensitiveData`: their ids, in whatever order the store gives them. */
    method GetSettingsWithSensitiveData() returns (order: seq<string>)
      ensures Listing(order, store)
      ensures forall id :: id in order <==>
                             id in store && store[id].sensitiveData.Some? && |store[id].sensitiveData.value| > 0
    {
      order := [];
      var rest := store.Keys;
      while rest != {}
        invariant rest <= store.Keys
        invariant forall id <- order :: id in store && HasSensitiveData(store[id]) && id !in rest
        invariant forall id <- store.Keys - rest :: HasSensitiveData(store[id]) ==> id in order
        invariant forall a, b :: 0 <= a < b < |order| ==> order[a] != order[b]
        decreases rest
      {
        var id :| id in rest;
        rest := rest - {id};
        if HasSensitiveData(store[id]) {
          order := order + [id];
        }
      }
    }

    ghost predicate AllRecoverable()
      reads this
    {
      EachRecoverable(Keys(), store, originals)
    }

    ghost predicate AllConverted()
      reads this
    {
      store.Keys <= originals.Keys && forall id <- store :: Converted(Keys(), store[id], originals[id])
    }

    /** The loop body up to the save: backup, decrypt with the former key, encrypt with the new one. */
    method MigrateSetting(before: Setting) returns (ok: bool, after: Setting)
      requires Lawful(cipher) && HasSensitiveData(before) && IsEmptyBackup(before)
      modifies this`drawn
      ensures ok ==> MigratedFrom(Keys(), before, after) && Readable(Keys(), before)
      ensures KeptOrBackedUp(Keys(), before, after)
      ensures ok ==> forall original :: Recoverable(Keys(), before, original) ==>
                                          Recoverable(Keys(), after, original) && Converted(Keys(), after, original)
      ensures !ok && AcceptsNewKey(Keys()) ==> !Readable(Keys(), before)
    {
      after := before;
      var settingToMigrate := new SettingDB(before);
      settingToMigrate.backup := Some(PrepareBackup(before.content, before.sensitiveData.value));
      ok := DecryptSensitiveDataInJSON(settingToMigrate, true);
      if ok {
        EncodingCannotFail(Keys(), before, drawn);
        ghost var n := drawn;
        ok := EncryptSensitiveDataInJSON(settingToMigrate, false);
        if ok {
          after := settingToMigrate.Value();
          assert Reencrypted(Keys(), before, after.content, n);
          forall original | Recoverable(Keys(), before, original)
            ensures Recoverable(Keys(), after, original) && Converted(Keys(), after, original)
          {
            MigratedIsRecoverable(Keys(), before, original, n);
          }
        }
      }
    }

    /**
      `migrateSettings`, stopped after `stopAfter` saves if given. Every save boundary keeps
      every setting recoverable; running to the end converts them all.
     */
    method MigrateSettings(stopAfter: Option<nat>) returns (outcome: Outcome, saves: nat)
      requires Lawful(cipher)
      modifies this`store, this`drawn
      ensures outcome != InProgress && (stopAfter.None? ==> outcome != Interrupted)
      ensures outcome == Interrupted ==> saves == stopAfter.value
      ensures store.Keys == old(store.Keys)
      ensures forall id <- store :: store[id].sensitiveData == old(store[id].sensitiveData)
      ensures forall id <- store :: KeptOrBackedUp(Keys(), old(store)[id], store[id])
      ensures old(AllRecoverable()) ==> AllRecoverable()
      ensures old(AllRecoverable()) && outcome == Completed ==> AllConverted()
      ensures outcome == Completed ==> forall id <- store :: MigratedFrom(Keys(), old(store)[id], store[id])
      ensures AcceptsNewKey(Keys()) && stopAfter.None? ==>
                (outcome == Completed <==> forall id <- old(store) :: Readable(Keys(), old(store[id])))
    {
      var order := GetSettingsWithSensitiveData();
      var settingsToMigrate := store;
      ghost var done;
      outcome, saves, done := MigrateListed(settingsToMigrate, order, stopAfter);
      if outcome == Completed {
        AllMigrated(Keys(), store, settingsToMigrate, order);
        if old(AllRecoverable()) {
          AllListedConverted(Keys(), store, originals, order);
        }
      } else {
        assert outcome == Failed ==> order[done] in order;
      }
    }

    /** The loop; `done` of the settings listed are done when it ends. */
    method MigrateListed(settingsToMigrate: map<string, Setting>, order: seq<string>, stopAfter: Option<nat>)
      returns (outcome: Outcome, saves: nat, ghost done: nat)
      requires Lawful(cipher) && store == settingsToMigrate && Listing(order, store)
      modifies this`store, this`drawn
      ensures outcome != InProgress && (stopAfter.None? ==> outcome != Interrupted)
      ensures outcome == Interrupted ==> saves == stopAfter.value
      ensures Migrating(Keys(), store, settingsToMigrate, order, done)
      ensures old(AllRecoverable()) ==> RecoverableSoFar(Keys(), store, originals, order, done)
      ensures outcome == Completed ==> done == |order|
      ensures outcome == Failed ==>
                done < |order| && (AcceptsNewKey(Keys()) ==> !Readable(Keys(), settingsToMigrate[order[done]]))
    {
      saves, done := 0, 0;
      ghost var recoverable, c := AllRecoverable(), Keys();
      var i := 0;
      while i < |order|
        invariant Keys() == c
        invariant done == i && Migrating(c, store, settingsToMigrate, order, i)
        invariant recoverable ==> RecoverableSoFar(c, store, originals, order, i)
        invariant stopAfter.Some? ==> saves <= stopAfter.value
      {
        outcome := MigrateNext(settingsToMigrate, order, i, stopAfter == Some(saves));
        assert Keys() == c;
        if outcome != Completed {
          return outcome, saves, done;
        }
        saves := saves + if IsEmptyBackup(settingsToMigrate[order[i]]) then 1 else 0;
        i := i + 1;
        done := i;
      }
      outcome := Completed;
    }

    /** One turn of the loop; `stopping` is set if the process stops before the next save. */
    method MigrateNext(settingsToMigrate: map<string, Setting>, order: seq<string>, i: nat, stopping: bool)
      returns (outcome: Outcome)
      requires Lawful(cipher) && i < |order| && Migrating(Keys(), store, settingsToMigrate, order, i)
      modifies this`store, this`drawn
      ensures outcome == Completed || outcome == Failed || (outcome == Interrupted && stopping)
      ensures outcome != Completed ==> store == old(store)
      ensures outcome == Completed ==> Migrating(Keys(), store, settingsToMigrate, order, i + 1)
      ensures outcome == Completed && stopping ==> !IsEmptyBackup(settingsToMigrate[order[i]])
      ensures outcome == Completed && RecoverableSoFar(Keys(), old(store), originals, order, i) ==>
                RecoverableSoFar(Keys(), store, originals, order, i + 1)
      ensures outcome == Failed && AcceptsNewKey(Keys()) ==> !Readable(Keys(), settingsToMigrate[order[i]])
    {
      var id := order[i];
      assert id in order;
      if !IsEmptyBackup(settingsToMigrate[id]) {
        if RecoverableSoFar(Keys(), store, originals, order, i) {
          OneSkipped(Keys(), store, originals, order, i);
        }
        return Completed;
      }
      var migrated, after := MigrateSetting(settingsToMigrate[id]);
      if !migrated {
        return Failed;
      }
      if stopping {
        return Interrupted;
      }
      OneDone(Keys(), store, settingsToMigrate, order, i, after);
      if RecoverableSoFar(Keys(), store, originals, order, i) {
        OneConverted(Keys(), store, originals, order, i, after);
      }
      store := store[id := after];
      outcome := Completed;
    }

    /** `cleanupBackupSensitiveData`, stopped after `stopAfter` saves if given: contents stay. */
    method CleanupBackupSensitiveData(stopAfter: Option<nat>) returns (outcome: Outcome)
      modifies this`store
      ensures outcome == Completed || (outcome == Interrupted && stopAfter.Some?)
      ensures store.Keys == old(store.Keys)
      ensures forall id <- store :: CleanedFrom(old(store)[id], store[id])
      ensures outcome == Completed ==> forall id <- store :: BackupGone(store[id])
    {
      var saves := 0;
      var order := GetSettingsWithSensitiveData();
      var i := 0;
      while i < |order|
        invariant 0 <= i <= |order| && store.Keys == old(store.Keys)
        invariant forall id <- store :: CleanedFrom(old(store)[id], store[id])
        invariant forall k :: 0 <= k < i ==> store[order[k]].backup == None
      {
        var setting := new SettingDB(store[order[i]]);
        if setting.backup.Some? {
          if stopAfter.Some? && saves == stopAfter.value {
            return Interrupted;
          }
          setting.backup := None;
          store := store[order[i] := setting.Value()];
          saves := saves + 1;
        }
        i := i + 1;
      }
      outcome := Completed;
    }

    /**
      `handleCryptoSettingsChange`, stopped where `stop` says if that point is reached.
      `cleaning` tells whether the first phase was finished.
     */
    method HandleCryptoSettingsChange(lockAcquired: bool, stop: Stop) returns (outcome: Outcome, cleaning: bool)
      requires Lawful(cipher)
      modifies this`store, this`drawn, this`setting
      ensures outcome == InProgress <==> !lockAcquired
      ensures !lockAcquired ==> store == old(store) && !cleaning
      ensures setting == if outcome == Completed then old(setting).(migrationToBeDone := false) else old(setting)
      ensures stop.Never? ==> outcome != Interrupted && (cleaning <==> outcome == Completed)
      ensures cleaning && stop.BeforeFlag? ==> outcome == Interrupted
      ensures store.Keys == old(store.Keys)
      ensures old(AllRecoverable()) && !cleaning ==> AllRecoverable()
      ensures old(AllRecoverable()) && cleaning ==> AllConverted()
      ensures !cleaning ==> forall id <- store :: KeptOrBackedUp(old(Keys()), old(store)[id], store[id])
      ensures cleaning ==> forall id <- store :: MigratedFrom(old(Keys()), old(store)[id], store[id])
      ensures cleaning ==> forall id <- store :: UnderNewKey(old(Keys()), old(store)[id], store[id])
      ensures outcome == Completed ==> cleaning
      ensures outcome == Completed || (cleaning && stop.BeforeFlag?) ==>
                forall id <- store :: BackupGone(store[id])
      ensures lockAcquired && AcceptsNewKey(old(Keys())) && !stop.WhileMigrating? ==>
                (cleaning <==> forall id <- old(store) :: Readable(old(Keys()), old(store[id])))
    {
      cleaning := false;
      if !lockAcquired {
        return InProgress, cleaning;
      }
      outcome, cleaning := MigrateAndCleanUp(stop);
      if outcome != Completed {
        return;
      }
      if stop.BeforeFlag? {
        return Interrupted, cleaning;
      }
      KeysDecideConversion(Keys(), Crypto(cipher, random, setting.(migrationToBeDone := false)));
      setting := setting.(migrationToBeDone := false);
    }

    /** The two phases between the lock and the flag. */
    method MigrateAndCleanUp(stop: Stop) returns (outcome: Outcome, cleaning: bool)
      requires Lawful(cipher)
      modifies this`store, this`drawn
      ensures outcome != InProgress && (outcome == Completed ==> cleaning) && (cleaning ==> outcome != Failed)
      ensures outcome == Interrupted ==> if cleaning then stop.WhileCleaning? else stop.WhileMigrating?
      ensures store.Keys == old(store.Keys)
      ensures old(AllRecoverable()) ==> if cleaning then AllConverted() else AllRecoverable()
      ensures !cleaning ==> forall id <- store :: KeptOrBackedUp(Keys(), old(store)[id], store[id])
      ensures cleaning ==> forall id <- store :: MigratedFrom(Keys(), old(store)[id], store[id])
      ensures cleaning ==> forall id <- store :: UnderNewKey(Keys(), old(store)[id], store[id])
      ensures outcome == Completed ==> forall id <- store :: BackupGone(store[id])
      ensures AcceptsNewKey(Keys()) && !stop.WhileMigrating? ==>
                (cleaning <==> forall id <- old(store) :: Readable(Keys(), old(store[id])))
    {
      var saves;
      outcome, saves := MigrateSettings(if stop.WhileMigrating? then Some(stop.saves) else None);
      cleaning := outcome == Completed;
      if cleaning {
        ghost var migrated := store;
        outcome := CleanupBackupSensitiveData(if stop.WhileCleaning? then Some(stop.saves) else None);
        AllCleaned(Keys(), old(store), migrated, store);
      }
    }

    /**
      The scheduler task that resumes the migration. However often it is stopped while settings
      are being migrated, the run that goes through leaves every setting under the new key with
      its original plaintext, no backup, and nothing to be done.
     */
    method MigrateSensitiveDataTask(stops: seq<Stop>) returns (stoppedWhileCleaning: bool)
      requires Lawful(cipher) && AcceptsNewKey(Keys()) && AllRecoverable() && setting.migrationToBeDone
      modifies this`store, this`drawn, this`setting
      ensures store.Keys == old(store.Keys)
      ensures !stoppedWhileCleaning ==>
                && AllConverted()
                && (forall id <- store :: BackupGone(store[id]))
                && setting == old(setting).(migrationToBeDone := false)
      ensures stoppedWhileCleaning ==> AllConverted() && setting == old(setting)
      ensures forall id <- store :: id in originals &&
                var paths := if store[id].sensitiveData.Some? then store[id].sensitiveData.value else [];
                Plain(Keys(), store[id].content, paths, false) == Plain(Keys(), originals[id], paths, true)
    {
      stoppedWhileCleaning := false;
      var i := 0;
      while i < |stops|
        invariant store.Keys == old(store.Keys) && AllRecoverable() && setting == old(setting)
      {
        var outcome, cleaning := HandleCryptoSettingsChange(true, stops[i]);
        if outcome == Completed {
          return;
        }
        if cleaning {
          return true;
        }
        i := i + 1;
      }
      forall id | id in store
        ensures Readable(Keys(), store[id])
      {
        assert Recoverable(Keys(), store[id], originals[id]);
      }
      var outcome, cleaning := HandleCryptoSettingsChange(true, Never);
    }

    /**
      The same task after a run that stopped while cleaning. A setting that has lost its backup
      is taken for one still under the former key: the run completes exactly when the former
      key reads all of these, and then all plaintexts survive exactly when it reads in them
      what the new key reads. A run that fails leaves each setting as it was or with what was
      there in its backup.
     */
    method ResumeAfterStoppedCleanup() returns (outcome: Outcome)
      requires Lawful(cipher) && AcceptsNewKey(Keys()) && AllConverted()
      modifies this`store, this`drawn, this`setting
      ensures outcome == Completed <==> forall id <- old(store) :: Readable(old(Keys()), old(store[id]))
      ensures outcome == Completed ==>
                (AllConverted() <==> forall id <- old(store) :: ReadAlike(old(Keys()), old(store[id])))
      ensures outcome == Completed ==> setting == old(setting).(migrationToBeDone := false)
      ensures outcome == Completed ==> forall id <- store :: BackupGone(store[id])
      ensures outcome == Completed || outcome == Failed
      ensures outcome == Failed ==>
                && setting == old(setting)
                && forall id <- store :: id in old(store) && KeptOrBackedUp(Keys(), old(store)[id], store[id])
    {
      ghost var before, c := store, Keys();
      var cleaning;
      outcome, cleaning := HandleCryptoSettingsChange(true, Never);
      if outcome == Completed {
        KeysDecideConversion(c, Keys());
        forall id | id in store
          ensures Converted(Keys(), store[id], originals[id]) <==> ReadAlike(c, before[id])
        {
          ConvertedAgainIffReadAlike(c, before[id], store[id], originals[id]);
        }
      }
    }
  }

  /** Both keys read the same in a setting that counts as not migrated. */
  ghost predicate ReadAlike(c: Crypto, s: Setting) {
    HasSensitiveData(s) && IsEmptyBackup(s) ==>
      Plain(c, s.content, s.sensitiveData.value, true) == Plain(c, s.content, s.sensitiveData.value, false)
  }

  /** A converted setting that is migrated once more keeps its plaintext only in that case. */
  lemma ConvertedAgainIffReadAlike(c: Crypto, before: Setting, after: Setting, original: Json)
    requires Lawful(c.cipher) && MigratedFrom(c, before, after) && Converted(c, before, original)
    ensures Converted(c, after, original) <==> ReadAlike(c, before)
  {
    if HasSensitiveData(before) && IsEmptyBackup(before) {
      var paths := before.sensitiveData.value;
      var n :| Reencrypted(c, before, after.content, n);
      SensitiveDataRoundTrip(c, Plain(c, before.content, paths, true).value, paths, false, n);
    }
  }

  /** Only the keys matter to decryption, not the flag. */
  lemma KeysDecideConversion(c: Crypto, d: Crypto)
    requires d == c.(setting := c.setting.(migrationToBeDone := d.setting.migrationToBeDone))
    ensures forall j, paths, useFormerKey :: Plain(c, j, paths, useFormerKey) == Plain(d, j, paths, useFormerKey)
  {
    forall j, paths, useFormerKey
      ensures Plain(c, j, paths, useFormerKey) == Plain(d, j, paths, useFormerKey)
    {
      SameDecoderSameWalk(j, paths, Decoder(c, useFormerKey), Decoder(d, useFormerKey), 0);
    }
  }

  lemma {:induction false} SameDecoderSameWalk(j: Json, paths: seq<Path>, f: string -> Result<string>,
                                               g: string -> Result<string>, n: nat)
    requires forall s :: f(s) == g(s)
    ensures Walk(j, paths, Decoding(f), n) == Walk(j, paths, Decoding(g), n)
    decreases |paths|
  {
    if paths != [] {
      if IsText(j, paths[0]) && TextAt(j, paths[0]) != "" {
        var text := f(TextAt(j, paths[0]));
        if text.Ok? {
          SameDecoderSameWalk(Set(j, paths[0], Str(text.value)), paths[1..], f, g, n + 1);
        }
      } else {
        SameDecoderSameWalk(j, paths[1..], f, g, n);
      }
    }
  }

  // ---------------------------------------------------------------------------------
  // Stopping during the cleanup
  // ---------------------------------------------------------------------------------

  /** The former key does not open what the new key seals, as authenticated modes see to. */
  ghost predicate Separated(c: Crypto) {
    forall text :: Decoder(c, false)(text).Ok? ==> Decoder(c, true)(text).Err?
  }

  lemma {:induction false} FormerKeyMeetsText(c: Crypto, j: Json, paths: seq<Path>, m: nat, n: nat)
    requires Separated(c) && Walk(j, paths, Decoding(Decoder(c, false)), m).Ok?
    ensures Walk(j, paths, Decoding(Decoder(c, true)), n).Ok? <==> PrepareBackup(j, paths) == map[]
    decreases |paths|
  {
    if paths != [] {
      if IsText(j, paths[0]) && TextAt(j, paths[0]) != "" {
        assert paths[0] in PrepareBackup(j, paths);
        assert Decoder(c, false)(TextAt(j, paths[0])).Ok?;
        assert Decoder(c, true)(TextAt(j, paths[0])).Err?;
      } else {
        FormerKeyMeetsText(c, j, paths[1..], m, n);
        BackupOfRest(j, paths);
      }
    }
  }

  lemma BackupOfRest(j: Json, paths: seq<Path>)
    requires paths != [] && !(IsText(j, paths[0]) && TextAt(j, paths[0]) != "")
    ensures PrepareBackup(j, paths) == PrepareBackup(j, paths[1..])
  {
    assert paths == [paths[0]] + paths[1..];
  }

  /** Under the new key and without its backup, a setting then passes the migration only if it is blank. */
  lemma CleanedSettingIsReadableIffBlank(c: Crypto, s: Setting, original: Json)
    requires Separated(c) && HasSensitiveData(s) && IsEmptyBackup(s)
    requires Converted(c, s, original) && Plain(c, original, s.sensitiveData.value, true).Ok?
    ensures Readable(c, s) <==> PrepareBackup(s.content, s.sensitiveData.value) == map[]
    ensures Readable(c, s) ==> ReadAlike(c, s)
  {
    var paths := s.sensitiveData.value;
    FormerKeyMeetsText(c, s.content, paths, 0, 0);
    if Readable(c, s) {
      WalkMeetsNoArray(s.content, paths, Decoding(Decoder(c, true)), 0);
      NothingToCode(s.content, paths, Decoding(Decoder(c, true)), 0);
      NothingToCode(s.content, paths, Decoding(Decoder(c, false)), 0);
    }
  }

  /** So with such keys a run that resumes completes only if there is nothing left to lose. */
  lemma SeparatedKeysLoseNothing(c: Crypto, store: map<string, Setting>, originals: map<string, Json>)
    requires Separated(c) && store.Keys <= originals.Keys
    requires forall id <- store :: Converted(c, store[id], originals[id])
    requires forall id <- store :: HasSensitiveData(store[id]) ==>
                                     Plain(c, originals[id], store[id].sensitiveData.value, true).Ok?
    ensures (forall id <- store :: Readable(c, store[id])) <==>
              forall id <- store :: HasSensitiveData(store[id]) && IsEmptyBackup(store[id]) ==>
                                      PrepareBackup(store[id].content, store[id].sensitiveData.value) == map[]
    ensures (forall id <- store :: Readable(c, store[id])) ==> forall id <- store :: ReadAlike(c, store[id])
  {
    forall id | id in store && HasSensitiveData(store[id]) && IsEmptyBackup(store[id])
      ensures Readable(c, store[id]) <==> PrepareBackup(store[id].content, store[id].sensitiveData.value) == map[]
      ensures Readable(c, store[id]) ==> ReadAlike(c, store[id])
    {
      CleanedSettingIsReadableIffBlank(c, store[id], originals[id]);
    }
  }
}
