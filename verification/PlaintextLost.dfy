/**
  A cipher without authentication: it is lawful, but reads anything with any key. A migration
  away from it that stops before the flag is saved completes when it is resumed, and the
  plaintext is gone.
 */
module PlaintextLost {
  import opened Prelude
  import opened Json
  import opened CipherText
  import opened SensitiveData
  import opened KeyMigration
  import opened SealedByKey

  /** The key in front of the text; opening takes the key off if it is there. */
  function Stream(): Cipher {
    Cipher(
      (algo: string, key: string, iv: seq<Byte>, text: string) => Some((Bytes(key + text), None)),
      (algo: string, key: string, iv: seq<Byte>, data: seq<Byte>, tag: Option<seq<Byte>>) =>
        Some(TakeOff(key, FromBytes(data))))
  }

  function TakeOff(key: string, text: string): string {
    if key <= text then text[|key|..] else text
  }

  lemma StreamIsLawful()
    ensures Lawful(Stream())
  {
    forall algo, key, iv, text
      ensures var sealed := Stream().seal(algo, key, iv, text);
              Stream().unseal(algo, key, iv, sealed.value.0, TagFor(algo, sealed.value.1)) == Some(text)
    {
      BytesRoundTrip(key + text);
      assert TakeOff(key, key + text) == text;
    }
  }

  const PROPERTIES := KeyProperties("aes", 256, "ctr")
  const FORMER := CipherText.Key("f", PROPERTIES)
  const SETTING := CryptoSetting(CipherText.Key("n", PROPERTIES), Some(FORMER), true)
  const PATHS: seq<Path> := [[Segment.Key("token")]]

  /** A document with one listed property. */
  function Document(text: string): Json {
    Obj(map["token" := Str(text)])
  }

  function Sealed(key: string, text: string): string {
    FrameText(Frame([], Bytes(key + text), None))
  }

  function Keys(): Crypto {
    Crypto(Stream(), NoRandom, SETTING)
  }

  function NoRandom(n: nat): seq<Byte> {
    []
  }

  function KeyText(useFormerKey: bool): string {
    if useFormerKey then "f" else "n"
  }

  lemma Seals(text: string, useFormerKey: bool, n: nat)
    ensures Encoder(Keys(), useFormerKey)(text, n) == Ok(Sealed(KeyText(useFormerKey), text))
  {
  }

  lemma Opens(key: string, text: string, useFormerKey: bool)
    ensures Sealed(key, text) != ""
    ensures Decoder(Keys(), useFormerKey)(Sealed(key, text)) == Ok(TakeOff(KeyText(useFormerKey), key + text))
  {
    FrameRoundTrip(Frame([], Bytes(key + text), None));
    BytesRoundTrip(key + text);
  }

  /** Coding the document codes its one property. */
  lemma WalkDocument(text: string, code: Coder, n: nat)
    requires text != "" && code(text, n).Ok?
    ensures Walk(Document(text), PATHS, code, n) == Ok(Walked(Document(code(text, n).value), n + 1))
  {
    var j := Document(text);
    assert PATHS[0][1..] == [] && PATHS[1..] == [];
    assert Get(j, PATHS[0]) == Some(Str(text));
    var coded := code(text, n).value;
    assert Set(j, PATHS[0], Str(coded)) == Obj(j.fields["token" := Str(coded)]) == Document(coded);
  }

  lemma Reads(key: string, text: string, useFormerKey: bool)
    ensures Plain(Keys(), Document(Sealed(key, text)), PATHS, useFormerKey)
            == Ok(Document(TakeOff(KeyText(useFormerKey), key + text)))
  {
    Opens(key, text, useFormerKey);
    WalkDocument(Sealed(key, text), Decoding(Decoder(Keys(), useFormerKey)), 0);
  }

  /** The setting as it is when the key changes. */
  function Original(): Setting {
    Setting(Document(Sealed("f", "s")), Some(PATHS), None)
  }

  lemma OriginalIsRecoverable()
    ensures Recoverable(Keys(), Original(), Original().content) && AcceptsNewKey(Keys())
    ensures Plain(Keys(), Original().content, PATHS, true) == Ok(Document("s"))
  {
    Reads("f", "s", true);
    assert TakeOff("f", "f" + "s") == "s";
    SameShapeReflexive(Original().content);
  }

  lemma MigratedContent(after: Setting)
    requires MigratedFrom(Keys(), Original(), after)
    ensures after.content == Document(Sealed("n", "s")) && after.sensitiveData == Some(PATHS)
  {
    OriginalIsRecoverable();
    var n :| Reencrypted(Keys(), Original(), after.content, n);
    Seals("s", false, n);
    WalkDocument("s", Encoder(Keys(), false), n);
  }

  lemma ReadsDiffer()
    ensures Plain(Keys(), Document(Sealed("n", "s")), PATHS, true) == Ok(Document("ns"))
    ensures Plain(Keys(), Document(Sealed("n", "s")), PATHS, false) == Ok(Document("s"))
  {
    Reads("n", "s", true);
    Reads("n", "s", false);
    assert TakeOff("n", "n" + "s") == "s";
    assert TakeOff("f", "n" + "s") == "ns";
  }

  /** Migrated and cleaned, it is read differently by the two keys. */
  lemma CleanedReadsTwoWays(after: Setting)
    requires MigratedFrom(Keys(), Original(), after) && IsEmptyBackup(after)
    ensures HasSensitiveData(after) && Readable(Keys(), after) && !ReadAlike(Keys(), after)
  {
    MigratedContent(after);
    ReadsDiffer();
    assert Document("ns").fields["token"] != Document("s").fields["token"];
  }

  /** From the change of the key on: one stop before the flag is saved, one run that resumes. */
  method LosePlaintext() returns (cypher: Cypher, outcome: Outcome)
    ensures fresh(cypher) && outcome == Completed && !cypher.AllConverted() && !cypher.setting.migrationToBeDone
  {
    StreamIsLawful();
    OriginalIsRecoverable();
    cypher := new Cypher(Stream(), NoRandom, SETTING, map["id" := Original()]);
    var cleaning;
    outcome, cleaning := cypher.HandleCryptoSettingsChange(true, BeforeFlag);
    CleanedReadsTwoWays(cypher.store["id"]);
    outcome := cypher.ResumeAfterStoppedCleanup();
  }
}
