/** `Cypher.encrypt` and `Cypher.decrypt`: the text iv:data[:tag] in hex around an abstract cipher. */
module CipherText {
  import opened Prelude
  import opened Text

  type Byte = b: int | 0 <= b < 256

  // ---------------------------------------------------------------------------------
  // Hex
  // ---------------------------------------------------------------------------------

  function HexDigit(d: nat): char
    requires d < 16
  {
    "0123456789abcdef"[d]
  }

  function HexValue(c: char): (v: Option<nat>)
    ensures v.Some? ==> v.value < 16
  {
    if '0' <= c <= '9' then Some(c as int - 48)
    else if 'a' <= c <= 'f' then Some(c as int - 87)
    else if 'A' <= c <= 'F' then Some(c as int - 55)
    else None
  }

  /** `buffer.toString('hex')`. */
  function ToHex(bytes: seq<Byte>): string {
    if bytes == [] then "" else [HexDigit(bytes[0] / 16), HexDigit(bytes[0] % 16)] + ToHex(bytes[1..])
  }

  /** `Buffer.from(text, 'hex')`: decodes pairs up to the first one that is not hexadecimal. */
  function FromHex(text: string): seq<Byte> {
    if |text| < 2 || HexValue(text[0]).None? || HexValue(text[1]).None? then []
    else [HexValue(text[0]).value * 16 + HexValue(text[1]).value] + FromHex(text[2..])
  }

  lemma HexDigitRoundTrip(d: nat)
    requires d < 16
    ensures HexValue(HexDigit(d)) == Some(d) && HexDigit(d) != ':'
    ensures HexValue(UpperChar(HexDigit(d))) == Some(d)
  {
    assert d == 0 || d == 1 || d == 2 || d == 3 || d == 4 || d == 5 || d == 6 || d == 7 || d == 8 || d == 9
           || d == 10 || d == 11 || d == 12 || d == 13 || d == 14 || d == 15;
  }

  lemma {:induction false} HexRoundTrip(bytes: seq<Byte>)
    ensures FromHex(ToHex(bytes)) == bytes && ':' !in ToHex(bytes)
  {
    if bytes != [] {
      HexRoundTrip(bytes[1..]);
      HexDigitRoundTrip(bytes[0] / 16);
      HexDigitRoundTrip(bytes[0] % 16);
      assert ToHex(bytes)[2..] == ToHex(bytes[1..]);
      assert [bytes[0]] + bytes[1..] == bytes;
    }
  }

  /** Capitals are read as well. */
  lemma {:induction false} UpperHexRead(bytes: seq<Byte>)
    ensures FromHex(Upper(ToHex(bytes))) == bytes
  {
    if bytes != [] {
      UpperHexRead(bytes[1..]);
      UpperPair(bytes[0], ToHex(bytes[1..]));
      assert [bytes[0]] + bytes[1..] == bytes;
    }
  }

  lemma UpperPair(b: Byte, rest: string)
    ensures FromHex(Upper([HexDigit(b / 16), HexDigit(b % 16)] + rest)) == [b] + FromHex(Upper(rest))
  {
    var text := [HexDigit(b / 16), HexDigit(b % 16)] + rest;
    HexDigitRoundTrip(b / 16);
    HexDigitRoundTrip(b % 16);
    assert Upper(text)[2..] == Upper(rest);
  }

  // ---------------------------------------------------------------------------------
  // The frame
  // ---------------------------------------------------------------------------------

  datatype Frame = Frame(iv: seq<Byte>, data: seq<Byte>, tag: Option<seq<Byte>>)

  function FrameText(f: Frame): string {
    ToHex(f.iv) + ":" + ToHex(f.data) + if f.tag.Some? then ":" + ToHex(f.tag.value) else ""
  }

  /** Without a second part `Buffer.from(undefined)` throws; parts beyond the third are ignored. */
  function ParseFrame(text: string): Result<Frame> {
    var parts := Split(text, ':');
    if |parts| < 2 then Err("The first argument must be of type string")
    else Ok(Frame(FromHex(parts[0]), FromHex(parts[1]), if |parts| > 2 then Some(FromHex(parts[2])) else None))
  }

  /** Empty data and empty tags included. */
  lemma FrameRoundTrip(f: Frame)
    ensures ParseFrame(FrameText(f)) == Ok(f) && FrameText(f) != ""
  {
    FrameParts(f);
  }

  lemma FrameParts(f: Frame)
    ensures Split(FrameText(f), ':') ==
              [ToHex(f.iv), ToHex(f.data)] + if f.tag.Some? then [ToHex(f.tag.value)] else []
    ensures FromHex(ToHex(f.iv)) == f.iv && FromHex(ToHex(f.data)) == f.data
    ensures f.tag.Some? ==> FromHex(ToHex(f.tag.value)) == f.tag.value
  {
    HexRoundTrip(f.iv);
    HexRoundTrip(f.data);
    if f.tag.Some? {
      HexRoundTrip(f.tag.value);
      SplitThree(ToHex(f.iv), ToHex(f.data), ToHex(f.tag.value));
    } else {
      SplitTwo(ToHex(f.iv), ToHex(f.data));
      assert FrameText(f) == ToHex(f.iv) + ":" + ToHex(f.data);
    }
  }

  lemma SplitTwo(a: string, b: string)
    requires ':' !in a && ':' !in b
    ensures Split(a + ":" + b, ':') == [a, b]
  {
    assert a + ":" + b == a + [':'] + b;
    SplitFirst(a, b, ':');
    SplitNone(b, ':');
  }

  lemma SplitThree(a: string, b: string, c: string)
    requires ':' !in a && ':' !in b && ':' !in c
    ensures Split(a + ":" + b + (":" + c), ':') == [a, b, c]
  {
    assert a + ":" + b + (":" + c) == a + [':'] + (b + ":" + c);
    SplitFirst(a, b + ":" + c, ':');
    SplitTwo(b, c);
  }

  // ---------------------------------------------------------------------------------
  // The cipher
  // ---------------------------------------------------------------------------------

  datatype KeyProperties = KeyProperties(blockCypher: string, blockSize: nat, operationMode: string)

  datatype Key = Key(text: string, properties: KeyProperties)

  /** The current key and, once it has been changed, the former one. */
  datatype CryptoSetting = CryptoSetting(key: Key, formerKey: Option<Key>, migrationToBeDone: bool)

  function BuildCryptoAlgorithm(p: KeyProperties): string {
    p.blockCypher + "-" + Decimal(p.blockSize) + "-" + p.operationMode
  }

  predicate IsAuthenticatedEncryptionMode(algo: string) {
    || Contains(algo, "gcm") || Contains(algo, "ccm")
    || Contains(algo, "GCM") || Contains(algo, "CCM") || Contains(algo, "ocb")
  }

  /**
    Any cipher of the crypto library: `seal` fails for algorithms and keys it does not accept,
    and gives the data and, in authenticated modes, a tag; `unseal` gets the tag back in those
    modes only.
   */
  datatype Cipher = Cipher(
    seal: (string, string, seq<Byte>, string) -> Option<(seq<Byte>, Option<seq<Byte>>)>,
    unseal: (string, string, seq<Byte>, seq<Byte>, Option<seq<Byte>>) -> Option<string>)

  function TagFor(algo: string, tag: Option<seq<Byte>>): Option<seq<Byte>> {
    if IsAuthenticatedEncryptionMode(algo) then tag else None
  }

  ghost predicate Lawful(c: Cipher) {
    forall algo, key, iv, text ::
      var sealed := c.seal(algo, key, iv, text);
      sealed.Some? ==> c.unseal(algo, key, iv, sealed.value.0, TagFor(algo, sealed.value.1)) == Some(text)
  }

  function SelectKey(setting: CryptoSetting, useFormerKey: bool): Option<Key> {
    if useFormerKey then setting.formerKey else Some(setting.key)
  }

  /** `random(n)` is the n-th draw of the random source for IVs, of the length asked for. */
  function Encrypt(c: Cipher, data: string, useFormerKey: bool, setting: CryptoSetting, random: nat -> seq<Byte>,
                   n: nat): Result<string> {
    var key := SelectKey(setting, useFormerKey);
    if key.None? then Err("formerKeyProperties is undefined")
    else
      var algo := BuildCryptoAlgorithm(key.value.properties);
      var sealed := c.seal(algo, key.value.text, random(n), data);
      if sealed.None? then Err("cipher error")
      else Ok(FrameText(Frame(random(n), sealed.value.0, TagFor(algo, sealed.value.1))))
  }

  function Decrypt(c: Cipher, data: string, useFormerKey: bool, setting: CryptoSetting): Result<string> {
    var frame := ParseFrame(data);
    var key := SelectKey(setting, useFormerKey);
    if frame.Err? then Err(frame.message)
    else if key.None? then Err("formerKeyProperties is undefined")
    else
      var algo := BuildCryptoAlgorithm(key.value.properties);
      var plain := c.unseal(algo, key.value.text, frame.value.iv, frame.value.data, TagFor(algo, frame.value.tag));
      if plain.None? then Err("decipher error") else Ok(plain.value)
  }

  lemma TaggedModes(algo: string)
    ensures IsAuthenticatedEncryptionMode(algo) <==>
              exists word <- ["gcm", "ccm", "GCM", "CCM", "ocb"] :: Contains(algo, word)
  {
    var words := ["gcm", "ccm", "GCM", "CCM", "ocb"];
    assert words[0] in words && words[1] in words && words[2] in words && words[3] in words && words[4] in words;
  }

  /**
    The text holds, in hex, the IV, what the cipher makes of the data with the selected key, and
    the tag, the latter exactly for the algorithms whose name says so.
   */
  lemma EncryptWrites(c: Cipher, data: string, useFormerKey: bool, setting: CryptoSetting, random: nat -> seq<Byte>,
                      n: nat, key: Key)
    requires if useFormerKey then setting.formerKey == Some(key) else setting.key == key
    ensures var p := key.properties;
            var algo := p.blockCypher + "-" + Decimal(p.blockSize) + "-" + p.operationMode;
            var sealed := c.seal(algo, key.text, random(n), data);
            var text := Encrypt(c, data, useFormerKey, setting, random, n);
            && (text.Ok? <==> sealed.Some?)
            && (text.Ok? ==>
                  var parts := Split(text.value, ':');
                  var tagged := exists word <- ["gcm", "ccm", "GCM", "CCM", "ocb"] :: Contains(algo, word);
                  && |parts| == (if tagged && sealed.value.1.Some? then 3 else 2)
                  && FromHex(parts[0]) == random(n) && FromHex(parts[1]) == sealed.value.0
                  && (|parts| == 3 ==> FromHex(parts[2]) == sealed.value.1.value))
  {
    var algo := BuildCryptoAlgorithm(key.properties);
    TaggedModes(algo);
    var sealed := c.seal(algo, key.text, random(n), data);
    if sealed.Some? {
      var tag := TagFor(algo, sealed.value.1);
      FrameParts(Frame(random(n), sealed.value.0, tag));
    }
  }

  /** `decrypt` inverts `encrypt`, with or without authentication, whatever the IV. */
  lemma DecryptInvertsEncrypt(c: Cipher, data: string, useFormerKey: bool, setting: CryptoSetting,
                              random: nat -> seq<Byte>, n: nat)
    requires Lawful(c)
    requires Encrypt(c, data, useFormerKey, setting, random, n).Ok?
    ensures var text := Encrypt(c, data, useFormerKey, setting, random, n).value;
            text != "" && Decrypt(c, text, useFormerKey, setting) == Ok(data)
  {
    var key := SelectKey(setting, useFormerKey).value;
    var algo := BuildCryptoAlgorithm(key.properties);
    var sealed := c.seal(algo, key.text, random(n), data);
    FrameRoundTrip(Frame(random(n), sealed.value.0, TagFor(algo, sealed.value.1)));
  }
}
