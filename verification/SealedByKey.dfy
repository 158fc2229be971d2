/**
  The assumptions on the crypto library hold together: a cipher that carries the key in the
  authentication tag is lawful, takes every key, and keeps the former key out.
 */
module SealedByKey {
  import opened Prelude
  import opened CipherText
  import opened KeyMigration

  function Bytes(text: string): seq<Byte> {
    if text == "" then []
    else
      var n := text[0] as int;
      [n / 0x1_0000, n / 0x100 % 0x100, n % 0x100] + Bytes(text[1..])
  }

  function FromBytes(bytes: seq<Byte>): string {
    if |bytes| < 3 then ""
    else
      var n: int := (bytes[0] as int) * 0x1_0000 + (bytes[1] as int) * 0x100 + bytes[2] as int;
      if n < 0xD800 || 0xE000 <= n < 0x11_0000 then [n as char] + FromBytes(bytes[3..]) else ""
  }

  lemma {:induction false} BytesRoundTrip(text: string)
    ensures FromBytes(Bytes(text)) == text
  {
    if text != "" {
      BytesRoundTrip(text[1..]);
      assert Bytes(text)[3..] == Bytes(text[1..]);
    }
  }

  function Toy(): Cipher {
    Cipher(
      (algo: string, key: string, iv: seq<Byte>, text: string) => Some((Bytes(text), Some(Bytes(key)))),
      (algo: string, key: string, iv: seq<Byte>, data: seq<Byte>, tag: Option<seq<Byte>>) =>
        if IsAuthenticatedEncryptionMode(algo) && tag != Some(Bytes(key)) then None else Some(FromBytes(data)))
  }

  /** Everything the migration is proved under holds of it, in an authenticated mode, for any two keys. */
  lemma ToyMeetsAssumptions(c: Crypto, former: Key)
    requires c.cipher == Toy() && c.setting.formerKey == Some(former) && c.setting.key.text != former.text
    requires IsAuthenticatedEncryptionMode(BuildCryptoAlgorithm(c.setting.key.properties))
    requires IsAuthenticatedEncryptionMode(BuildCryptoAlgorithm(former.properties))
    ensures Lawful(c.cipher) && AcceptsNewKey(c) && Separated(c)
  {
    forall algo, key, iv, text
      ensures var sealed := Toy().seal(algo, key, iv, text);
              sealed.Some? && Toy().unseal(algo, key, iv, sealed.value.0, TagFor(algo, sealed.value.1)) == Some(text)
    {
      BytesRoundTrip(text);
    }
    BytesRoundTrip(c.setting.key.text);
    BytesRoundTrip(former.text);
  }
}
