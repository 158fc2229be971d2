/** Strings: separators, decimal numbers, ASCII case. */
module Text {
  /** The first field of a separated text is determined by the text when it has no separator in it. */
  lemma FirstField(sep: char, a: string, x: string, b: string, y: string)
    requires a + [sep] + x == b + [sep] + y && sep !in a && sep !in b
    ensures a == b && x == y
  {
    var s := a + [sep] + x;
    assert s[|a|] == sep && s[|b|] == sep;
    assert |a| == |b|;
    assert a == s[..|a|] && b == s[..|b|] && x == s[|a| + 1..] && y == s[|b| + 1..];
  }

  /** The same for the last field. */
  lemma LastField(sep: char, x: string, a: string, y: string, b: string)
    requires x + [sep] + a == y + [sep] + b && sep !in a && sep !in b
    ensures x == y && a == b
  {
    var s := x + [sep] + a;
    assert s[|x|] == sep && s[|y|] == sep;
    assert |x| == |y|;
    assert x == s[..|x|] && y == s[..|y|] && a == s[|x| + 1..] && b == s[|y| + 1..];
  }

  // ---------------------------------------------------------------------------------
  // split
  // ---------------------------------------------------------------------------------

  /** `text.split(sep)` for a one-character separator: always at least one part. */
  function Split(text: string, sep: char): (parts: seq<string>)
    ensures |parts| >= 1
  {
    if text == "" then [""]
    else
      var rest := Split(text[1..], sep);
      if text[0] == sep then [""] + rest else [[text[0]] + rest[0]] + rest[1..]
  }

  lemma {:induction false} SplitFirst(a: string, b: string, sep: char)
    requires sep !in a
    ensures Split(a + [sep] + b, sep) == [a] + Split(b, sep)
  {
    if a == "" {
      assert a + [sep] + b == [sep] + b;
    } else {
      assert (a + [sep] + b)[1..] == a[1..] + [sep] + b;
      SplitFirst(a[1..], b, sep);
      assert [a[0]] + a[1..] == a;
    }
  }

  lemma {:induction false} SplitNone(a: string, sep: char)
    requires sep !in a
    ensures Split(a, sep) == [a]
  {
    if a != "" {
      SplitNone(a[1..], sep);
      assert [a[0]] + a[1..] == a;
    }
  }

  /** No part holds the separator, and the parts hold nothing that the text does not. */
  lemma {:induction false} SplitParts(text: string, sep: char, i: nat)
    requires i < |Split(text, sep)|
    ensures forall c <- Split(text, sep)[i] :: c in text && c != sep
  {
    if text != "" {
      var rest := Split(text[1..], sep);
      if text[0] == sep {
        if i > 0 { SplitParts(text[1..], sep, i - 1); }
      } else {
        SplitParts(text[1..], sep, if i == 0 then 0 else i);
      }
    }
  }

  lemma {:induction false} SplitLast(a: string, b: string, sep: char)
    requires sep !in b
    ensures |Split(a + [sep] + b, sep)| >= 2
    ensures Split(a + [sep] + b, sep)[|Split(a + [sep] + b, sep)| - 1] == b
  {
    if a == "" {
      assert a + [sep] + b == [sep] + b;
      SplitNone(b, sep);
    } else {
      assert (a + [sep] + b)[1..] == a[1..] + [sep] + b;
      SplitLast(a[1..], b, sep);
    }
  }

  lemma {:induction false} SplitsIff(text: string, sep: char)
    ensures |Split(text, sep)| > 1 <==> sep in text
  {
    if text != "" {
      SplitsIff(text[1..], sep);
      assert text == [text[0]] + text[1..];
    }
  }

  /** The text is its first part, then a separator and the other parts if there are any. */
  lemma {:induction false} SplitHead(text: string, sep: char)
    ensures var a := Split(text, sep)[0];
            && |a| <= |text| && text[..|a|] == a
            && (|Split(text, sep)| == 1 ==> a == text)
            && (|Split(text, sep)| > 1 ==>
                  |a| < |text| && text[|a|] == sep && Split(text[|a| + 1..], sep) == Split(text, sep)[1..])
  {
    if text != "" && text[0] != sep {
      SplitHead(text[1..], sep);
      var b := Split(text[1..], sep)[0];
      assert text[1..][..|b|] == text[1..|b| + 1];
      assert |b| < |text[1..]| ==> text[1..][|b| + 1..] == text[|b| + 2..];
    }
  }

  // ---------------------------------------------------------------------------------
  // join
  // ---------------------------------------------------------------------------------

  function Join(parts: seq<string>, sep: char): string {
    if parts == [] then "" else if |parts| == 1 then parts[0] else parts[0] + [sep] + Join(parts[1..], sep)
  }

  lemma {:induction false} SplitJoin(parts: seq<string>, sep: char)
    requires parts != [] && forall p <- parts :: sep !in p
    ensures Split(Join(parts, sep), sep) == parts
  {
    if |parts| == 1 {
      SplitNone(parts[0], sep);
    } else {
      SplitFirst(parts[0], Join(parts[1..], sep), sep);
      SplitJoin(parts[1..], sep);
    }
  }

  // ---------------------------------------------------------------------------------
  // Decimal numbers
  // ---------------------------------------------------------------------------------

  function Digit(d: nat): char
    requires d < 10
  {
    "0123456789"[d]
  }

  predicate IsDigit(c: char) {
    '0' <= c <= '9'
  }

  function Natural(n: nat): (text: string)
    ensures (forall c <- text :: IsDigit(c)) && |text| >= 1 && (|text| == 1 <==> n < 10)
  {
    if n < 10 then [Digit(n)] else Natural(n / 10) + [Digit(n % 10)]
  }

  /** An integer as a template literal prints it. */
  function Decimal(n: int): string {
    if n < 0 then "-" + Natural(-n) else Natural(n)
  }

  function Abs(n: int): nat {
    if n < 0 then -n else n
  }

  lemma {:induction false} NaturalInjective(m: nat, n: nat)
    requires Natural(m) == Natural(n)
    ensures m == n
  {
    var a, b := Natural(m), Natural(n);
    assert a[|a| - 1] == Digit(m % 10) && b[|b| - 1] == Digit(n % 10);
    if m < 10 {
      assert n < 10;
    } else {
      assert a[..|a| - 1] == Natural(m / 10);
      assert n >= 10;
      assert b[..|b| - 1] == Natural(n / 10);
      NaturalInjective(m / 10, n / 10);
    }
  }

  /** The number that a text of digits is read as. */
  function ValueOf(text: string): int {
    if text == "" then 0 else 10 * ValueOf(text[..|text| - 1]) + (text[|text| - 1] as int - '0' as int)
  }

  lemma {:induction false} NaturalReads(n: nat)
    ensures ValueOf(Natural(n)) == n && (Natural(n)[0] == '0' <==> n == 0)
  {
    if n >= 10 {
      NaturalReads(n / 10);
      assert Natural(n)[..|Natural(n)| - 1] == Natural(n / 10);
    } else {
      assert Natural(n)[..0] == "";
    }
  }

  lemma DecimalInjective(m: int, n: int)
    requires Decimal(m) == Decimal(n)
    ensures m == n
  {
    assert Natural(Abs(m)) == (if m < 0 then Decimal(m)[1..] else Decimal(m));
    assert Natural(Abs(n)) == (if n < 0 then Decimal(n)[1..] else Decimal(n));
    assert IsDigit(Natural(Abs(m))[0]) && IsDigit(Natural(Abs(n))[0]);
    assert Decimal(m)[0] == Decimal(n)[0];
    NaturalInjective(Abs(m), Abs(n));
  }

  // ---------------------------------------------------------------------------------
  // ASCII letters
  // ---------------------------------------------------------------------------------

  /** One of [A-Za-z0-9]: what `[\\W_]` does not match. */
  predicate IsAlnum(c: char) {
    'A' <= c <= 'Z' || 'a' <= c <= 'z' || IsDigit(c)
  }

  predicate AllAlnum(s: string) {
    forall c <- s :: IsAlnum(c)
  }

  function UpperChar(c: char): char {
    if 'a' <= c <= 'z' then (c as int - 32) as char else c
  }

  function LowerChar(c: char): char {
    if 'A' <= c <= 'Z' then (c as int + 32) as char else c
  }

  function Upper(s: string): (u: string)
    ensures |u| == |s| && forall i :: 0 <= i < |s| ==> u[i] == UpperChar(s[i])
  {
    if s == "" then "" else [UpperChar(s[0])] + Upper(s[1..])
  }

  function Lower(s: string): (u: string)
    ensures |u| == |s| && forall i :: 0 <= i < |s| ==> u[i] == LowerChar(s[i])
  {
    if s == "" then "" else [LowerChar(s[0])] + Lower(s[1..])
  }

  /** Letters go to letters in the order of the alphabet, and nothing else changes. */
  lemma Alphabet(c: char, d: char)
    ensures 'a' <= c < d <= 'z' ==> 'A' <= UpperChar(c) < UpperChar(d) <= 'Z'
    ensures 'A' <= c < d <= 'Z' ==> 'a' <= LowerChar(c) < LowerChar(d) <= 'z'
    ensures c < 'a' || c > 'z' ==> UpperChar(c) == c
    ensures c < 'A' || c > 'Z' ==> LowerChar(c) == c
  {
  }

  lemma UpperAppend(a: string, b: string)
    ensures Upper(a + b) == Upper(a) + Upper(b)
  {
  }

  predicate OccursAt(text: string, word: string, i: int) {
    0 <= i <= |text| - |word| && text[i..i + |word|] == word
  }

  /** `text.includes(word)`. */
  predicate Contains(text: string, word: string) {
    exists i | 0 <= i <= |text| :: OccursAt(text, word, i)
  }

  lemma ContainsIff(text: string, word: string)
    ensures Contains(text, word) <==> exists a, b :: text == a + word + b
  {
    if Contains(text, word) {
      var i :| 0 <= i <= |text| && OccursAt(text, word, i);
      assert text[i..i + |word|] == word;
      assert text == text[..i] + word + text[i + |word|..];
    }
    if exists a, b :: text == a + word + b {
      var a, b :| text == a + word + b;
      assert OccursAt(text, word, |a|);
    }
  }
}
