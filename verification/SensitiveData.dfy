/** Encrypting and decrypting the listed properties of a JSON document in place. */
module SensitiveData {
  import opened Prelude
  import opened Json

  /** What `walk` applies to a non-empty string, given the number of applications before it. */
  type Coder = (string, nat) -> Result<string>

  datatype Walked = Walked(json: Json, applied: nat)

  /**
    The loop over `sensitiveData`: a missing property, an empty string and a value without
    length are skipped; a non-empty array makes the cipher throw.
   */
  function Walk(j: Json, paths: seq<Path>, code: Coder, n: nat): Result<Walked>
    decreases |paths|
  {
    if paths == [] then Ok(Walked(j, n))
    else
      var value := Get(j, paths[0]);
      if value.Some? && value.value.Str? && value.value.s != "" then
        match code(value.value.s, n)
        case Err(e) => Err(e)
        case Ok(text) => Walk(Set(j, paths[0], Str(text)), paths[1..], code, n + 1)
      else if Blocked(j, paths[0]) then Err("The data argument must be of type string")
      else Walk(j, paths[1..], code, n)
  }

  predicate Blocked(j: Json, path: Path) {
    Get(j, path).Some? && Get(j, path).value.Arr? && Get(j, path).value.items != []
  }

  predicate IsText(j: Json, path: Path) {
    Get(j, path).Some? && Get(j, path).value.Str?
  }

  function TextAt(j: Json, path: Path): string
    requires IsText(j, path)
  {
    Get(j, path).value.s
  }

  function Occurrences(paths: seq<Path>, path: Path): nat {
    if paths == [] then 0 else (if paths[0] == path then 1 else 0) + Occurrences(paths[1..], path)
  }

  /** A decoder as a coder. */
  function Decoding(decode: string -> Result<string>): Coder {
    (s, n) => decode(s)
  }

  /** Take up to `layers` layers of code off a text, stopping at the empty one. */
  function Unwrap(decode: string -> Result<string>, text: string, layers: nat): Result<string>
    decreases layers
  {
    if layers == 0 || text == "" then Ok(text)
    else
      match decode(text)
      case Err(e) => Err(e)
      case Ok(inner) => Unwrap(decode, inner, layers - 1)
  }

  lemma {:induction false} UnwrapOneMore(decode: string -> Result<string>, text: string, layers: nat)
    requires Unwrap(decode, text, layers).Ok?
    ensures Unwrap(decode, text, layers + 1) == Unwrap(decode, Unwrap(decode, text, layers).value, 1)
    decreases layers
  {
    if layers > 0 && text != "" {
      UnwrapOneMore(decode, decode(text).value, layers - 1);
    }
  }

  /** What one application does: the shape and all other strings stay. */
  lemma WalkStep(j: Json, path: Path, text: string)
    requires IsText(j, path)
    ensures SameShape(j, Set(j, path, Str(text)))
    ensures forall q :: IsText(j, q) <==> IsText(Set(j, path, Str(text)), q)
    ensures forall q :: Blocked(j, q) <==> Blocked(Set(j, path, Str(text)), q)
    ensures forall q :: IsText(j, q) ==> TextAt(Set(j, path, Str(text)), q) == if q == path then text else TextAt(j, q)
  {
    var k := Set(j, path, Str(text));
    SetKeepsShape(j, path, text);
    forall q
      ensures IsText(j, q) <==> IsText(k, q)
      ensures Blocked(j, q) <==> Blocked(k, q)
      ensures IsText(j, q) ==> TextAt(k, q) == if q == path then text else TextAt(j, q)
    {
      SameShapeAt(j, k, q);
      if q == path {
        GetSet(j, path, Str(text));
      } else if IsText(j, q) {
        SetElsewhere(j, path, text, q);
      }
    }
  }

  lemma WalkStepAt(j: Json, path: Path, text: string, q: Path)
    requires IsText(j, path)
    ensures IsText(j, q) <==> IsText(Set(j, path, Str(text)), q)
    ensures IsText(j, q) ==> TextAt(Set(j, path, Str(text)), q) == if q == path then text else TextAt(j, q)
  {
    WalkStep(j, path, text);
  }

  ghost predicate Inverse(code: Coder, decode: string -> Result<string>) {
    forall s, n :: s != "" && code(s, n).Ok? ==> code(s, n).value != "" && decode(code(s, n).value) == Ok(s)
  }

  /** Coding puts on each listed string one layer for each time its path is listed. */
  lemma {:induction false} WalkAddsLayers(j: Json, paths: seq<Path>, code: Coder, decode: string -> Result<string>,
                                          n: nat)
    requires Inverse(code, decode) && Walk(j, paths, code, n).Ok?
    ensures var r := Walk(j, paths, code, n).value.json;
            && SameShape(j, r)
            && (forall q :: IsText(j, q) ==>
                  IsText(r, q) && Unwrap(decode, TextAt(r, q), Occurrences(paths, q)) == Ok(TextAt(j, q)))
    decreases |paths|
  {
    var r := Walk(j, paths, code, n).value.json;
    if paths == [] {
      SameShapeReflexive(j);
    } else if IsText(j, paths[0]) && TextAt(j, paths[0]) != "" {
      var p, s := paths[0], TextAt(j, paths[0]);
      var text := code(s, n).value;
      var k := Set(j, p, Str(text));
      WalkStep(j, p, text);
      WalkAddsLayers(k, paths[1..], code, decode, n + 1);
      SameShapeTransitive(j, k, r);
      forall q | IsText(j, q)
        ensures IsText(r, q) && Unwrap(decode, TextAt(r, q), Occurrences(paths, q)) == Ok(TextAt(j, q))
      {
        assert IsText(k, q);
        if q == p {
          UnwrapOneMore(decode, TextAt(r, q), Occurrences(paths[1..], q));
        }
      }
    } else {
      WalkAddsLayers(j, paths[1..], code, decode, n);
      forall q | IsText(j, q)
        ensures Unwrap(decode, TextAt(r, q), Occurrences(paths, q)) == Ok(TextAt(j, q))
      {
        if q == paths[0] {
          UnwrapOneMore(decode, TextAt(r, q), Occurrences(paths[1..], q));
        }
      }
    }
  }

  lemma OneLayerOff(j: Json, paths: seq<Path>, decode: string -> Result<string>)
    requires paths != [] && IsText(j, paths[0]) && TextAt(j, paths[0]) != ""
    requires Unwrap(decode, TextAt(j, paths[0]), Occurrences(paths, paths[0])).Ok?
    ensures decode(TextAt(j, paths[0])).Ok?
    ensures var k := Set(j, paths[0], Str(decode(TextAt(j, paths[0])).value));
            && SameShape(j, k)
            && (forall q :: Blocked(j, q) <==> Blocked(k, q))
            && (forall q :: IsText(j, q) <==> IsText(k, q))
            && (forall q :: IsText(j, q) ==>
                  Unwrap(decode, TextAt(j, q), Occurrences(paths, q))
                  == Unwrap(decode, TextAt(k, q), Occurrences(paths[1..], q)))
  {
    WalkStep(j, paths[0], decode(TextAt(j, paths[0])).value);
  }

  /** Decoding takes the layers off again, and fails exactly where a layer does not come off. */
  lemma {:induction false} WalkTakesLayers(j: Json, paths: seq<Path>, decode: string -> Result<string>, n: nat)
    requires forall p <- paths :: !Blocked(j, p)
    requires forall q :: IsText(j, q) ==> Unwrap(decode, TextAt(j, q), Occurrences(paths, q)).Ok?
    ensures Walk(j, paths, Decoding(decode), n).Ok?
    ensures var r := Walk(j, paths, Decoding(decode), n).value.json;
            && SameShape(j, r)
            && (forall q :: IsText(j, q) ==>
                  IsText(r, q) && Ok(TextAt(r, q)) == Unwrap(decode, TextAt(j, q), Occurrences(paths, q)))
    decreases |paths|
  {
    if paths == [] {
      SameShapeReflexive(j);
    } else if IsText(j, paths[0]) && TextAt(j, paths[0]) != "" {
      OneLayerOff(j, paths, decode);
      var k := Set(j, paths[0], Str(decode(TextAt(j, paths[0])).value));
      WalkTakesLayers(k, paths[1..], decode, n + 1);
      SameShapeTransitive(j, k, Walk(k, paths[1..], Decoding(decode), n + 1).value.json);
    } else {
      assert forall q :: IsText(j, q) ==> Unwrap(decode, TextAt(j, q), Occurrences(paths, q))
                                          == Unwrap(decode, TextAt(j, q), Occurrences(paths[1..], q));
      WalkTakesLayers(j, paths[1..], decode, n);
    }
  }

  /** A walk that went through met no non-empty array, before or after. */
  lemma {:induction false} WalkMeetsNoArray(j: Json, paths: seq<Path>, code: Coder, n: nat)
    ensures Walk(j, paths, code, n).Ok? ==> forall p <- paths :: !Blocked(j, p)
    ensures Walk(j, paths, code, n).Ok? ==>
              forall p <- paths :: Get(j, p).Some? && Get(j, p).value.Arr? ==> Get(j, p).value.items == []
    ensures (forall p <- paths :: !Blocked(j, p)) && (forall s, m :: code(s, m).Ok?) ==> Walk(j, paths, code, n).Ok?
    ensures (forall s, m :: code(s, m).Ok?) && !Walk(j, paths, code, n).Ok? ==>
              exists p <- paths :: Get(j, p).Some? && Get(j, p).value.Arr? && Get(j, p).value.items != []
    decreases |paths|
  {
    if paths != [] {
      if IsText(j, paths[0]) && TextAt(j, paths[0]) != "" {
        var coded := code(TextAt(j, paths[0]), n);
        if coded.Ok? {
          WalkStep(j, paths[0], coded.value);
          WalkMeetsNoArray(Set(j, paths[0], Str(coded.value)), paths[1..], code, n + 1);
        }
      } else {
        WalkMeetsNoArray(j, paths[1..], code, n);
      }
      assert forall p <- paths :: p == paths[0] || p in paths[1..];
    }
  }

  /**
    Decrypting what was encrypted gives the document back, for any list of paths: missing,
    repeated and overlapping ones included.
   */
  lemma DecodeInvertsEncode(j: Json, paths: seq<Path>, code: Coder, decode: string -> Result<string>, n: nat, m: nat)
    requires Inverse(code, decode) && Walk(j, paths, code, n).Ok?
    ensures var coded := Walk(j, paths, code, n).value.json;
            Walk(coded, paths, Decoding(decode), m).Ok? && Walk(coded, paths, Decoding(decode), m).value.json == j
  {
    var coded := Walk(j, paths, code, n).value.json;
    WalkAddsLayers(j, paths, code, decode, n);
    WalkMeetsNoArray(j, paths, code, n);
    forall q
      ensures IsText(coded, q) <==> IsText(j, q)
      ensures Blocked(coded, q) <==> Blocked(j, q)
    {
      SameShapeAt(j, coded, q);
    }
    WalkTakesLayers(coded, paths, decode, m);
    var back := Walk(coded, paths, Decoding(decode), m).value.json;
    SameShapeTransitive(j, coded, back);
    forall q | Get(j, q).Some? && Get(j, q).value.Str?
      ensures Get(back, q) == Get(j, q)
    {
      assert IsText(j, q) && IsText(coded, q);
    }
    SameStringsSameTree(j, back);
  }

  /** How many of the listed properties a walk applies the coder to. */
  function Texts(j: Json, paths: seq<Path>): nat {
    if paths == [] then 0
    else (if IsText(j, paths[0]) && TextAt(j, paths[0]) != "" then 1 else 0) + Texts(j, paths[1..])
  }

  lemma {:induction false} TextsElsewhere(j: Json, path: Path, text: string, paths: seq<Path>)
    requires IsText(j, path) && path !in paths
    ensures Texts(Set(j, path, Str(text)), paths) == Texts(j, paths)
  {
    if paths != [] {
      WalkStepAt(j, path, text, paths[0]);
      TextsElsewhere(j, path, text, paths[1..]);
    }
  }

  lemma TextsAfterHead(j: Json, paths: seq<Path>, text: string, i: nat)
    requires 0 < i < |paths| && NoneTwice(paths) && IsText(j, paths[0]) && TextAt(j, paths[0]) != ""
    ensures Texts(j, paths[..i]) == 1 + Texts(Set(j, paths[0], Str(text)), paths[1..][..i - 1])
  {
    assert paths[..i][1..] == paths[1..][..i - 1];
    TextsElsewhere(j, paths[0], text, paths[..i][1..]);
  }

  predicate NoneTwice(paths: seq<Path>) {
    forall a, b :: 0 <= a < b < |paths| ==> paths[a] != paths[b]
  }

  lemma NoneTwiceInTail(paths: seq<Path>)
    requires NoneTwice(paths) && paths != []
    ensures NoneTwice(paths[1..]) && paths[0] !in paths[1..]
    ensures forall i :: 1 <= i < |paths| ==> paths[1..][i - 1] == paths[i]
  {
  }

  /**
    With no property listed twice, each listed text is coded once, as it was, and with a number
    of its own: the number of texts coded before it.
   */
  lemma {:induction false} WalkCodesEach(j: Json, paths: seq<Path>, code: Coder, n: nat, i: nat)
    requires Walk(j, paths, code, n).Ok? && i < |paths| && IsText(j, paths[i]) && TextAt(j, paths[i]) != ""
    requires NoneTwice(paths)
    ensures var r := Walk(j, paths, code, n).value.json;
            IsText(r, paths[i]) && Ok(TextAt(r, paths[i])) == code(TextAt(j, paths[i]), n + Texts(j, paths[..i]))
    decreases |paths|
  {
    if IsText(j, paths[0]) && TextAt(j, paths[0]) != "" {
      var text := code(TextAt(j, paths[0]), n).value;
      var k := Set(j, paths[0], Str(text));
      WalkStepAt(j, paths[0], text, paths[i]);
      if i == 0 {
        WalkChangesOnlyListed(k, paths[1..], code, n + 1);
      } else {
        NoneTwiceInTail(paths);
        WalkCodesEach(k, paths[1..], code, n + 1, i - 1);
        TextsAfterHead(j, paths, text, i);
      }
    } else {
      NoneTwiceInTail(paths);
      WalkCodesEach(j, paths[1..], code, n, i - 1);
      assert paths[..i][1..] == paths[1..][..i - 1];
    }
  }

  /** Nothing but the listed strings changes: same shape, same other strings. */
  lemma {:induction false} WalkChangesOnlyListed(j: Json, paths: seq<Path>, code: Coder, n: nat)
    requires Walk(j, paths, code, n).Ok?
    ensures var r := Walk(j, paths, code, n).value.json;
            && SameShape(j, r)
            && (forall q :: IsText(j, q) ==>
                  IsText(r, q) && (q !in paths || TextAt(j, q) == "" ==> TextAt(r, q) == TextAt(j, q)))
    decreases |paths|
  {
    var r := Walk(j, paths, code, n).value.json;
    if paths == [] {
      SameShapeReflexive(j);
    } else if IsText(j, paths[0]) && TextAt(j, paths[0]) != "" {
      var text := code(TextAt(j, paths[0]), n).value;
      var k := Set(j, paths[0], Str(text));
      WalkStep(j, paths[0], text);
      WalkChangesOnlyListed(k, paths[1..], code, n + 1);
      SameShapeTransitive(j, k, r);
      forall q | IsText(j, q)
        ensures IsText(r, q) && (q !in paths || TextAt(j, q) == "" ==> TextAt(r, q) == TextAt(j, q))
      {
        assert IsText(k, q);
      }
    } else {
      WalkChangesOnlyListed(j, paths[1..], code, n);
    }
  }
}
