/**
  The recursive anonymiser of log messages. Whether a string is a WebSocket connection URL
  depends on earlier matches (the expression is global), so that is an input, given for each
  place in the message.
 */
module Logging {
  import opened Prelude
  import opened Json
  import opened Text

  const ANONYMIZED_VALUE := "####"
  const SENSITIVE_DATA := ["firstName", "name", "repeatPassword", "password", "plainPassword", "captcha", "email"]
  const EXCEPTION_JSON_KEYS_IN_SENSITIVE_DATA := ["error", "stack"]

  predicate IsException(key: string) {
    key in EXCEPTION_JSON_KEYS_IN_SENSITIVE_DATA
  }

  /** Equal to a sensitive name, whatever the case. */
  predicate IsSensitive(key: string) {
    exists i | 0 <= i < |SENSITIVE_DATA| :: Lower(key) == Lower(SENSITIVE_DATA[i])
  }

  predicate MentionsSensitive(message: string) {
    exists i | 0 <= i < |SENSITIVE_DATA| :: Contains(Lower(message), Lower(SENSITIVE_DATA[i]))
  }

  // ---------------------------------------------------------------------------------
  // Query strings
  // ---------------------------------------------------------------------------------

  /** The text before the first '=', and of that what stands between the first two '?' if any. */
  function QueryKey(part: string): string {
    var key := Split(part, '=')[0];
    var parts := Split(key, '?');
    if |parts| > 1 then parts[1] else parts[0]
  }

  /** The key is what stands before the '=', after a '?' if there is one. */
  lemma QueryKeyReads(path: string, key: string, value: string)
    requires '=' !in path && '?' !in path && '=' !in key && '?' !in key
    ensures QueryKey(key + "=" + value) == key && QueryKey(path + "?" + key + "=" + value) == key
  {
    assert key + "=" + value == key + ['='] + value;
    SplitFirst(key, value, '=');
    SplitNone(key, '?');
    var asked := path + ['?'] + key;
    assert path + "?" + key + "=" + value == asked + ['='] + value;
    SplitFirst(asked, value, '=');
    SplitFirst(path, key, '?');
  }

  predicate Starts(key: string, word: string) {
    |word| <= |key| && Lower(key)[..|word|] == Lower(word)
  }

  lemma StartsIff(key: string, word: string)
    ensures Starts(key, word) <==> exists rest :: Lower(key) == Lower(word) + rest
  {
    if Starts(key, word) {
      assert Lower(key) == Lower(word) + Lower(key)[|word|..];
    }
    if exists rest :: Lower(key) == Lower(word) + rest {
      var rest :| Lower(key) == Lower(word) + rest;
      assert |key| == |word| + |rest|;
    }
  }

  /** `text.search(word)`. */
  function Search(text: string, word: string, from: nat): (i: int)
    requires from <= |text| + 1
    ensures i == -1 || (from <= i && OccursAt(text, word, i))
    ensures forall k :: from <= k && OccursAt(text, word, k) ==> 0 <= i <= k
    decreases |text| + 1 - from
  {
    if from > |text| then -1
    else if OccursAt(text, word, from) then from
    else Search(text, word, from + 1)
  }

  /** `text.substring(0, n)`. */
  function Prefix(text: string, n: int): string {
    if n <= 0 then "" else if n >= |text| then text else text[..n]
  }

  function Cut(part: string, word: string): string {
    Prefix(part, Search(Lower(part), Lower(word), 0) + |word| + 1) + ANONYMIZED_VALUE
  }

  /** The last of the words that the key starts with decides. */
  function Rewritten(part: string, words: seq<string>): string {
    if words == [] then part
    else
      var word := words[|words| - 1];
      if Starts(QueryKey(part), word) then Cut(part, word) else Rewritten(part, words[..|words| - 1])
  }

  /** Where the value of a query part starts: after the first '='. */
  function ValueStart(part: string): nat {
    |Split(part, '=')[0]| + 1
  }

  lemma LowerSlice(text: string, from: nat, n: nat)
    requires from + n <= |text|
    ensures Lower(text[from..from + n]) == Lower(text)[from..from + n]
  {
  }

  lemma SecondField(text: string, sep: char)
    requires |Split(text, sep)| > 1
    ensures var at := |Split(text, sep)[0]| + 1;
            at + |Split(text, sep)[1]| <= |text| && text[at..at + |Split(text, sep)[1]|] == Split(text, sep)[1]
  {
    SplitHead(text, sep);
    var at := |Split(text, sep)[0]| + 1;
    SplitHead(text[at..], sep);
    assert text[at..][..|Split(text, sep)[1]|] == text[at..at + |Split(text, sep)[1]|];
  }

  lemma KeyInPart(part: string) returns (at: nat)
    ensures at + |QueryKey(part)| <= ValueStart(part) - 1 <= |part|
    ensures part[at..at + |QueryKey(part)|] == QueryKey(part)
  {
    SplitHead(part, '=');
    var key := Split(part, '=')[0];
    if |Split(key, '?')| > 1 {
      SecondField(key, '?');
      at := |Split(key, '?')[0]| + 1;
      assert key[at..at + |QueryKey(part)|] == part[at..at + |QueryKey(part)|];
    } else {
      SplitHead(key, '?');
      at := 0;
    }
  }

  /** A part that is cut loses its whole value: nothing after the first '=' is kept. */
  lemma CutHidesValue(part: string, word: string)
    requires Starts(QueryKey(part), word)
    ensures exists n :: 0 <= n <= ValueStart(part) && n <= |part| && Cut(part, word) == part[..n] + ANONYMIZED_VALUE
  {
    var at := KeyInPart(part);
    LowerSlice(part, at, |QueryKey(part)|);
    assert Lower(QueryKey(part))[..|word|] == Lower(part)[at..at + |word|];
    assert OccursAt(Lower(part), Lower(word), at);
    var n := Search(Lower(part), Lower(word), 0) + |word| + 1;
    assert 0 <= n <= ValueStart(part);
    if n >= |part| {
      assert part[..|part|] == part;
    }
  }

  lemma {:induction false} RewrittenHidesValue(part: string, words: seq<string>)
    ensures (forall w <- words :: !Starts(QueryKey(part), w)) ==> Rewritten(part, words) == part
    ensures (exists w <- words :: Starts(QueryKey(part), w)) ==>
              exists n ::
                0 <= n <= ValueStart(part) && n <= |part| && Rewritten(part, words) == part[..n] + ANONYMIZED_VALUE
  {
    if words != [] {
      var word, others := words[|words| - 1], words[..|words| - 1];
      assert words == others + [word];
      if Starts(QueryKey(part), word) {
        CutHidesValue(part, word);
      } else {
        RewrittenHidesValue(part, others);
      }
    }
  }

  /** `at` is the first place of the word in the part; up to there, the word and one more character are kept. */
  ghost predicate CutAt(part: string, word: string, at: nat, r: string) {
    && OccursAt(Lower(part), Lower(word), at) && (forall i :: 0 <= i < at ==> !OccursAt(Lower(part), Lower(word), i))
    && r == (if at + |word| < |part| then part[..at + |word| + 1] else part) + "####"
  }

  lemma CutWhere(part: string, word: string) returns (at: nat)
    requires Starts(QueryKey(part), word)
    ensures CutAt(part, word, at, Cut(part, word))
  {
    var from := KeyInPart(part);
    LowerSlice(part, from, |QueryKey(part)|);
    assert Lower(QueryKey(part))[..|word|] == Lower(part)[from..from + |word|];
    assert OccursAt(Lower(part), Lower(word), from);
    at := Search(Lower(part), Lower(word), 0);
  }

  /** The last of the words that the key starts with decides, and says where the part is cut. */
  lemma {:induction false} RewrittenCuts(part: string, words: seq<string>, k: nat) returns (at: nat)
    requires k < |words| && Starts(QueryKey(part), words[k])
    requires forall i :: k < i < |words| ==> !Starts(QueryKey(part), words[i])
    ensures CutAt(part, words[k], at, Rewritten(part, words))
  {
    if k == |words| - 1 {
      at := CutWhere(part, words[k]);
    } else {
      at := RewrittenCuts(part, words[..|words| - 1], k);
    }
  }

  function RewrittenParts(message: string): seq<string> {
    var parts := Split(message, '&');
    seq(|parts|, i requires 0 <= i < |parts| => Rewritten(parts[i], SENSITIVE_DATA))
  }

  lemma OneMoreWord(part: string, words: seq<string>, j: nat)
    requires j < |words|
    ensures Rewritten(part, words[..j + 1]) ==
              if Starts(QueryKey(part), words[j]) then Cut(part, words[j]) else Rewritten(part, words[..j])
  {
    assert words[..j + 1][..j] == words[..j];
  }

  /** The loop over the sensitive names for one part of a query string. */
  method AnonymizePart(dataPart: string, words: seq<string>) returns (r: string)
    ensures r == Rewritten(dataPart, words)
  {
    var queryParamKey := Split(dataPart, '=')[0];
    var queryParamKeyParts := Split(queryParamKey, '?');
    queryParamKey := if |queryParamKeyParts| > 1 then queryParamKeyParts[1] else queryParamKeyParts[0];
    assert queryParamKey == QueryKey(dataPart);
    r := dataPart;
    for j := 0 to |words|
      invariant r == Rewritten(dataPart, words[..j])
    {
      var sensitiveData := words[j];
      OneMoreWord(dataPart, words, j);
      if Starts(queryParamKey, sensitiveData) {
        r := Cut(dataPart, sensitiveData);
      }
    }
    assert words[..|words|] == words;
  }

  method AnonymizeQuery(message: string) returns (r: string)
    ensures r == Join(RewrittenParts(message), '&')
  {
    var dataParts := Split(message, '&');
    ghost var parts := dataParts;
    for i := 0 to |dataParts|
      invariant |dataParts| == |parts|
      invariant forall k :: 0 <= k < i ==> dataParts[k] == Rewritten(parts[k], SENSITIVE_DATA)
      invariant forall k :: i <= k < |parts| ==> dataParts[k] == parts[k]
    {
      var anonymized := AnonymizePart(dataParts[i], SENSITIVE_DATA);
      dataParts := dataParts[i := anonymized];
    }
    assert dataParts == RewrittenParts(message);
    r := Join(dataParts, '&');
  }

  lemma {:induction false} RewrittenIsPart(part: string, words: seq<string>)
    requires '&' !in part
    ensures '&' !in Rewritten(part, words)
  {
    if words != [] {
      RewrittenIsPart(part, words[..|words| - 1]);
    }
  }

  /**
    A rewritten query string has as many parts as before; a part whose key starts with a
    sensitive name has lost its value, and every other part is as it was.
   */
  lemma QueryValuesHidden(message: string, i: nat)
    requires i < |Split(message, '&')|
    ensures var part := Split(message, '&')[i];
            var after := Split(Join(RewrittenParts(message), '&'), '&');
            && |after| == |Split(message, '&')|
            && ((forall w <- SENSITIVE_DATA :: !Starts(QueryKey(part), w)) ==> after[i] == part)
            && ((exists w <- SENSITIVE_DATA :: Starts(QueryKey(part), w)) ==>
                  exists n :: 0 <= n <= ValueStart(part) && n <= |part| && after[i] == part[..n] + ANONYMIZED_VALUE)
  {
    RewrittenPartsSplit(message);
    RewrittenHidesValue(Split(message, '&')[i], SENSITIVE_DATA);
  }

  lemma RewrittenPartsSplit(message: string)
    ensures Split(Join(RewrittenParts(message), '&'), '&') == RewrittenParts(message)
  {
    forall p | p in RewrittenParts(message)
      ensures '&' !in p
    {
      var k :| 0 <= k < |RewrittenParts(message)| && RewrittenParts(message)[k] == p;
      SplitParts(message, '&', k);
      RewrittenIsPart(Split(message, '&')[k], SENSITIVE_DATA);
    }
    SplitJoin(RewrittenParts(message), '&');
  }

  // ---------------------------------------------------------------------------------
  // The recursion
  // ---------------------------------------------------------------------------------

  /** `url` is the rewritten text if the message is recognised as a connection URL. */
  function AnonymizeText(message: string, url: Option<string>): string {
    if message == "" then message
    else if url.Some? then url.value
    else if |Split(message, '&')| > 1 then Join(RewrittenParts(message), '&')
    else if MentionsSensitive(message) then ANONYMIZED_VALUE
    else message
  }

  /** `at` is where in the whole message this value stands. */
  function Anonymize(message: Json, urls: Path -> Option<string>, at: Path): Json {
    match message
    case Str(s) => Str(AnonymizeText(s, urls(at)))
    case Arr(items) =>
      Arr(seq(|items|, i requires 0 <= i < |items| => Anonymize(items[i], urls, at + [Index(i)])))
    case Obj(fields) =>
      Obj(map key | key in fields ::
        if IsException(key) then fields[key]
        else if IsSensitive(key) then Str(ANONYMIZED_VALUE)
        else Anonymize(fields[key], urls, at + [Key(key)]))
    case _ => message
  }

  predicate Stops(step: Segment) {
    step.Key? && (IsException(step.name) || IsSensitive(step.name))
  }

  /** How far the recursion follows a path: up to its first exempt or sensitive key. */
  function Followed(path: Path): (k: nat)
    ensures k <= |path| && (k < |path| ==> Stops(path[k]))
  {
    if path == [] || Stops(path[0]) then 0 else 1 + Followed(path[1..])
  }

  lemma {:induction false} NoStopBefore(path: Path, i: nat)
    requires i < Followed(path)
    ensures !Stops(path[i])
  {
    if i > 0 {
      NoStopBefore(path[1..], i - 1);
    }
  }

  /** What the result holds at a path of the message. */
  predicate AnonymizedAt(message: Json, result: Json, urls: Path -> Option<string>, at: Path, path: Path)
    requires Get(message, path).Some?
  {
    var k := Followed(path);
    if k == |path| then Get(result, path) == Some(Anonymize(Get(message, path).value, urls, at + path))
    else StoppedAt(message, result, path)
  }

  /** What it holds if the path has an exempt or sensitive key. */
  predicate StoppedAt(message: Json, result: Json, path: Path)
    requires Followed(path) < |path|
  {
    var k := Followed(path);
    if IsException(path[k].name) then Get(result, path) == Get(message, path)
    else Get(result, path[..k + 1]) == Some(Str(ANONYMIZED_VALUE))
  }

  /**
    The anonymiser acts at every depth: below an exempt key nothing changes, a sensitive key
    hides everything below it, and elsewhere each value is anonymised where it stands.
   */
  lemma {:induction false} ActsAtEveryPath(message: Json, urls: Path -> Option<string>, at: Path, path: Path)
    requires Get(message, path).Some?
    ensures AnonymizedAt(message, Anonymize(message, urls, at), urls, at, path)
  {
    if path == [] {
      assert at + path == at;
    } else if Stops(path[0]) {
      StopsHere(message, urls, at, path);
    } else {
      StepInto(message, urls, at, path[0]);
      ActsAtEveryPath(Child(message, path[0]).value, urls, at + [path[0]], path[1..]);
      StepOut(message, Anonymize(message, urls, at), urls, at, path);
    }
  }

  lemma StopsHere(message: Json, urls: Path -> Option<string>, at: Path, path: Path)
    requires path != [] && Stops(path[0]) && Get(message, path).Some?
    ensures AnonymizedAt(message, Anonymize(message, urls, at), urls, at, path)
  {
    var result := Anonymize(message, urls, at);
    ChildAtStop(message, urls, at, path[0]);
    assert Followed(path) == 0;
    assert path[..1] == [path[0]];
    GetOne(result, path[0]);
  }

  lemma ChildAtStop(message: Json, urls: Path -> Option<string>, at: Path, step: Segment)
    requires Child(message, step).Some? && Stops(step)
    ensures Child(Anonymize(message, urls, at), step) ==
              if IsException(step.name) then Child(message, step) else Some(Str(ANONYMIZED_VALUE))
  {
    var anonymized := Anonymize(message, urls, at);
    assert step.name in anonymized.fields;
  }

  lemma GetOne(j: Json, step: Segment)
    ensures Get(j, [step]) == Child(j, step)
  {
    assert [step][1..] == [];
  }

  lemma StepInto(message: Json, urls: Path -> Option<string>, at: Path, step: Segment)
    requires Child(message, step).Some? && !Stops(step)
    ensures Child(Anonymize(message, urls, at), step) == Some(Anonymize(Child(message, step).value, urls, at + [step]))
  {
  }

  lemma StepOut(message: Json, result: Json, urls: Path -> Option<string>, at: Path, path: Path)
    requires path != [] && !Stops(path[0]) && Get(message, path).Some? && Child(result, path[0]).Some?
    requires AnonymizedAt(Child(message, path[0]).value, Child(result, path[0]).value, urls, at + [path[0]], path[1..])
    ensures AnonymizedAt(message, result, urls, at, path)
  {
    assert at + [path[0]] + path[1..] == at + path;
    var k := Followed(path[1..]);
    assert Followed(path) == k + 1;
    if k < |path[1..]| {
      assert path[..k + 2][1..] == path[1..][..k + 1];
    }
  }

  /** A key that the recursion goes past: neither exempt nor, whatever the case, a sensitive name. */
  ghost predicate Plain(step: Segment) {
    step.Key? ==> step.name !in ["error", "stack"] && Lower(step.name) !in LOWER_NAMES
  }

  const LOWER_NAMES := ["firstname", "name", "repeatpassword", "password", "plainpassword", "captcha", "email"]

  lemma LowerNames()
    ensures |LOWER_NAMES| == |SENSITIVE_DATA| == 7
    ensures forall i :: 0 <= i < 7 ==> Lower(SENSITIVE_DATA[i]) == LOWER_NAMES[i]
  {
    forall i | 0 <= i < 7
      ensures Lower(SENSITIVE_DATA[i]) == LOWER_NAMES[i]
    {
      LowerIs(SENSITIVE_DATA[i], LOWER_NAMES[i]);
    }
  }

  lemma LowerIs(word: string, lower: string)
    requires |word| == |lower| && forall i :: 0 <= i < |word| ==> LowerChar(word[i]) == lower[i]
    ensures Lower(word) == lower
  {
  }

  lemma SensitiveIff(key: string)
    ensures IsSensitive(key) <==> Lower(key) in LOWER_NAMES
  {
    LowerNames();
  }

  lemma PlainGoesOn(step: Segment)
    ensures Plain(step) <==> !Stops(step)
  {
    if step.Key? {
      SensitiveIff(step.name);
      ExceptionIff(step.name);
    }
  }

  /** What becomes of a string that was not taken for a URL. */
  ghost predicate TextAnonymized(s: string, r: string) {
    var mentions := exists w <- LOWER_NAMES :: Contains(Lower(s), w);
    if '&' in s then Split(r, '&') == RewrittenParts(s)
    else r == if mentions then "####" else s
  }

  lemma MentionsIff(s: string)
    ensures MentionsSensitive(s) <==>
              exists w <- LOWER_NAMES :: Contains(Lower(s), w)
  {
    LowerNames();
    assert forall i :: 0 <= i < 7 ==> LOWER_NAMES[i] in LOWER_NAMES;
  }

  lemma TextIsAnonymized(s: string)
    ensures TextAnonymized(s, AnonymizeText(s, None))
  {
    SplitsIff(s, '&');
    if '&' in s {
      RewrittenPartsSplit(s);
    } else {
      MentionsIff(s);
      if s == "" {
        NothingInEmpty();
      }
    }
  }

  /** What a value has become; `url` is the text of a URL if it was taken for one. */
  ghost predicate ValueKept(v: Json, r: Json, url: Option<string>) {
    match v
    case Str(s) => r.Str? && if s != "" && url.Some? then r.s == url.value else TextAnonymized(s, r.s)
    case Arr(items) => r.Arr? && |r.items| == |items|
    case Obj(fields) => r.Obj? && r.fields.Keys == fields.Keys
    case _ => r == v
  }

  lemma ValueIsKept(v: Json, urls: Path -> Option<string>, at: Path)
    ensures ValueKept(v, Anonymize(v, urls, at), urls(at))
  {
    if v.Str? {
      TextIsAnonymized(v.s);
      assert AnonymizeText("", urls(at)) == AnonymizeText("", None);
    }
  }

  /**
    Along keys that are plain, and whatever indices, the anonymiser keeps every number, boolean
    and null, the length of every array and the keys of every object; strings become what they
    are to become.
   */
  lemma {:induction false} PlainPathsKept(message: Json, urls: Path -> Option<string>, at: Path, path: Path)
    requires Get(message, path).Some? && forall step <- path :: Plain(step)
    ensures Get(Anonymize(message, urls, at), path).Some?
    ensures ValueKept(Get(message, path).value, Get(Anonymize(message, urls, at), path).value, urls(at + path))
  {
    if path == [] {
      assert at + path == at;
      ValueIsKept(message, urls, at);
    } else {
      assert path[0] in path;
      PlainGoesOn(path[0]);
      StepInto(message, urls, at, path[0]);
      assert forall step <- path[1..] :: step in path;
      PlainPathsKept(Child(message, path[0]).value, urls, at + [path[0]], path[1..]);
      assert at + [path[0]] + path[1..] == at + path;
    }
  }

  lemma {:induction false} PlainThenStop(path: Path, k: nat)
    requires k < |path| && (forall i :: 0 <= i < k ==> Plain(path[i])) && Stops(path[k])
    ensures Followed(path) == k
  {
    if k > 0 {
      PlainGoesOn(path[0]);
      PlainThenStop(path[1..], k - 1);
    }
  }

  /** After plain steps, 'error' or 'stack' keeps everything below it. */
  lemma ExemptKept(message: Json, urls: Path -> Option<string>, path: Path, k: nat)
    requires k < |path| && (forall i :: 0 <= i < k ==> Plain(path[i])) && Get(message, path).Some?
    requires path[k] == Key("error") || path[k] == Key("stack")
    ensures Get(Anonymize(message, urls, []), path) == Get(message, path)
  {
    ExceptionIff(path[k].name);
    PlainThenStop(path, k);
    ActsAtEveryPath(message, urls, [], path);
    StopDecides(message, Anonymize(message, urls, []), path);
  }

  /** And any spelling of a sensitive name in capitals and small letters hides everything below it. */
  lemma SpellingsHidden(message: Json, urls: Path -> Option<string>, path: Path, k: nat)
    requires k < |path| && (forall i :: 0 <= i < k ==> Plain(path[i])) && Get(message, path).Some?
    requires path[k].Key? && Lower(path[k].name) in LOWER_NAMES
    ensures Get(Anonymize(message, urls, []), path[..k + 1]) == Some(Str("####"))
  {
    SensitiveIff(path[k].name);
    NamesNotExempt(path[k].name);
    PlainThenStop(path, k);
    ActsAtEveryPath(message, urls, [], path);
    StopDecides(message, Anonymize(message, urls, []), path);
  }

  lemma NamesNotExempt(key: string)
    requires Lower(key) in LOWER_NAMES
    ensures !IsException(key)
  {
    ExceptionIff(key);
    var i :| 0 <= i < |LOWER_NAMES| && LOWER_NAMES[i] == Lower(key);
    FiveLetters(i);
    assert |key| == 5 ==> Lower(key)[1] == LowerChar(key[1]);
  }

  lemma FiveLetters(i: nat)
    requires i < |LOWER_NAMES|
    ensures |LOWER_NAMES[i]| == 5 ==> LOWER_NAMES[i][1] == 'm'
  {
  }

  lemma StopDecides(message: Json, result: Json, path: Path)
    requires Followed(path) < |path| && StoppedAt(message, result, path)
    ensures var k := Followed(path);
            if IsException(path[k].name)
            then Get(result, path) == Get(message, path)
            else Get(result, path[..k + 1]) == Some(Str("####"))
  {
  }

  lemma ExceptionIff(key: string)
    ensures IsException(key) <==> key == "error" || key == "stack"
  {
    var keys := EXCEPTION_JSON_KEYS_IN_SENSITIVE_DATA;
    assert keys[0] == "error" && keys[1] == "stack";
  }

  /** The result has no path that the message does not have. */
  lemma {:induction false} NoNewPaths(message: Json, urls: Path -> Option<string>, at: Path, path: Path)
    requires Get(Anonymize(message, urls, at), path).Some?
    ensures Get(message, path).Some?
  {
    if path != [] {
      NoNewChild(message, urls, at, path[0]);
      if Stops(path[0]) {
        ChildAtStop(message, urls, at, path[0]);
        NoNewBelow(message, Anonymize(message, urls, at), path);
      } else {
        StepInto(message, urls, at, path[0]);
        NoNewPaths(Child(message, path[0]).value, urls, at + [path[0]], path[1..]);
      }
    }
  }

  lemma NoNewBelow(message: Json, result: Json, path: Path)
    requires path != [] && Get(result, path).Some? && Child(message, path[0]).Some?
    requires Child(result, path[0]) == Child(message, path[0]) || Child(result, path[0]) == Some(Str(ANONYMIZED_VALUE))
    ensures Get(message, path).Some?
  {
  }

  lemma NoNewChild(message: Json, urls: Path -> Option<string>, at: Path, step: Segment)
    requires Child(Anonymize(message, urls, at), step).Some?
    ensures Child(message, step).Some?
  {
  }

  lemma {:induction false} NothingBelowString(j: Json, path: Path, k: nat)
    requires k < |path| && Get(j, path[..k]).Some? && Get(j, path[..k]).value.Str?
    ensures Get(j, path).None?
  {
    if k > 0 {
      assert path[..k][1..] == path[1..][..k - 1];
      NothingBelowString(Child(j, path[0]).value, path[1..], k - 1);
    }
  }

  predicate NoException(path: Path) {
    forall step <- path :: step.Key? ==> !IsException(step.name)
  }

  /** In the result, every sensitive key that is not below an exempt one holds '####'. */
  lemma SensitiveKeysHidden(message: Json, urls: Path -> Option<string>, path: Path)
    requires path != [] && path[|path| - 1].Key? && IsSensitive(path[|path| - 1].name) && NoException(path)
    requires Get(Anonymize(message, urls, []), path).Some?
    ensures Get(Anonymize(message, urls, []), path) == Some(Str(ANONYMIZED_VALUE))
  {
    NoNewPaths(message, urls, [], path);
    ActsAtEveryPath(message, urls, [], path);
    var k := Followed(path);
    if k == |path| {
      NoStopBefore(path, k - 1);
    }
    assert path[k] in path;
    if k + 1 < |path| {
      NothingBelowString(Anonymize(message, urls, []), path, k + 1);
    } else {
      assert path[..k + 1] == path;
    }
  }

  lemma Absent(text: string, word: string)
    requires word != "" && word[0] !in text
    ensures !Contains(text, word)
  {
    forall i | 0 <= i <= |text| - |word|
      ensures !OccursAt(text, word, i)
    {
      assert text[i..i + |word|][0] == text[i] && text[i] in text;
    }
  }

  lemma NothingInHashes()
    ensures !MentionsSensitive(ANONYMIZED_VALUE)
  {
    assert forall c <- Lower(ANONYMIZED_VALUE) :: c == '#';
    forall i | 0 <= i < |SENSITIVE_DATA|
      ensures !Contains(Lower(ANONYMIZED_VALUE), Lower(SENSITIVE_DATA[i]))
    {
      Absent(Lower(ANONYMIZED_VALUE), Lower(SENSITIVE_DATA[i]));
    }
  }

  lemma TextHides(message: string)
    requires |Split(AnonymizeText(message, None), '&')| == 1
    ensures !MentionsSensitive(AnonymizeText(message, None))
  {
    NothingInHashes();
    QueryValuesHidden(message, 0);
    if message == "" {
      NothingInEmpty();
    }
  }

  lemma NothingInEmpty()
    ensures !MentionsSensitive("")
  {
    forall i | 0 <= i < |SENSITIVE_DATA|
      ensures !Contains(Lower(""), Lower(SENSITIVE_DATA[i]))
    {
      Absent(Lower(""), Lower(SENSITIVE_DATA[i]));
    }
  }

  /**
    In the result, no string outside the exempt keys mentions a sensitive name, unless it was
    recognised as a URL or is a query string.
   */
  lemma NoSensitiveMention(message: Json, urls: Path -> Option<string>, path: Path, s: string)
    requires NoException(path) && urls(path).None?
    requires Get(Anonymize(message, urls, []), path) == Some(Str(s)) && |Split(s, '&')| == 1
    ensures !MentionsSensitive(s)
  {
    NoNewPaths(message, urls, [], path);
    ActsAtEveryPath(message, urls, [], path);
    if Followed(path) == |path| {
      assert [] + path == path;
      TextHides(Get(message, path).value.s);
    } else {
      MaskedThere(message, Anonymize(message, urls, []), path, s);
      NothingInHashes();
    }
  }

  /** Behind a sensitive key there is nothing but the mask. */
  lemma MaskedThere(message: Json, result: Json, path: Path, s: string)
    requires NoException(path) && Followed(path) < |path| && StoppedAt(message, result, path)
    requires Get(result, path) == Some(Str(s))
    ensures s == ANONYMIZED_VALUE
  {
    var k := Followed(path);
    assert path[k] in path;
    if k + 1 < |path| {
      NothingBelowString(result, path, k + 1);
    } else {
      assert path[..k + 1] == path;
    }
  }
}
