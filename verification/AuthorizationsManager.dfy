/**
  The authorization result cache and the condition that fills the caller's context. Cached
  results keep the context object of the caller they were first computed for.
 */
module AuthorizationsManager {
  import opened Prelude
  import opened Json
  import opened Text

  /** An array of filter or assert names, and a metadata record: both have an identity. */
  class NameList {
    var names: seq<string>

    constructor (names: seq<string>)
      ensures this.names == names
    {
      this.names := names;
    }
  }

  class Metadata {
    var fields: map<string, string>

    constructor ()
      ensures fields == map[]
    {
      fields := map[];
    }
  }

  function NamesOf(list: NameList?): Option<seq<string>>
    reads list
  {
    if list == null then None else Some(list.names)
  }

  function FieldsOf(metadata: Metadata?): Option<map<string, string>>
    reads metadata
  {
    if metadata == null then None else Some(metadata.fields)
  }

  /** What can be read from a context; `None` and false stand for an absent property. */
  datatype Contents = Contents(
    filters: Option<seq<string>>, filtersSet: bool,
    asserts: Option<seq<string>>, assertsSet: bool,
    metadata: Option<map<string, string>>, metadataSet: bool,
    others: map<string, Json>)

  class AuthorizationContext {
    var filters: NameList?
    var filtersSet: bool
    var asserts: NameList?
    var assertsSet: bool
    var metadata: Metadata?
    var metadataSet: bool
    var others: map<string, Json>  // owner, tagIDs, sites, ...

    /** A context as callers build it: the condition has not touched it yet. */
    constructor (others: map<string, Json>)
      ensures Value() == Fresh(others) && filters == null && asserts == null && metadata == null
    {
      filters, asserts, metadata := null, null, null;
      filtersSet, assertsSet, metadataSet := false, false, false;
      this.others := others;
    }

    function Value(): Contents
      reads this, filters, asserts, metadata
    {
      Contents(
        NamesOf(filters), filtersSet, NamesOf(asserts), assertsSet, FieldsOf(metadata), metadataSet, others)
    }

    method FillFilters(supply: NameList?)
      modifies this`filters, this`filtersSet
      ensures filters != null && (filters == old(filters) || fresh(filters))
      ensures !old(filtersSet) && supply != null ==> filters.names == old(supply.names)
      ensures (NamesOf(filters), filtersSet) == Settle(old(NamesOf(filters)), old(filtersSet), old(NamesOf(supply)), [])
    {
      if filters == null {
        filters := new NameList([]);
      }
      if !filtersSet && supply != null {
        filters := new NameList(supply.names);
        filtersSet := true;
      }
    }

    method FillAsserts(supply: NameList?)
      modifies this`asserts, this`assertsSet
      ensures asserts != null && (asserts == old(asserts) || fresh(asserts))
      ensures !old(assertsSet) && supply != null ==> asserts.names == old(supply.names)
      ensures (NamesOf(asserts), assertsSet) == Settle(old(NamesOf(asserts)), old(assertsSet), old(NamesOf(supply)), [])
    {
      if asserts == null {
        asserts := new NameList([]);
      }
      if !assertsSet && supply != null {
        asserts := new NameList(supply.names);
        assertsSet := true;
      }
    }

    method FillMetadata(supply: Metadata?)
      modifies this`metadata, this`metadataSet
      ensures metadata != null && (metadata == old(metadata) || fresh(metadata) || metadata == supply)
      ensures !old(metadataSet) && supply != null ==> metadata == supply
      ensures (FieldsOf(metadata), metadataSet)
              == Settle(old(FieldsOf(metadata)), old(metadataSet), old(FieldsOf(supply)), map[])
    {
      if metadata == null {
        metadata := new Metadata();
      }
      if !metadataSet && supply != null {
        metadata := supply;
        metadataSet := true;
      }
    }
  }

  function Fresh(others: map<string, Json>): Contents {
    Contents(None, false, None, false, None, false, others)
  }

  /** The arguments of one grant in the definition table. */
  datatype Args = Args(filters: NameList?, asserts: NameList?, metadata: Metadata?)

  datatype Supply = Supply(
    filters: Option<seq<string>>, asserts: Option<seq<string>>, metadata: Option<map<string, string>>)

  function Supplied(args: Args): Supply
    reads args.filters, args.asserts, args.metadata
  {
    Supply(NamesOf(args.filters), NamesOf(args.asserts), FieldsOf(args.metadata))
  }

  // ---------------------------------------------------------------------------------
  // dynamicAuthorizations
  // ---------------------------------------------------------------------------------

  /** One property: set at most once, empty by default, and an empty supply counts. */
  function Settle<T>(current: Option<T>, isSet: bool, supply: Option<T>, default: T): (Option<T>, bool) {
    if !isSet && supply.Some? then (supply, true)
    else (Some(if current.Some? then current.value else default), isSet)
  }

  function Enrich(v: Contents, s: Supply): Contents {
    var (filters, filtersSet) := Settle(v.filters, v.filtersSet, s.filters, []);
    var (asserts, assertsSet) := Settle(v.asserts, v.assertsSet, s.asserts, []);
    var (metadata, metadataSet) := Settle(v.metadata, v.metadataSet, s.metadata, map[]);
    Contents(filters, filtersSet, asserts, assertsSet, metadata, metadataSet, v.others)
  }

  function EnrichAll(v: Contents, supplies: seq<Supply>): Contents
    decreases |supplies|
  {
    if supplies == [] then v else EnrichAll(Enrich(v, supplies[0]), supplies[1..])
  }

  /**
    Copies the names into new arrays, so no context ever shares them with the definition
    table; metadata is the table's own record.
   */
  method DynamicAuthorizations(context: AuthorizationContext?, args: Args) returns (granted: bool)
    modifies context
    ensures granted
    ensures context != null ==> context.Value() == Enrich(old(context.Value()), Supplied(args))
    ensures context != null ==> context.filters == old(context.filters) || fresh(context.filters)
    ensures context != null ==> context.asserts == old(context.asserts) || fresh(context.asserts)
    ensures context != null && !old(context.metadataSet) && args.metadata != null ==> context.metadata == args.metadata
  {
    if context != null {
      context.FillFilters(args.filters);
      context.FillAsserts(args.asserts);
      context.FillMetadata(args.metadata);
    }
    granted := true;
  }

  /** The first value supplied for a property. */
  function First<T>(values: seq<Option<T>>): Option<T> {
    if values == [] then None else if values[0].Some? then values[0] else First(values[1..])
  }

  function FiltersOf(supplies: seq<Supply>): seq<Option<seq<string>>> {
    seq(|supplies|, i requires 0 <= i < |supplies| => supplies[i].filters)
  }

  function AssertsOf(supplies: seq<Supply>): seq<Option<seq<string>>> {
    seq(|supplies|, i requires 0 <= i < |supplies| => supplies[i].asserts)
  }

  function MetadataOf(supplies: seq<Supply>): seq<Option<map<string, string>>> {
    seq(|supplies|, i requires 0 <= i < |supplies| => supplies[i].metadata)
  }

  function OrElse<T>(a: Option<T>, b: T): T {
    if a.Some? then a.value else b
  }

  /**
    After any number of conditions each property holds the first value supplied for it, the
    three independently, and is marked as set exactly when one was supplied.
   */
  lemma {:induction false} FirstSupplierWins(v: Contents, supplies: seq<Supply>)
    requires supplies != []
    ensures var r := EnrichAll(v, supplies);
            var f, a, m := First(FiltersOf(supplies)), First(AssertsOf(supplies)), First(MetadataOf(supplies));
            && r.filters == Some(if v.filtersSet then OrElse(v.filters, []) else OrElse(f, OrElse(v.filters, [])))
            && r.asserts == Some(if v.assertsSet then OrElse(v.asserts, []) else OrElse(a, OrElse(v.asserts, [])))
            && r.metadata ==
                 Some(if v.metadataSet then OrElse(v.metadata, map[]) else OrElse(m, OrElse(v.metadata, map[])))
            && r.filtersSet == (v.filtersSet || f.Some?)
            && r.assertsSet == (v.assertsSet || a.Some?)
            && r.metadataSet == (v.metadataSet || m.Some?)
            && r.others == v.others
    decreases |supplies|
  {
    assert FiltersOf(supplies)[1..] == FiltersOf(supplies[1..]);
    assert AssertsOf(supplies)[1..] == AssertsOf(supplies[1..]);
    assert MetadataOf(supplies)[1..] == MetadataOf(supplies[1..]);
    if |supplies| > 1 {
      FirstSupplierWins(Enrich(v, supplies[0]), supplies[1..]);
    } else {
      assert supplies[1..] == [];
    }
  }

  /** Conditions that come again change nothing. */
  lemma RepetitionChangesNothing(v: Contents, supplies: seq<Supply>, again: seq<Supply>)
    requires forall s <- again :: s in supplies
    ensures EnrichAll(EnrichAll(v, supplies), again) == EnrichAll(v, supplies)
  {
    if again != [] {
      assert again[0] in again;
      FirstSupplierWins(v, supplies);
      var r := EnrichAll(v, supplies);
      var i :| 0 <= i < |supplies| && supplies[i] == again[0];
      if supplies[i].filters.Some? { FirstOfAny(FiltersOf(supplies), i); }
      if supplies[i].asserts.Some? { FirstOfAny(AssertsOf(supplies), i); }
      if supplies[i].metadata.Some? { FirstOfAny(MetadataOf(supplies), i); }
      assert Enrich(r, again[0]) == r;
      RepetitionChangesNothing(v, supplies, again[1..]);
    }
  }

  lemma {:induction false} FirstOfAny<T>(values: seq<Option<T>>, i: nat)
    requires i < |values| && values[i].Some?
    ensures First(values).Some?
  {
    if values[0].None? {
      FirstOfAny(values[1..], i - 1);
    }
  }

  // ---------------------------------------------------------------------------------
  // The cache key
  // ---------------------------------------------------------------------------------

  datatype Request = Request(roles: seq<string>, resource: string, action: string)

  /** The roles are joined by `toString()`. */
  function AuthID(req: Request, json: string): string {
    Join(req.roles, ',') + "~" + req.resource + "~" + req.action + "~" + json + "}"
  }

  /** Role names are not empty and hold neither ',' nor '~'; no '~' in resource or action. */
  predicate WellNamed(req: Request) {
    && (forall r <- req.roles :: r != "" && ',' !in r && '~' !in r)
    && '~' !in req.resource && '~' !in req.action
  }

  lemma {:induction false} JoinHolds(names: seq<string>)
    ensures forall c <- Join(names, ',') :: c == ',' || exists r <- names :: c in r
  {
    if |names| > 1 {
      JoinHolds(names[1..]);
      forall c | c in Join(names, ',')
        ensures c == ',' || exists r <- names :: c in r
      {
        if c in names[0] {
          assert names[0] in names;
        } else if c != ',' {
          assert c in Join(names[1..], ',');
          var r :| r in names[1..] && c in r;
          assert r in names;
        }
      }
    } else if |names| == 1 {
      assert names[0] in names;
    }
  }

  lemma {:induction false} JoinInjective(a: seq<string>, b: seq<string>)
    requires (forall r <- a :: r != "" && ',' !in r) && (forall r <- b :: r != "" && ',' !in r)
    requires Join(a, ',') == Join(b, ',')
    ensures a == b
  {
    if a != [] { assert a[0] in a; }
    if b != [] { assert b[0] in b; }
    if |a| > 1 { assert Join(a, ',') == a[0] + [','] + Join(a[1..], ','); }
    if |b| > 1 { assert Join(b, ',') == b[0] + [','] + Join(b[1..], ','); }
    if |a| > 1 && |b| > 1 {
      FirstField(',', a[0], Join(a[1..], ','), b[0], Join(b[1..], ','));
      assert (forall r <- a[1..] :: r in a) && (forall r <- b[1..] :: r in b);
      JoinInjective(a[1..], b[1..]);
      assert a == [a[0]] + a[1..] && b == [b[0]] + b[1..];
    }
  }

  lemma ThreeFields(a: string, b: string, c: string, x: string, a': string, b': string, c': string, x': string)
    requires '~' !in a && '~' !in b && '~' !in c && '~' !in a' && '~' !in b' && '~' !in c'
    requires a + "~" + b + "~" + c + "~" + x == a' + "~" + b' + "~" + c' + "~" + x'
    ensures a == a' && b == b' && c == c' && x == x'
  {
    assert a + "~" + b + "~" + c + "~" + x == a + ['~'] + (b + "~" + c + "~" + x);
    assert a' + "~" + b' + "~" + c' + "~" + x' == a' + ['~'] + (b' + "~" + c' + "~" + x');
    FirstField('~', a, b + "~" + c + "~" + x, a', b' + "~" + c' + "~" + x');
    assert b + "~" + c + "~" + x == b + ['~'] + (c + "~" + x);
    assert b' + "~" + c' + "~" + x' == b' + ['~'] + (c' + "~" + x');
    FirstField('~', b, c + "~" + x, b', c' + "~" + x');
    FirstField('~', c, x, c', x');
  }

  /** Equal keys come from equal requests on contexts with the same JSON, '~' in the JSON included. */
  lemma AuthIDInjective(r1: Request, j1: string, r2: Request, j2: string)
    requires WellNamed(r1) && WellNamed(r2) && AuthID(r1, j1) == AuthID(r2, j2)
    ensures r1 == r2 && j1 == j2
  {
    JoinHolds(r1.roles);
    JoinHolds(r2.roles);
    assert AuthID(r1, j1) == Join(r1.roles, ',') + "~" + r1.resource + "~" + r1.action + "~" + (j1 + "}");
    assert AuthID(r2, j2) == Join(r2.roles, ',') + "~" + r2.resource + "~" + r2.action + "~" + (j2 + "}");
    ThreeFields(Join(r1.roles, ','), r1.resource, r1.action, j1 + "}",
                Join(r2.roles, ','), r2.resource, r2.action, j2 + "}");
    JoinInjective(r1.roles, r2.roles);
    assert j1 == (j1 + "}")[..|j1|] && j2 == (j2 + "}")[..|j2|];
  }

  datatype Field = RolesField | ResourceField | ActionField

  predicate HoldsNone(c: char, req: Request, f: Field) {
    match f
    case RolesField => c !in Join(req.roles, ',')
    case ResourceField => c !in req.resource
    case ActionField => c !in req.action
  }

  predicate RolesNamed(req: Request) {
    forall r <- req.roles :: r != "" && ',' !in r
  }

  lemma AnyOneField(a: string, b: string, c: string, a': string, b': string, c': string, f: Field)
    requires a + "~" + b + "~" + c == a' + "~" + b' + "~" + c'
    requires f == RolesField || ('~' !in a && '~' !in a')
    requires f == ResourceField || ('~' !in b && '~' !in b')
    requires f == ActionField || ('~' !in c && '~' !in c')
    ensures a == a' && b == b' && c == c'
  {
    if f != ActionField {
      LastField('~', a + "~" + b, c, a' + "~" + b', c');
      if f == RolesField {
        LastField('~', a, b, a', b');
      } else {
        FirstField('~', a, b, a', b');
      }
    } else {
      assert a + "~" + b + "~" + c == a + ['~'] + (b + "~" + c);
      assert a' + "~" + b' + "~" + c' == a' + ['~'] + (b' + "~" + c');
      FirstField('~', a, b + "~" + c, a', b' + "~" + c');
      FirstField('~', b, c, b', c');
    }
  }

  /** The JSON of an object begins with '{': with no '{' in names, any one kind of field may even hold '~'. */
  lemma TildeInOneField(r1: Request, j1: string, r2: Request, j2: string, f: Field)
    requires RolesNamed(r1) && RolesNamed(r2) && AuthID(r1, "{" + j1) == AuthID(r2, "{" + j2)
    requires forall g: Field :: HoldsNone('{', r1, g) && HoldsNone('{', r2, g)
    requires forall g: Field :: g != f ==> HoldsNone('~', r1, g) && HoldsNone('~', r2, g)
    ensures r1 == r2 && j1 == j2
  {
    var x1 := Join(r1.roles, ',') + "~" + r1.resource + "~" + r1.action;
    var x2 := Join(r2.roles, ',') + "~" + r2.resource + "~" + r2.action;
    assert HoldsNone('{', r1, RolesField) && HoldsNone('{', r1, ResourceField) && HoldsNone('{', r1, ActionField);
    assert HoldsNone('{', r2, RolesField) && HoldsNone('{', r2, ResourceField) && HoldsNone('{', r2, ActionField);
    assert AuthID(r1, "{" + j1) == (x1 + "~") + ['{'] + (j1 + "}");
    assert AuthID(r2, "{" + j2) == (x2 + "~") + ['{'] + (j2 + "}");
    FirstField('{', x1 + "~", j1 + "}", x2 + "~", j2 + "}");
    assert x1 == (x1 + "~")[..|x1|] && x2 == (x2 + "~")[..|x2|];
    assert j1 == (j1 + "}")[..|j1|] && j2 == (j2 + "}")[..|j2|];
    assert f != RolesField ==> HoldsNone('~', r1, RolesField) && HoldsNone('~', r2, RolesField);
    assert f != ResourceField ==> HoldsNone('~', r1, ResourceField) && HoldsNone('~', r2, ResourceField);
    assert f != ActionField ==> HoldsNone('~', r1, ActionField) && HoldsNone('~', r2, ActionField);
    AnyOneField(Join(r1.roles, ','), r1.resource, r1.action, Join(r2.roles, ','), r2.resource, r2.action, f);
    JoinInjective(r1.roles, r2.roles);
  }

  /** On one context: no role, an empty role and a ',' confuse requests, and so does '~' in any two kinds of field. */
  lemma KeysThatCollide(json: string)
    ensures AuthID(Request([], "r", "a"), json) == AuthID(Request([""], "r", "a"), json)
    ensures AuthID(Request(["x,y"], "r", "a"), json) == AuthID(Request(["x", "y"], "r", "a"), json)
    ensures AuthID(Request(["x~r"], "s", "a"), json) == AuthID(Request(["x"], "r~s", "a"), json)
    ensures AuthID(Request(["x~r"], "s", "a"), json) == AuthID(Request(["x"], "r", "s~a"), json)
    ensures AuthID(Request(["x"], "r~s", "a"), json) == AuthID(Request(["x"], "r", "s~a"), json)
  {
    assert Join(["x", "y"], ',') == "x" + "," + Join(["y"], ',');
    assert ["x", "y"][1..] == ["y"];
    var text := "x~r~s~a~" + json + "}";
    assert AuthID(Request(["x~r"], "s", "a"), json) == text;
    assert AuthID(Request(["x"], "r~s", "a"), json) == text;
    assert AuthID(Request(["x"], "r", "s~a"), json) == text;
  }

  /** Were contexts any text, '~' in one kind of field would be enough. */
  lemma TextsThatCollide(text: string)
    ensures AuthID(Request(["x~r"], "s", "a"), text) == AuthID(Request(["x"], "r", "s"), "a~" + text)
    ensures AuthID(Request(["x"], "r~s", "a"), text) == AuthID(Request(["x"], "r", "s"), "a~" + text)
    ensures AuthID(Request(["x"], "r", "s~a"), text) == AuthID(Request(["x"], "r", "s"), "a~" + text)
  {
    var all := "x~r~s~a~" + text + "}";
    assert AuthID(Request(["x~r"], "s", "a"), text) == all;
    assert AuthID(Request(["x"], "r~s", "a"), text) == all;
    assert AuthID(Request(["x"], "r", "s~a"), text) == all;
    assert AuthID(Request(["x"], "r", "s"), "a~" + text) == all;
  }

  // ---------------------------------------------------------------------------------
  // canPerformAction
  // ---------------------------------------------------------------------------------

  /**
    The access control engine: what it decides, and which grants' conditions it calls on the
    way, depend on the request and on what the context holds when it is asked.
   */
  datatype AccessControl = AccessControl(
    granted: (Request, Contents) -> bool,
    attributes: (Request, Contents) -> seq<string>,
    conditions: (Request, Contents) -> seq<nat>)

  /** Frozen, but only the outer object: the context stays writable. */
  datatype AuthorizationResult = AuthorizationResult(
    authorized: bool, fields: seq<string>, context: AuthorizationContext)

  /** What the conditions called for a request supply, in order; unknown grants supply nothing. */
  function Supplies(definition: seq<Supply>, grants: seq<nat>): seq<Supply> {
    seq(|grants|, i requires 0 <= i < |grants| =>
      if grants[i] < |definition| then definition[grants[i]] else Supply(None, None, None))
  }

  /** The context an uncached evaluation leaves behind. */
  function Final(ac: AccessControl, definition: seq<Supply>, req: Request, v: Contents): Contents {
    EnrichAll(v, Supplies(definition, ac.conditions(req, v)))
  }

  lemma {:induction false} FirstAt<T>(values: seq<Option<T>>, i: nat)
    requires i < |values| && values[i].Some? && forall j :: 0 <= j < i ==> values[j].None?
    ensures First(values) == values[i]
  {
    if i > 0 {
      FirstAt(values[1..], i - 1);
    }
  }

  lemma {:induction false} FirstNowhere<T>(values: seq<Option<T>>)
    requires forall j :: 0 <= j < |values| ==> values[j].None?
    ensures First(values).None?
  {
    if values != [] {
      FirstNowhere(values[1..]);
    }
  }

  /**
    One property, before and after, of conditions called in the order `grants`: the first of them
    that supplies it decides if it was not set yet; else it is as it was, empty if it was absent.
   */
  ghost predicate FirstCalledDecides<T>(
    column: seq<Option<T>>, grants: seq<nat>, before: Option<T>, wasSet: bool, after: Option<T>, isSet: bool, empty: T)
  {
    && (forall i ::
          0 <= i < |grants| && !wasSet && grants[i] < |column| && column[grants[i]].Some?
          && (forall j :: 0 <= j < i && grants[j] < |column| ==> column[grants[j]].None?) ==>
            after == column[grants[i]] && isSet)
    && (wasSet || (forall i :: 0 <= i < |grants| && grants[i] < |column| ==> column[grants[i]].None?) ==>
          isSet == wasSet && after == if grants == [] || before.Some? then before else Some(empty))
  }

  lemma ColumnDecides<T>(column: seq<Option<T>>, grants: seq<nat>, values: seq<Option<T>>, before: Option<T>,
                         wasSet: bool, after: Option<T>, isSet: bool, empty: T)
    requires grants != [] && |values| == |grants|
    requires forall i :: 0 <= i < |grants| ==> values[i] == if grants[i] < |column| then column[grants[i]] else None
    requires after == Some(if wasSet then OrElse(before, empty) else OrElse(First(values), OrElse(before, empty)))
    requires isSet == (wasSet || First(values).Some?)
    ensures FirstCalledDecides(column, grants, before, wasSet, after, isSet, empty)
  {
    forall i |
      0 <= i < |grants| && !wasSet && grants[i] < |column| && column[grants[i]].Some?
      && (forall j :: 0 <= j < i && grants[j] < |column| ==> column[grants[j]].None?)
      ensures after == column[grants[i]] && isSet
    {
      FirstAt(values, i);
    }
    if forall i :: 0 <= i < |grants| && grants[i] < |column| ==> column[grants[i]].None? {
      FirstNowhere(values);
    }
  }

  /** The three properties alike, each for itself; everything else stays. */
  ghost predicate FirstCalledWins(definition: seq<Supply>, grants: seq<nat>, v: Contents, r: Contents) {
    && FirstCalledDecides(seq(|definition|, g requires 0 <= g < |definition| => definition[g].filters), grants,
                          v.filters, v.filtersSet, r.filters, r.filtersSet, [])
    && FirstCalledDecides(seq(|definition|, g requires 0 <= g < |definition| => definition[g].asserts), grants,
                          v.asserts, v.assertsSet, r.asserts, r.assertsSet, [])
    && FirstCalledDecides(seq(|definition|, g requires 0 <= g < |definition| => definition[g].metadata), grants,
                          v.metadata, v.metadataSet, r.metadata, r.metadataSet, map[])
    && r.others == v.others
  }

  lemma FinalIsOfFirstCalled(ac: AccessControl, definition: seq<Supply>, req: Request, v: Contents)
    ensures FirstCalledWins(definition, ac.conditions(req, v), v, Final(ac, definition, req, v))
  {
    var grants, r := ac.conditions(req, v), Final(ac, definition, req, v);
    var supplies := Supplies(definition, grants);
    if grants != [] {
      FirstSupplierWins(v, supplies);
      ColumnDecides(FiltersOf(definition), grants, FiltersOf(supplies), v.filters, v.filtersSet,
                    r.filters, r.filtersSet, []);
      ColumnDecides(AssertsOf(definition), grants, AssertsOf(supplies), v.asserts, v.assertsSet,
                    r.asserts, r.assertsSet, []);
      ColumnDecides(MetadataOf(definition), grants, MetadataOf(supplies), v.metadata, v.metadataSet,
                    r.metadata, r.metadataSet, map[]);
    }
  }

  /** The property is there already, and nothing would set it. */
  predicate Settled<T>(current: Option<T>, isSet: bool, supplies: seq<Option<T>>) {
    current.Some? && (isSet || First(supplies).None?)
  }

  /** Evaluating leaves the context as it is: no condition is called, or all three properties are settled. */
  predicate Leaves(ac: AccessControl, definition: seq<Supply>, req: Request, v: Contents) {
    var supplies := Supplies(definition, ac.conditions(req, v));
    || supplies == []
    || (Settled(v.filters, v.filtersSet, FiltersOf(supplies)) && Settled(v.asserts, v.assertsSet, AssertsOf(supplies))
        && Settled(v.metadata, v.metadataSet, MetadataOf(supplies)))
  }

  lemma LeavesIsFinal(ac: AccessControl, definition: seq<Supply>, req: Request, v: Contents)
    ensures Leaves(ac, definition, req, v) <==> Final(ac, definition, req, v) == v
  {
    var supplies := Supplies(definition, ac.conditions(req, v));
    if supplies != [] {
      FirstSupplierWins(v, supplies);
    }
  }

  /** Evaluation only adds to a context, so copying the result over the input gives the result. */
  lemma {:induction false} OverlayIsFinal(v: Contents, supplies: seq<Supply>)
    ensures Overlay(v, EnrichAll(v, supplies)) == EnrichAll(v, supplies)
  {
    if supplies != [] {
      FirstSupplierWins(v, supplies);
    }
    assert v.others + v.others == v.others;
  }

  datatype Call = Call(req: Request, context: AuthorizationContext, json: string)

  /** How far a call has come; the lookup and the store are apart. */
  datatype Phase =
    | Waiting
    | Missed
    | Evaluated(granted: bool, attributes: seq<string>)
    | Answered(result: AuthorizationResult)

  /** Calls in progress; `given` is what each context held in the beginning. */
  datatype Run = Run(calls: seq<Call>, given: seq<Contents>, phases: seq<Phase>)

  function Rank(phase: Phase): nat {
    match phase
    case Waiting => 3
    case Missed => 2
    case Evaluated(_, _) => 1
    case Answered(_) => 0
  }

  function StepsLeft(phases: seq<Phase>): nat {
    if phases == [] then 0 else Rank(phases[0]) + StepsLeft(phases[1..])
  }

  lemma {:induction false} StepsUpdate(phases: seq<Phase>, i: nat, phase: Phase)
    requires i < |phases|
    ensures StepsLeft(phases[i := phase]) == StepsLeft(phases) - Rank(phases[i]) + Rank(phase)
  {
    if i == 0 {
      assert phases[0 := phase][1..] == phases[1..];
    } else {
      assert phases[i := phase][1..] == phases[1..][i - 1 := phase];
      StepsUpdate(phases[1..], i - 1, phase);
    }
  }

  // An engine that calls one condition, for the action "Read".

  function ListTags(): Request {
    Request(["A"], "Tag", "List")
  }

  function ReadTag(): Request {
    Request(["A"], "Tag", "Read")
  }

  function ReadAddsAsserts(): AccessControl {
    AccessControl((req: Request, v: Contents) => true, (req: Request, v: Contents) => [],
                  (req: Request, v: Contents) => if req.action == "Read" then [0] else [])
  }

  function OwnerAsserts(): seq<Supply> {
    [Supply(None, Some(["owner"]), None)]
  }

  lemma ReadTagChanges()
    ensures WellNamed(ListTags()) && WellNamed(ReadTag())
    ensures Final(ReadAddsAsserts(), OwnerAsserts(), ListTags(), Fresh(map[])) == Fresh(map[])
    ensures Final(ReadAddsAsserts(), OwnerAsserts(), ReadTag(), Fresh(map[])) != Fresh(map[])
    ensures !Leaves(ReadAddsAsserts(), OwnerAsserts(), ReadTag(), Fresh(map[]))
    ensures AuthID(ListTags(), "{}") != AuthID(ReadTag(), "{}")
  {
    LeavesIsFinal(ReadAddsAsserts(), OwnerAsserts(), ListTags(), Fresh(map[]));
    LeavesIsFinal(ReadAddsAsserts(), OwnerAsserts(), ReadTag(), Fresh(map[]));
    if AuthID(ListTags(), "{}") == AuthID(ReadTag(), "{}") {
      AuthIDInjective(ListTags(), "{}", ReadTag(), "{}");
    }
  }

  function ContextsOf(calls: seq<Call>): set<AuthorizationContext> {
    set call <- calls :: call.context
  }

  class AuthorizationsManager {
    const accessControl: AccessControl
    const table: seq<Args>             // the arguments of the grants in the definition
    const parse: string -> Contents    // what a JSON text stands for
    var authorizationCache: map<string, AuthorizationResult>
    ghost const definition: seq<Supply>  // what the table holds; nobody writes to its arrays
    ghost var asked: map<string, (Request, string)>  // the request and context JSON behind each key

    constructor (accessControl: AccessControl, table: seq<Args>, parse: string -> Contents,
                 ghost definition: seq<Supply>)
      requires |definition| == |table| && forall i :: 0 <= i < |table| ==> Supplied(table[i]) == definition[i]
      ensures Valid() && authorizationCache == map[]
      ensures this.accessControl == accessControl && this.table == table && this.parse == parse
    {
      this.accessControl, this.table, this.parse := accessControl, table, parse;
      this.definition := definition;
      authorizationCache, asked := map[], map[];
    }

    /** The entry is what a fresh evaluation of that request would give now. */
    ghost predicate IsFresh(r: AuthorizationResult, req: Request, v: Contents)
      reads *
    {
      && r.authorized == accessControl.granted(req, v)
      && r.fields == accessControl.attributes(req, v)
      && r.context.Value() == Final(accessControl, definition, req, v)
    }

    ghost predicate Valid()
      reads *
    {
      WellKept() && forall k <- authorizationCache :: Sound(k)
    }

    ghost predicate WellKept()
      reads *
    {
      TableUnwritten() && authorizationCache.Keys == asked.Keys
    }

    ghost predicate TableUnwritten()
      reads *
    {
      |definition| == |table| && forall i :: 0 <= i < |table| ==> Supplied(table[i]) == definition[i]
    }

    ghost predicate Sound(k: string)
      requires k in authorizationCache && k in asked
      reads *
    {
      WellNamed(asked[k].0) && AuthID(asked[k].0, asked[k].1) == k
      && IsFresh(authorizationCache[k], asked[k].0, parse(asked[k].1))
    }

    /** No cached result keeps this context. */
    ghost predicate Unshared(context: AuthorizationContext)
      reads this
    {
      forall k <- authorizationCache :: authorizationCache[k].context != context
    }

    /** The engine at work on the caller's context. */
    method Evaluate(req: Request, context: AuthorizationContext) returns (granted: bool, attributes: seq<string>)
      requires TableUnwritten()
      modifies context
      ensures granted == accessControl.granted(req, old(context.Value()))
      ensures attributes == accessControl.attributes(req, old(context.Value()))
      ensures context.Value() == Final(accessControl, definition, req, old(context.Value()))
      ensures FirstCalledWins(definition, accessControl.conditions(req, old(context.Value())), old(context.Value()),
                              context.Value())
      ensures context.filters == old(context.filters) || fresh(context.filters)
      ensures context.asserts == old(context.asserts) || fresh(context.asserts)
    {
      granted := accessControl.granted(req, context.Value());
      attributes := accessControl.attributes(req, context.Value());
      CallConditions(accessControl.conditions(req, context.Value()), context);
      FinalIsOfFirstCalled(accessControl, definition, req, old(context.Value()));
    }

    method CallConditions(grants: seq<nat>, context: AuthorizationContext)
      requires TableUnwritten()
      modifies context
      ensures context.Value() == EnrichAll(old(context.Value()), Supplies(definition, grants))
      ensures context.filters == old(context.filters) || fresh(context.filters)
      ensures context.asserts == old(context.asserts) || fresh(context.asserts)
    {
      ghost var supplies := Supplies(definition, grants);
      var i := 0;
      while i < |grants|
        invariant 0 <= i <= |grants|
        invariant EnrichAll(context.Value(), supplies[i..]) == EnrichAll(old(context.Value()), supplies)
        invariant context.filters == old(context.filters) || fresh(context.filters)
        invariant context.asserts == old(context.asserts) || fresh(context.asserts)
      {
        var args := if grants[i] < |table| then table[grants[i]] else Args(null, null, null);
        assert supplies[i..][0] == Supplied(args) && supplies[i..][1..] == supplies[i + 1..];
        var _ := DynamicAuthorizations(context, args);
        i := i + 1;
      }
    }

    /** A stored entry answers, and its context is copied over the caller's. */
    method Hit(req: Request, context: AuthorizationContext, json: string) returns (authResult: AuthorizationResult)
      requires Valid() && WellNamed(req) && parse(json) == context.Value()
      requires AuthID(req, json) in authorizationCache
      modifies context
      ensures authResult == authorizationCache[AuthID(req, json)] && IsFresh(authResult, req, old(context.Value()))
      ensures context.Value() == Final(accessControl, definition, req, old(context.Value()))
      ensures Valid() <==> old(Unshared(context)) || context.Value() == old(context.Value())
    {
      var authID := AuthID(req, json);
      authResult := authorizationCache[authID];
      assert Sound(authID);
      AuthIDInjective(asked[authID].0, asked[authID].1, req, json);
      OverlayIsFinal(context.Value(), Supplies(definition, accessControl.conditions(req, context.Value())));
      Copy(authResult.context, context);
      Touched(context);
    }

    /** Nothing is stored: the engine decides, and the caller's own context goes into the cache. */
    method Miss(req: Request, context: AuthorizationContext, json: string) returns (authResult: AuthorizationResult)
      requires Valid() && WellNamed(req) && parse(json) == context.Value()
      requires AuthID(req, json) !in authorizationCache
      modifies this, context
      ensures authResult.context == context && IsFresh(authResult, req, old(context.Value()))
      ensures context.Value() == Final(accessControl, definition, req, old(context.Value()))
      ensures authorizationCache == old(authorizationCache)[AuthID(req, json) := authResult]
      ensures Valid() <==> old(Unshared(context)) || context.Value() == old(context.Value())
    {
      authResult := Compute(req, context);
      Store(req, json, authResult);
    }

    method Compute(req: Request, context: AuthorizationContext) returns (authResult: AuthorizationResult)
      requires Valid()
      modifies context
      ensures WellKept()
      ensures authResult.context == context && IsFresh(authResult, req, old(context.Value()))
      ensures Valid() <==> old(Unshared(context)) || context.Value() == old(context.Value())
    {
      var granted, attributes := Evaluate(req, context);
      Touched(context);
      authResult := AuthorizationResult(granted, attributes, context);
    }

    /** Freezing makes the result itself read-only, and nothing else. An entry may be replaced. */
    method Store(req: Request, json: string, authResult: AuthorizationResult)
      requires WellKept() && WellNamed(req) && IsFresh(authResult, req, parse(json))
      modifies this`authorizationCache, this`asked
      ensures WellKept() && (old(Valid()) ==> Valid())
      ensures Valid() && AuthID(req, json) !in old(authorizationCache) ==> old(Valid())
      ensures authorizationCache == old(authorizationCache)[AuthID(req, json) := authResult]
    {
      var authID := AuthID(req, json);
      authorizationCache := authorizationCache[authID := authResult];
      asked := asked[authID := (req, json)];
      OthersKept(authID);
    }

    /** A new entry leaves the other ones as sound as they were. */
    twostate lemma OthersKept(authID: string)
      requires old(WellKept()) && WellKept() && authID in authorizationCache && Sound(authID)
      requires authorizationCache == old(authorizationCache)[authID := authorizationCache[authID]]
      requires asked == old(asked)[authID := asked[authID]]
      requires forall k <- old(authorizationCache) ::
                 old(authorizationCache)[k].context.Value() == old(authorizationCache[k].context.Value())
      ensures old(Valid()) ==> Valid()
      ensures Valid() && authID !in old(authorizationCache) ==> old(Valid())
    {
      forall k | k in old(authorizationCache) && k != authID
        ensures Sound(k) <==> old(Sound(k))
      {
      }
    }

    /**
      Writing to one context alone: entries that keep it stay sound exactly if its contents end
      as they were, and all others stay sound.
     */
    twostate lemma Touched(context: AuthorizationContext)
      requires old(Valid()) && unchanged(this)
      requires forall i :: 0 <= i < |table| ==> Supplied(table[i]) == old(Supplied(table[i]))
      requires forall k <- authorizationCache ::
                 authorizationCache[k].context != context ==>
                   authorizationCache[k].context.Value() == old(authorizationCache[k].context.Value())
      ensures WellKept()
      ensures Valid() <==> old(Unshared(context)) || context.Value() == old(context.Value())
    {
      forall i | 0 <= i < |table|
        ensures Supplied(table[i]) == definition[i]
      {
        assert old(Supplied(table[i])) == definition[i];
      }
      forall k | k in authorizationCache
        ensures Sound(k) <==> authorizationCache[k].context != context || context.Value() == old(context.Value())
      {
        assert old(Sound(k));
      }
    }

    /**
      A call gives what an uncached evaluation gives, and leaves the caller's context as that
      would, whether it hits the cache or not. The cache stays sound exactly if it does not keep
      the caller's context yet, or evaluating the request leaves that as it is.
     */
    method CanPerformAction(req: Request, context: AuthorizationContext, json: string)
      returns (authResult: AuthorizationResult)
      requires Valid() && WellNamed(req) && parse(json) == context.Value()
      modifies this, context
      ensures IsFresh(authResult, req, old(context.Value()))
      ensures context.Value() == Final(accessControl, definition, req, old(context.Value()))
      ensures FirstCalledWins(definition, accessControl.conditions(req, old(context.Value())), old(context.Value()),
                              context.Value())
      ensures Valid() <==> old(Unshared(context)) || Leaves(accessControl, definition, req, old(context.Value()))
      ensures authorizationCache == old(authorizationCache)[AuthID(req, json) := authResult]
      ensures AuthID(req, json) in old(authorizationCache) ==> authorizationCache == old(authorizationCache)
      ensures AuthID(req, json) !in old(authorizationCache) ==> authResult.context == context
    {
      ghost var given := context.Value();
      if AuthID(req, json) in authorizationCache {
        authResult := Hit(req, context, json);
      } else {
        authResult := Miss(req, context, json);
      }
      LeavesAndWins(req, given);
    }

    lemma LeavesAndWins(req: Request, v: Contents)
      ensures Leaves(accessControl, definition, req, v) <==> Final(accessControl, definition, req, v) == v
      ensures FirstCalledWins(definition, accessControl.conditions(req, v), v,
                              Final(accessControl, definition, req, v))
    {
      LeavesIsFinal(accessControl, definition, req, v);
      FinalIsOfFirstCalled(accessControl, definition, req, v);
    }

    // -- Calls in progress together

    ghost predicate InPhase(call: Call, given: Contents, phase: Phase)
      reads *
    {
      match phase
      case Waiting => Unasked(call, given)
      case Missed => Unasked(call, given)
      case Evaluated(granted, attributes) =>
        && WellNamed(call.req) && parse(call.json) == given && Unshared(call.context)
        && IsFresh(AuthorizationResult(granted, attributes, call.context), call.req, given)
      case Answered(authResult) => IsAnswer(call, authResult, given)
    }

    ghost predicate IsAnswer(call: Call, authResult: AuthorizationResult, given: Contents)
      reads *
    {
      IsFresh(authResult, call.req, given) && call.context.Value() == Final(accessControl, definition, call.req, given)
    }

    ghost predicate Unasked(call: Call, given: Contents)
      reads *
    {
      && WellNamed(call.req) && parse(call.json) == given
      && call.context.Value() == given && Unshared(call.context)
    }

    /** Every call is where its phase says, and no answer keeps the context of a call still open. */
    ghost predicate Progress(run: Run)
      reads *
    {
      && |run.calls| == |run.given| == |run.phases|
      && (forall i :: 0 <= i < |run.calls| ==> InPhase(run.calls[i], run.given[i], run.phases[i]))
      && (forall i, j ::
            0 <= i < |run.calls| && 0 <= j < |run.calls| && run.phases[i].Answered? && !run.phases[j].Answered? ==>
              run.phases[i].result.context != run.calls[j].context)
    }

    /**
      Calls with a context object of their own, in any interleaving: each looks the cache up,
      and if that misses is evaluated and then stored, with steps of the others in between. In
      the end every result and every caller's context is what evaluating that call alone,
      without a cache, gives.
     */
    method CanPerformActions(calls: seq<Call>) returns (results: seq<AuthorizationResult>)
      requires Valid()
      requires forall i :: 0 <= i < |calls| ==> Unasked(calls[i], calls[i].context.Value())
      requires forall i, j :: 0 <= i < j < |calls| ==> calls[i].context != calls[j].context
      modifies this, ContextsOf(calls)
      ensures Valid() && |results| == |calls|
      ensures forall i :: 0 <= i < |calls| ==> IsAnswer(calls[i], results[i], old(calls[i].context.Value()))
    {
      var phases := seq(|calls|, i => Waiting);
      ghost var given := seq(|calls|, i requires 0 <= i < |calls| => old(calls[i].context.Value()));
      while exists i :: 0 <= i < |phases| && !phases[i].Answered?
        modifies this, ContextsOf(calls)
        invariant Valid() && Progress(Run(calls, given, phases))
        decreases StepsLeft(phases)
      {
        var i :| 0 <= i < |phases| && !phases[i].Answered?;
        var phase := Step(Run(calls, given, phases), i, calls[i], phases[i]);
        StepsUpdate(phases, i, phase);
        phases := phases[i := phase];
      }
      results := seq(|phases|, i requires 0 <= i < |phases| && phases[i].Answered? => phases[i].result);
    }

    /** The next step of one call. */
    method Step(ghost run: Run, i: nat, call: Call, phase: Phase) returns (next: Phase)
      requires Valid() && Progress(run) && i < |run.calls|
      requires run.calls[i] == call && run.phases[i] == phase && !phase.Answered?
      requires forall j :: 0 <= j < |run.calls| && j != i ==> run.calls[j].context != call.context
      modifies this, call.context
      ensures Valid() && Rank(next) < Rank(phase)
      ensures Progress(run.(phases := run.phases[i := next]))
    {
      assert InPhase(call, run.given[i], phase);
      match phase {
        case Waiting => next := LookUp(run, i, call);
        case Missed => next := EvaluateCall(run, i, call);
        case Evaluated(granted, attributes) =>
          next := StoreCall(run, i, call, AuthorizationResult(granted, attributes, call.context));
      }
    }

    method LookUp(ghost run: Run, i: nat, call: Call) returns (next: Phase)
      requires Valid() && Progress(run) && i < |run.calls| && run.calls[i] == call && run.phases[i].Waiting?
      requires forall j :: 0 <= j < |run.calls| && j != i ==> run.calls[j].context != call.context
      modifies call.context
      ensures Valid() && (next.Missed? || next.Answered?)
      ensures Progress(run.(phases := run.phases[i := next]))
    {
      assert InPhase(call, run.given[i], Waiting);
      if AuthID(call.req, call.json) in authorizationCache {
        next := HitCall(run, i, call);
      } else {
        next := Missed;
        OthersStand((run, i), next);
      }
    }

    method HitCall(ghost run: Run, i: nat, call: Call) returns (next: Phase)
      requires Valid() && Progress(run) && i < |run.calls| && run.calls[i] == call && run.phases[i].Waiting?
      requires forall j :: 0 <= j < |run.calls| && j != i ==> run.calls[j].context != call.context
      requires Unasked(call, run.given[i]) && AuthID(call.req, call.json) in authorizationCache
      modifies call.context
      ensures Valid() && next.Answered?
      ensures Progress(run.(phases := run.phases[i := next]))
    {
      var authResult := HitOwn(call, run.given[i]);
      next := Answered(authResult);
      OthersStand((run, i), next);
    }

    method HitOwn(call: Call, ghost given: Contents) returns (authResult: AuthorizationResult)
      requires Valid() && Unasked(call, given) && AuthID(call.req, call.json) in authorizationCache
      modifies call.context
      ensures Valid() && IsAnswer(call, authResult, given)
      ensures authResult == authorizationCache[AuthID(call.req, call.json)]
    {
      authResult := Hit(call.req, call.context, call.json);
    }

    method EvaluateCall(ghost run: Run, i: nat, call: Call) returns (next: Phase)
      requires Valid() && Progress(run) && i < |run.calls| && run.calls[i] == call && run.phases[i].Missed?
      requires forall j :: 0 <= j < |run.calls| && j != i ==> run.calls[j].context != call.context
      modifies call.context
      ensures Valid() && next.Evaluated?
      ensures Progress(run.(phases := run.phases[i := next]))
    {
      assert InPhase(call, run.given[i], Missed);
      var authResult := Compute(call.req, call.context);
      next := Evaluated(authResult.authorized, authResult.fields);
      OthersStand((run, i), next);
    }

    method StoreCall(ghost run: Run, i: nat, call: Call, authResult: AuthorizationResult) returns (next: Phase)
      requires Valid() && Progress(run) && i < |run.calls| && run.calls[i] == call
      requires run.phases[i] == Evaluated(authResult.authorized, authResult.fields)
      requires authResult.context == call.context
      requires forall j :: 0 <= j < |run.calls| && j != i ==> run.calls[j].context != call.context
      modifies this
      ensures Valid() && next == Answered(authResult)
      ensures Progress(run.(phases := run.phases[i := next]))
    {
      assert InPhase(call, run.given[i], run.phases[i]);
      StoreOwn(call, authResult, run.given[i]);
      next := Answered(authResult);
      OthersStand((run, i), next);
    }

    method StoreOwn(call: Call, authResult: AuthorizationResult, ghost given: Contents)
      requires Valid() && InPhase(call, given, Evaluated(authResult.authorized, authResult.fields))
      requires authResult.context == call.context
      modifies this`authorizationCache, this`asked
      ensures Valid() && IsAnswer(call, authResult, given)
      ensures authorizationCache == old(authorizationCache)[AuthID(call.req, call.json) := authResult]
    {
      Store(call.req, call.json, authResult);
    }

    /** A step of one call leaves the other calls where they are. */
    twostate lemma OthersStand(step: (Run, nat), new next: Phase)
      requires var (run, i) := step;
               && old(Progress(run)) && i < |run.calls| && !run.phases[i].Answered?
               && InPhase(run.calls[i], run.given[i], next)
               && (forall j :: 0 <= j < |run.calls| && j != i ==>
                     && run.calls[j].context != run.calls[i].context
                     && run.calls[j].context.Value() == old(run.calls[j].context.Value()))
               && (forall j :: 0 <= j < |run.calls| && run.phases[j].Answered? ==>
                     run.phases[j].result.context.Value() == old(run.phases[j].result.context.Value()))
               && (forall k <- authorizationCache ::
                     authorizationCache[k].context == run.calls[i].context
                     || (k in old(authorizationCache) && authorizationCache[k] == old(authorizationCache)[k]))
               && (next.Answered? && next.result.context != run.calls[i].context ==>
                     exists k :: k in old(authorizationCache) && old(authorizationCache)[k] == next.result)
      ensures var (run, i) := step; Progress(run.(phases := run.phases[i := next]))
    {
      var (run, i) := step;
      var after := run.(phases := run.phases[i := next]);
      forall j | 0 <= j < |run.calls| && j != i
        ensures InPhase(run.calls[j], run.given[j], run.phases[j])
        ensures !run.phases[j].Answered? && next.Answered? ==> next.result.context != run.calls[j].context
      {
        assert old(InPhase(run.calls[j], run.given[j], run.phases[j]));
      }
    }

    /**
      From the constructor on, one context object for two requests: the first is stored as
      granted without any condition, the second adds asserts to the same object, and the first
      entry is wrong from then on.
     */
    static method ReuseSpoilsCache() returns (manager: AuthorizationsManager, first: string)
      ensures first == AuthID(ListTags(), "{}") && first in manager.authorizationCache
      ensures !manager.IsFresh(manager.authorizationCache[first], ListTags(), Fresh(map[])) && !manager.Valid()
    {
      var context := new AuthorizationContext(map[]);
      manager := ManagerOfTags();
      first := AuthID(ListTags(), "{}");
      ReadTagChanges();
      var _ := manager.CanPerformAction(ListTags(), context, "{}");
      assert manager.authorizationCache[first].context == context;
      var _ := manager.CanPerformAction(ReadTag(), context, "{}");
    }

    static method ManagerOfTags() returns (manager: AuthorizationsManager)
      ensures fresh(manager) && manager.Valid() && manager.authorizationCache == map[]
      ensures manager.accessControl == ReadAddsAsserts() && manager.definition == OwnerAsserts()
      ensures forall json :: manager.parse(json) == Fresh(map[])
    {
      var asserts := new NameList(["owner"]);
      manager := new AuthorizationsManager(
        ReadAddsAsserts(), [Args(null, asserts, null)], (json: string) => Fresh(map[]), OwnerAsserts());
    }

    /** The loop over the keys of the cached context: properties it lacks are left alone. */
    method Copy(from: AuthorizationContext, to: AuthorizationContext)
      modifies to
      ensures to.Value() == Overlay(old(to.Value()), old(from.Value()))
    {
      CopyArrays(from, to);
      to.others := to.others + from.others;
      CopyMetadata(from, to);
    }

    method CopyArrays(from: AuthorizationContext, to: AuthorizationContext)
      modifies to`filters, to`filtersSet, to`asserts, to`assertsSet
      ensures NamesOf(to.filters) == Over(old(NamesOf(from.filters)), old(NamesOf(to.filters)))
      ensures NamesOf(to.asserts) == Over(old(NamesOf(from.asserts)), old(NamesOf(to.asserts)))
      ensures to.filtersSet == old(to.filtersSet || from.filtersSet)
      ensures to.assertsSet == old(to.assertsSet || from.assertsSet)
    {
      if from.filters != null {
        to.filters := from.filters;
      }
      to.filtersSet := to.filtersSet || from.filtersSet;
      if from.asserts != null {
        to.asserts := from.asserts;
      }
      to.assertsSet := to.assertsSet || from.assertsSet;
    }

    method CopyMetadata(from: AuthorizationContext, to: AuthorizationContext)
      modifies to`metadata, to`metadataSet
      ensures FieldsOf(to.metadata) == Over(old(FieldsOf(from.metadata)), old(FieldsOf(to.metadata)))
      ensures to.metadataSet == old(to.metadataSet || from.metadataSet)
    {
      if from.metadata != null {
        to.metadata := from.metadata;
      }
      to.metadataSet := to.metadataSet || from.metadataSet;
    }
  }

  function Over<T>(w: Option<T>, v: Option<T>): Option<T> {
    if w.Some? then w else v
  }

  /** The properties of `w` written over those of `v`. */
  function Overlay(v: Contents, w: Contents): Contents {
    Contents(Over(w.filters, v.filters), v.filtersSet || w.filtersSet,
             Over(w.asserts, v.asserts), v.assertsSet || w.assertsSet,
             Over(w.metadata, v.metadata), v.metadataSet || w.metadataSet,
             v.others + w.others)
  }
}
