/** JSON values, and reading and writing them along paths. */
module Json {
  import opened Prelude

  datatype Json =
    | Null
    | Bool(b: bool)
    | Num(n: real)
    | Str(s: string)
    | Arr(items: seq<Json>)
    | Obj(fields: map<string, Json>)

  datatype Segment = Key(name: string) | Index(i: nat)

  /** A property path such as `content.connections[0].token`. */
  type Path = seq<Segment>

  function Child(j: Json, step: Segment): Option<Json> {
    match step
    case Key(name) => if j.Obj? && name in j.fields then Some(j.fields[name]) else None
    case Index(i) => if j.Arr? && i < |j.items| then Some(j.items[i]) else None
  }

  function Get(j: Json, path: Path): Option<Json> {
    if path == [] then Some(j)
    else
      var child := Child(j, path[0]);
      if child.None? then None else Get(child.value, path[1..])
  }

  function Set(j: Json, path: Path, v: Json): Json
    requires Get(j, path).Some?
  {
    if path == [] then v
    else
      var child := Set(Child(j, path[0]).value, path[1..], v);
      match path[0]
      case Key(name) => Obj(j.fields[name := child])
      case Index(i) => Arr(j.items[i := child])
  }

  /** The same tree up to the contents of its strings. */
  predicate SameShape(a: Json, b: Json) {
    match a
    case Str(_) => b.Str?
    case Arr(items) =>
      b.Arr? && |items| == |b.items| && forall i :: 0 <= i < |items| ==> SameShape(items[i], b.items[i])
    case Obj(fields) =>
      b.Obj? && fields.Keys == b.fields.Keys && forall k :: k in fields ==> SameShape(fields[k], b.fields[k])
    case _ => a == b
  }

  lemma SameShapeReflexive(a: Json)
    ensures SameShape(a, a)
  {
  }

  lemma {:induction false} SameShapeTransitive(a: Json, b: Json, c: Json)
    requires SameShape(a, b) && SameShape(b, c)
    ensures SameShape(a, c)
  {
    match a
    case Arr(items) =>
      forall i | 0 <= i < |items| ensures SameShape(items[i], c.items[i]) {
        SameShapeTransitive(items[i], b.items[i], c.items[i]);
      }
    case Obj(fields) =>
      forall k | k in fields ensures SameShape(fields[k], c.fields[k]) {
        SameShapeTransitive(fields[k], b.fields[k], c.fields[k]);
      }
    case _ =>
  }

  /** Trees of one shape have the same paths, and what is found there has one shape too. */
  lemma {:induction false} SameShapeAt(a: Json, b: Json, path: Path)
    requires SameShape(a, b)
    ensures Get(a, path).Some? <==> Get(b, path).Some?
    ensures Get(a, path).Some? ==> SameShape(Get(a, path).value, Get(b, path).value)
  {
    if path != [] && Child(a, path[0]).Some? {
      SameShapeAt(Child(a, path[0]).value, Child(b, path[0]).value, path[1..]);
    }
  }

  /** Trees of one shape with the same string at every path are equal. */
  lemma {:induction false} SameStringsSameTree(a: Json, b: Json)
    requires SameShape(a, b)
    requires forall path :: Get(a, path).Some? && Get(a, path).value.Str? ==> Get(b, path) == Get(a, path)
    ensures a == b
  {
    match a
    case Str(_) =>
      assert Get(a, []) == Some(a);
    case Arr(items) =>
      forall i | 0 <= i < |items| ensures items[i] == b.items[i] {
        forall path | Get(items[i], path).Some? && Get(items[i], path).value.Str?
          ensures Get(b.items[i], path) == Get(items[i], path)
        {
          assert ([Index(i)] + path)[1..] == path;
          assert Get(a, [Index(i)] + path) == Get(items[i], path);
          assert Get(b, [Index(i)] + path) == Get(b.items[i], path);
        }
        SameStringsSameTree(items[i], b.items[i]);
      }
    case Obj(fields) =>
      forall k | k in fields ensures fields[k] == b.fields[k] {
        forall path | Get(fields[k], path).Some? && Get(fields[k], path).value.Str?
          ensures Get(b.fields[k], path) == Get(fields[k], path)
        {
          assert ([Key(k)] + path)[1..] == path;
          assert Get(a, [Key(k)] + path) == Get(fields[k], path);
          assert Get(b, [Key(k)] + path) == Get(b.fields[k], path);
        }
        SameStringsSameTree(fields[k], b.fields[k]);
      }
      assert fields == b.fields;
    case _ =>
  }

  lemma {:induction false} GetSet(j: Json, path: Path, v: Json)
    requires Get(j, path).Some?
    ensures Get(Set(j, path, v), path) == Some(v)
  {
    if path != [] {
      GetSet(Child(j, path[0]).value, path[1..], v);
    }
  }

  /** Replacing one string by another keeps the shape. */
  lemma {:induction false} SetKeepsShape(j: Json, path: Path, s: string)
    requires Get(j, path).Some? && Get(j, path).value.Str?
    ensures SameShape(j, Set(j, path, Str(s)))
  {
    if path != [] {
      SetKeepsShape(Child(j, path[0]).value, path[1..], s);
      if j.Arr? {
        forall k | 0 <= k < |j.items| { SameShapeReflexive(j.items[k]); }
      } else {
        forall k | k in j.fields { SameShapeReflexive(j.fields[k]); }
      }
    }
  }

  /** Replacing one string leaves every other string as it is. */
  lemma {:induction false} SetElsewhere(j: Json, path: Path, s: string, other: Path)
    requires Get(j, path).Some? && Get(j, path).value.Str?
    requires Get(j, other).Some? && Get(j, other).value.Str? && other != path
    ensures Get(Set(j, path, Str(s)), other) == Get(j, other)
  {
    if path != [] && other != [] && path[0] == other[0] {
      assert path == [path[0]] + path[1..] && other == [other[0]] + other[1..];
      SetElsewhere(Child(j, path[0]).value, path[1..], s, other[1..]);
    }
  }
}
