/**
  Decoded JSON as PHP's `json_decode($body, true)` yields it (objects become string-keyed
  arrays, lists stay lists), together with the two PHP idioms the client applies to it: the
  null-coalescing lookup `$v['a']['b'] ?? $default` and Laravel's `collect($v)`.
 */
module Json {
  import opened Wrappers

  datatype Json =
    | JNull
    | JBool(b: bool)
    | JNum(n: int)
    | JStr(s: string)
    | JArr(items: seq<Json>)
    | JObj(fields: map<string, Json>)

  /** An array in PHP's sense: a list or a keyed object. */
  predicate IsArray(j: Json) {
    j.JArr? || j.JObj?
  }

  /** A top-level value as `??` and `isset` see it: null counts as absent. */
  function Present(j: Json): (v: Option<Json>)
    ensures v.None? <==> j == JNull
    ensures v.Some? ==> v.value == j
  {
    if j == JNull then None else Some(j)
  }

  /**
    `$j[key]` as `isset($j[key])` and `$j[key] ?? …` see it: the value stored under `key` when
    `j` is an object holding a non-null value there, and nothing when `j` is not an object, has
    no such key, or holds null under it. (Every key the client looks up is a non-numeric
    string, so a list never has it.)
   */
  function Get(j: Json, key: string): (v: Option<Json>)
    ensures v != Some(JNull)
    ensures v.Some? ==> j.JObj? && key in j.fields && j.fields[key] == v.value
    ensures j.JObj? && key in j.fields && j.fields[key] != JNull ==> v == Some(j.fields[key])
  {
    if j.JObj? && key in j.fields && j.fields[key] != JNull then Some(j.fields[key]) else None
  }

  /**
    `$root[k1][k2]…[kn] ?? …`: the nested lookup under a null-coalescing operator, which gives
    nothing as soon as one level is absent, null or not an object.
   */
  function Dig(root: Option<Json>, path: seq<string>): Option<Json>
    decreases |path|
  {
    if path == [] || root.None? then root else Dig(Get(root.value, path[0]), path[1..])
  }

  /** Looking up a path step by step is the same as looking it up at once. */
  lemma {:induction false} DigAppend(root: Option<Json>, p: seq<string>, q: seq<string>)
    ensures Dig(root, p + q) == Dig(Dig(root, p), q)
    decreases |p|
  {
    if p == [] {
      assert p + q == q;
    } else if root.None? {
    } else {
      assert (p + q)[0] == p[0] && (p + q)[1..] == p[1..] + q;
      DigAppend(Get(root.value, p[0]), p[1..], q);
    }
  }

  /** A non-empty lookup never yields null: `??` replaces it by the default. */
  lemma {:induction false} DigNeverNull(root: Option<Json>, path: seq<string>)
    requires path != []
    ensures Dig(root, path) != Some(JNull)
    decreases |path|
  {
    if root.Some? && |path| > 1 {
      DigNeverNull(Get(root.value, path[0]), path[1..]);
    } else if root.Some? && |path| == 1 {
      assert path[1..] == [];
    }
  }

  /**
    Laravel's `collect($v)`: an array is kept as it is (a list as a list, a keyed object with
    its keys), null becomes the empty list and any other scalar becomes a one-element list.
   */
  function Collect(v: Json): (c: Json)
    ensures IsArray(c)
    ensures IsArray(v) ==> c == v
    ensures !IsArray(v) ==> c.JArr? && c.items == (if v == JNull then [] else [v])
  {
    match v
    case JArr(_) => v
    case JObj(_) => v
    case JNull => JArr([])
    case _ => JArr([v])
  }

  /**
    `collect($root[k1]…[kn] ?? [])`, the shape of every accessor: the nested value as a
    collection, and the empty list when any level is absent or null.
   */
  function Listing(root: Option<Json>, path: seq<string>): (c: Json)
    ensures IsArray(c)
    ensures Dig(root, path).None? ==> c == JArr([])
    ensures Dig(root, path).Some? && IsArray(Dig(root, path).value) ==> c == Dig(root, path).value
    ensures Dig(root, path).Some? && !IsArray(Dig(root, path).value) && Dig(root, path).value != JNull ==>
              c == JArr([Dig(root, path).value])
  {
    match Dig(root, path)
    case None => JArr([])
    case Some(v) => Collect(v)
  }

  /** Collecting a collection changes nothing. */
  lemma CollectIdempotent(v: Json)
    ensures Collect(Collect(v)) == Collect(v)
  {
  }
}
