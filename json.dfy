/**
 * The abstract key/value tree that JSON text denotes. Objects keep their
 * members in order, as pydantic and the Python dictionaries of the plugin
 * emit them; rendering to text (whitespace, `indent=2`) is not modelled.
 */
module JsonValues {
  import opened Wrappers

  datatype Json =
    | JNull
    | JBool(b: bool)
    | JString(str: string)
    | JArray(items: seq<Json>)
    | JObject(members: seq<(string, Json)>)

  /** Members whose values are all strings, as a Python `dict[str, str]` literal. */
  function StringMembers(pairs: seq<(string, string)>): (r: seq<(string, Json)>)
    ensures |r| == |pairs|
    ensures forall i :: 0 <= i < |r| ==> r[i] == (pairs[i].0, JString(pairs[i].1))
  {
    if pairs == [] then [] else [(pairs[0].0, JString(pairs[0].1))] + StringMembers(pairs[1..])
  }

  /** The keys of an object's members, in order. */
  function Keys<T>(members: seq<(string, T)>): (r: seq<string>)
    ensures |r| == |members|
    ensures forall i :: 0 <= i < |members| ==> r[i] == members[i].0
  {
    if members == [] then [] else [members[0].0] + Keys(members[1..])
  }

  /** No key occurs twice. */
  predicate Distinct(keys: seq<string>) {
    forall i, j :: 0 <= i < j < |keys| ==> keys[i] != keys[j]
  }

  /** The value of the first member named `key` (`obj[key]` in Python). */
  function Lookup<T>(members: seq<(string, T)>, key: string): Option<T>
  {
    if members == [] then None
    else if members[0].0 == key then Some(members[0].1)
    else Lookup(members[1..], key)
  }

  /** Looking a key up finds nothing exactly when no member carries it. */
  lemma {:induction false} LookupNone(members: seq<(string, Json)>, key: string)
    ensures Lookup(members, key).None? <==> key !in Keys(members)
  {
    if members != [] {
      assert Keys(members) == [members[0].0] + Keys(members[1..]);
      LookupNone(members[1..], key);
    }
  }

  /** `j[key]` for an object, `None` for a missing key or a non-object. */
  function Get(j: Json, key: string): Option<Json> {
    if j.JObject? then Lookup(j.members, key) else None
  }

  /** The keys of an object, in order; none for anything else. */
  function ObjectKeys(j: Json): seq<string> {
    if j.JObject? then Keys(j.members) else []
  }

  /** `j[k0][k1]...`: follows a path of keys from the root. */
  function At(j: Json, path: seq<string>): Option<Json>
    decreases path
  {
    if path == [] then Some(j)
    else
      match Get(j, path[0])
      case None => None
      case Some(child) => At(child, path[1..])
  }

  /** Following a path is one lookup, then the rest of the path from what it found. */
  lemma AtStep(j: Json, path: seq<string>, child: Json)
    requires path != [] && Get(j, path[0]) == Some(child)
    ensures At(j, path) == At(child, path[1..])
  {
  }

  /** Following `p + q` is following `p`, then `q` from where `p` led. */
  lemma {:induction false} AtAppend(j: Json, p: seq<string>, q: seq<string>)
    ensures At(j, p + q) == if At(j, p).Some? then At(At(j, p).value, q) else None
    decreases p
  {
    if p == [] {
      assert p + q == q;
    } else {
      assert (p + q)[0] == p[0] && (p + q)[1..] == p[1..] + q;
      match Get(j, p[0])
      case None =>
      case Some(child) => AtAppend(child, p[1..], q);
    }
  }

  lemma KeysAppend(a: seq<(string, Json)>, b: seq<(string, Json)>)
    ensures Keys(a + b) == Keys(a) + Keys(b)
  {
  }

  /** A key the first part lacks is looked up in the second part. */
  lemma {:induction false} LookupAppend(a: seq<(string, Json)>, b: seq<(string, Json)>, key: string)
    ensures Lookup(a + b, key) == if key in Keys(a) then Lookup(a, key) else Lookup(b, key)
  {
    if a != [] {
      assert (a + b)[0] == a[0] && (a + b)[1..] == a[1..] + b;
      assert Keys(a) == [a[0].0] + Keys(a[1..]);
      LookupAppend(a[1..], b, key);
    } else {
      assert a + b == b;
    }
  }

  /** A path of one key is a single lookup. */
  lemma AtOne(j: Json, k0: string)
    ensures At(j, [k0]) == Get(j, k0)
  {
    assert [k0][1..] == [];
  }

  /** A path of two keys is two lookups. */
  lemma AtTwo(j: Json, k0: string, k1: string)
    ensures At(j, [k0, k1]) == if Get(j, k0).Some? then Get(Get(j, k0).value, k1) else None
  {
    assert [k0, k1][1..] == [k1];
    if Get(j, k0).Some? {
      AtOne(Get(j, k0).value, k1);
    }
  }

  /** With distinct keys, looking a key up finds the member that carries it. */
  lemma {:induction false} LookupDistinct(members: seq<(string, Json)>, i: nat)
    requires i < |members|
    requires Distinct(Keys(members))
    ensures Lookup(members, members[i].0) == Some(members[i].1)
  {
    if i > 0 {
      assert Keys(members)[0] != Keys(members)[i];
      var tail := members[1..];
      assert Keys(tail) == Keys(members)[1..];
      LookupDistinct(tail, i - 1);
    }
  }
}
