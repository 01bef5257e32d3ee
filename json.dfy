/** JSON values as the Python side holds them before `json.dumps`: an object keeps
    its keys in insertion order, as a Python dict does. */
module Json {
  import opened Wrappers

  datatype Json =
    | JNull
    | JBool(b: bool)
    | JNum(n: int)
    | JStr(s: string)
    | JArr(items: seq<Json>)
    | JObj(fields: seq<(string, Json)>)

  /** True when some field of the object is named `key`. */
  predicate HasField(fields: seq<(string, Json)>, key: string)
  {
    exists i :: 0 <= i < |fields| && fields[i].0 == key
  }

  /** `d.get(key)` / `d[key]`: the value of the first field named `key`
      (a Python dict never holds a key twice, so "first" is "the"). */
  function Lookup(fields: seq<(string, Json)>, key: string): (r: Option<Json>)
    ensures r.Some? <==> HasField(fields, key)
    ensures r.Some? ==> (key, r.value) in fields
    ensures |fields| > 0 && fields[0].0 == key ==> r == Some(fields[0].1)
  {
    if |fields| == 0 then None
    else if fields[0].0 == key then Some(fields[0].1)
    else
      var rest := Lookup(fields[1..], key);
      assert HasField(fields[1..], key) ==> HasField(fields, key) by {
        if HasField(fields[1..], key) {
          var i :| 0 <= i < |fields[1..]| && fields[1..][i].0 == key;
          assert fields[i + 1].0 == key;
        }
      }
      rest
  }

  /** A field of a JSON object; nothing for a non-object. */
  function Get(j: Json, key: string): (r: Option<Json>)
    ensures r.Some? ==> j.JObj? && (key, r.value) in j.fields
    ensures j.JObj? ==> (r.Some? <==> HasField(j.fields, key))
  {
    if j.JObj? then Lookup(j.fields, key) else None
  }

  /** The value reached by following `path` through nested objects. */
  function At(j: Json, path: seq<string>): (r: Option<Json>)
    ensures |path| == 0 ==> r == Some(j)
    ensures |path| > 0 && r.Some? ==> Get(j, path[0]).Some?
  {
    if |path| == 0 then Some(j)
    else
      match Get(j, path[0])
      case None => None
      case Some(child) => At(child, path[1..])
  }

  /** `del d[key]` for every field named `key`, the other fields kept in order. */
  function Without(fields: seq<(string, Json)>, key: string): (r: seq<(string, Json)>)
    ensures !HasField(r, key)
    ensures forall f :: f in r <==> f in fields && f.0 != key
  {
    if |fields| == 0 then []
    else if fields[0].0 == key then Without(fields[1..], key)
    else [fields[0]] + Without(fields[1..], key)
  }

  /** The field names of an object, in order (`list(d.keys())`). */
  function Keys(fields: seq<(string, Json)>): (ks: seq<string>)
    ensures |ks| == |fields|
    ensures forall i :: 0 <= i < |fields| ==> ks[i] == fields[i].0
  {
    seq(|fields|, i requires 0 <= i < |fields| => fields[i].0)
  }

  /** One step of a path: following `path` from `j` is following its tail from the first child. */
  lemma AtStep(j: Json, path: seq<string>)
    requires |path| > 0
    ensures At(j, path) == if Get(j, path[0]).Some? then At(Get(j, path[0]).value, path[1..]) else None
  {
  }

  /** Deleting a key the object does not hold changes nothing. */
  lemma {:induction false} WithoutAbsent(fields: seq<(string, Json)>, key: string)
    requires !HasField(fields, key)
    ensures Without(fields, key) == fields
  {
    if |fields| > 0 {
      assert fields[0].0 != key;
      WithoutAbsent(fields[1..], key);
      assert fields == [fields[0]] + fields[1..];
    }
  }
}
