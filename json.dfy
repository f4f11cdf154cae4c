/**
 * The values that the Python code keeps in dictionaries and writes as JSON:
 * None, booleans, integers, floats (with float('inf') spelled out), strings,
 * lists and insertion-ordered objects.
 */
module Json {
  import opened Wrappers
  import opened OrderedDict

  datatype Json =
    | JNull
    | JBool(b: bool)
    | JInt(i: int)
    | JNum(r: real)
    | JInf
    | JStr(s: string)
    | JArr(items: seq<Json>)
    | JObj(fields: Dict<string, Json>)

  /** An object built from its (key, value) pairs in order. */
  function Obj(entries: seq<(string, Json)>): Json
  {
    JObj(Dict(entries))
  }

  /** payload.get(key) on an object; None for a missing key or a non-object. */
  function Field(j: Json, key: string): Option<Json>
  {
    if j.JObj? then Get(j.fields, key) else None
  }

  /** A number read as a float: Python accepts ints where floats are expected. */
  function AsReal(j: Json): Option<real>
  {
    match j
    case JNum(r) => Some(r)
    case JInt(i) => Some(i as real)
    case _ => None
  }

  function AsString(j: Json): Option<string>
  {
    if j.JStr? then Some(j.s) else None
  }

  function AsBool(j: Json): Option<bool>
  {
    if j.JBool? then Some(j.b) else None
  }

  /** A list of strings. */
  function AsStrings(j: Json): Option<seq<string>>
  {
    if j.JArr? && forall i :: 0 <= i < |j.items| ==> j.items[i].JStr? then
      Some(seq(|j.items|, i requires 0 <= i < |j.items| => j.items[i].s))
    else None
  }

  function Strings(ss: seq<string>): (j: Json)
    ensures j.JArr? && |j.items| == |ss|
  {
    JArr(seq(|ss|, i requires 0 <= i < |ss| => JStr(ss[i])))
  }

  /** A list of strings written out reads back unchanged. */
  lemma StringsRoundTrip(ss: seq<string>)
    ensures AsStrings(Strings(ss)) == Some(ss)
  {
    var j := Strings(ss);
    assert forall i :: 0 <= i < |j.items| ==> j.items[i] == JStr(ss[i]);
    var back := seq(|j.items|, i requires 0 <= i < |j.items| => j.items[i].s);
    assert back == ss;
  }

  /** Looking a key up in an object literal of up to four fields. */
  lemma {:induction false} Field2(k1: string, v1: Json, k2: string, v2: Json, j: string)
    ensures Field(Obj([(k1, v1), (k2, v2)]), j) ==
      if j == k1 then Some(v1) else if j == k2 then Some(v2) else None
  {
    var e := [(k1, v1), (k2, v2)];
    assert e[1..] == [(k2, v2)];
    assert Find(e[1..], j) == if j == k2 then Some(v2) else Find(e[1..][1..], j);
    assert e[1..][1..] == [];
  }

  lemma {:induction false} Field4(k1: string, v1: Json, k2: string, v2: Json, k3: string, v3: Json,
                                  k4: string, v4: Json, j: string)
    ensures Field(Obj([(k1, v1), (k2, v2), (k3, v3), (k4, v4)]), j) ==
      if j == k1 then Some(v1) else if j == k2 then Some(v2) else if j == k3 then Some(v3)
      else if j == k4 then Some(v4) else None
  {
    var e := [(k1, v1), (k2, v2), (k3, v3), (k4, v4)];
    assert e[1..] == [(k2, v2), (k3, v3), (k4, v4)];
    assert Find(e, j) == if j == k1 then Some(v1) else Find(e[1..], j);
    assert Find(e[1..], j) == if j == k2 then Some(v2) else Find(e[1..][1..], j);
    assert e[1..][1..] == [(k3, v3), (k4, v4)];
    Field2(k3, v3, k4, v4, j);
  }

  /** The first entry holding the key decides the lookup. */
  lemma {:induction false} FieldAt(entries: seq<(string, Json)>, i: nat, key: string)
    requires i < |entries| && entries[i].0 == key
    requires forall t :: 0 <= t < i ==> entries[t].0 != key
    ensures Field(Obj(entries), key) == Some(entries[i].1)
    decreases i
  {
    if i > 0 {
      FieldAt(entries[1..], i - 1, key);
    }
  }

  /** A key held by no entry is missing. */
  lemma {:induction false} FieldAbsent(entries: seq<(string, Json)>, key: string)
    requires forall t :: 0 <= t < |entries| ==> entries[t].0 != key
    ensures Field(Obj(entries), key) == None
    decreases |entries|
  {
    if |entries| > 0 {
      FieldAbsent(entries[1..], key);
    }
  }
}
