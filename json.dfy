/** A decoded JSON document, and the rules Python applies when the code
    subscripts or iterates one (`v['key']`, `v[0]`, `for x in v`). */
module Json {
  import opened Outcomes

  /** Numbers keep their literal text: the model copies them but never
      computes with them. An object keeps its members in document order,
      as a Python dict keeps insertion order. */
  datatype Value =
    | Null
    | Bool(b: bool)
    | Number(literal: string)
    | Str(s: string)
    | Array(items: seq<Value>)
    | Object(members: seq<(string, Value)>)

  /** The argument of a subscript `v[key]`. */
  datatype Key = Name(name: string) | Index(pos: nat)

  /** The exceptions that reading a decoded document can raise. */
  datatype PyError =
    | KeyError(key: Key)    // a dict has no such key
    | IndexError(pos: nat)  // a list or str index out of range
    | TypeError             // the value does not support the subscript or the iteration
    | ValueError            // a string does not match the expected date format

  /** The value bound to `name`; when a key repeats, the last binding wins,
      as it does when a JSON decoder builds the dict. */
  function Lookup(members: seq<(string, Value)>, name: string): (r: Option<Value>)
    ensures r.None? <==> forall i :: 0 <= i < |members| ==> members[i].0 != name
    ensures r.Some? ==> exists i :: 0 <= i < |members| && members[i] == (name, r.value) &&
                          forall j :: i < j < |members| ==> members[j].0 != name
  {
    if members == [] then None
    else if members[|members| - 1].0 == name then Some(members[|members| - 1].1)
    else
      var prefix := members[..|members| - 1];
      var r := Lookup(prefix, name);
      assert members == prefix + [members[|members| - 1]];
      r
  }

  /** The keys of a dict, each once, in the order of their first appearance. */
  function DistinctKeys(members: seq<(string, Value)>): (keys: seq<string>)
    ensures forall k :: k in keys <==> exists i :: 0 <= i < |members| && members[i].0 == k
    ensures forall i, j :: 0 <= i < j < |keys| ==> keys[i] != keys[j]
  {
    if members == [] then []
    else
      var prefix := members[..|members| - 1];
      var rest := DistinctKeys(prefix);
      var k := members[|members| - 1].0;
      assert forall i :: 0 <= i < |prefix| ==> prefix[i] == members[i];
      if k in rest then rest else rest + [k]
  }

  /** The position of the first member named `name`, or |members| if none is. */
  function FirstIndex(members: seq<(string, Value)>, name: string): (k: nat)
    ensures k <= |members|
    ensures forall i :: 0 <= i < k ==> members[i].0 != name
    ensures k < |members| ==> members[k].0 == name
  {
    if members == [] then 0
    else if members[0].0 == name then 0
    else
      var k := 1 + FirstIndex(members[1..], name);
      assert forall i :: 1 <= i < k ==> members[i] == members[1..][i - 1];
      k
  }

  /** Appending a member leaves the first position of every name the prefix
      already holds, and puts every other name at or after the prefix. */
  lemma FirstIndexAppend(prefix: seq<(string, Value)>, last: (string, Value), name: string)
    ensures var k := FirstIndex(prefix + [last], name);
      if FirstIndex(prefix, name) < |prefix| then k == FirstIndex(prefix, name) else k >= |prefix|
  {
    var members := prefix + [last];
    var a, b := FirstIndex(members, name), FirstIndex(prefix, name);
    assert forall i :: 0 <= i < |prefix| ==> members[i] == prefix[i];
    if b < |prefix| {
      assert members[b].0 == name;
    }
  }

  /** A key of the prefix keeps its first position when a member is appended. */
  lemma KeyOfPrefix(prefix: seq<(string, Value)>, last: (string, Value), name: string)
    requires name in DistinctKeys(prefix)
    ensures FirstIndex(prefix, name) < |prefix|
    ensures FirstIndex(prefix + [last], name) == FirstIndex(prefix, name)
  {
    var w :| 0 <= w < |prefix| && prefix[w].0 == name;
    FirstIndexAppend(prefix, last, name);
  }

  /** `DistinctKeys` lists the keys in the order of their first appearance. */
  lemma {:induction false} DistinctKeysInOrder(members: seq<(string, Value)>)
    ensures forall i, j :: 0 <= i < j < |DistinctKeys(members)| ==>
              FirstIndex(members, DistinctKeys(members)[i]) < FirstIndex(members, DistinctKeys(members)[j])
  {
    if members != [] {
      var prefix := members[..|members| - 1];
      var last := members[|members| - 1];
      assert members == prefix + [last];
      var rest := DistinctKeys(prefix);
      DistinctKeysInOrder(prefix);
      var keys := DistinctKeys(members);
      if last.0 !in rest {
        assert keys == rest + [last.0];
        FirstIndexAppend(prefix, last, last.0);
        assert FirstIndex(prefix, last.0) == |prefix|;
      } else {
        assert keys == rest;
      }
      forall i, j | 0 <= i < j < |keys|
        ensures FirstIndex(members, keys[i]) < FirstIndex(members, keys[j])
      {
        assert keys[i] == rest[i];
        KeyOfPrefix(prefix, last, rest[i]);
        if j < |rest| {
          assert keys[j] == rest[j];
          KeyOfPrefix(prefix, last, rest[j]);
          assert FirstIndex(prefix, rest[i]) < FirstIndex(prefix, rest[j]);
        }
      }
    }
  }

  /** `v[key]`: a dict yields the last binding of a string key and raises
      KeyError for a missing one; a list or str yields the element at an
      index in range and raises IndexError past its end; a string key on a
      list or str, and any subscript of null, a bool or a number, raise TypeError. */
  function Subscript(v: Value, key: Key): (r: Result<Value, PyError>)
    ensures v.Object? ==> (r.Ok? <==> key.Name? && Lookup(v.members, key.name).Some?)
    ensures v.Object? && r.Ok? ==> r.value == Lookup(v.members, key.name).value
    ensures v.Object? && r.Err? ==> r.error == KeyError(key)
    ensures v.Array? && key.Index? ==> (if key.pos < |v.items| then r == Ok(v.items[key.pos]) else r == Err(IndexError(key.pos)))
    ensures v.Str? && key.Index? ==> (if key.pos < |v.s| then r == Ok(Str([v.s[key.pos]])) else r == Err(IndexError(key.pos)))
    ensures (v.Array? || v.Str?) && key.Name? ==> r == Err(TypeError)
    ensures !(v.Object? || v.Array? || v.Str?) ==> r == Err(TypeError)
  {
    match v
    case Object(members) =>
      (match key
       case Name(name) =>
         (match Lookup(members, name)
          case Some(x) => Ok(x)
          case None => Err(KeyError(key)))
       case Index(_) => Err(KeyError(key)))  // JSON object keys are strings
    case Array(items) =>
      (match key
       case Index(i) => if i < |items| then Ok(items[i]) else Err(IndexError(i))
       case Name(_) => Err(TypeError))
    case Str(s) =>
      (match key
       case Index(i) => if i < |s| then Ok(Str([s[i]])) else Err(IndexError(i))
       case Name(_) => Err(TypeError))
    case _ => Err(TypeError)
  }

  /** The one-character strings of s, in order. */
  function Characters(s: string): (cs: seq<Value>)
    ensures |cs| == |s| && forall i :: 0 <= i < |s| ==> cs[i] == Str([s[i]])
  {
    if s == [] then [] else [Str([s[0]])] + Characters(s[1..])
  }

  /** The strings of keys, in order, as values. */
  function Strings(keys: seq<string>): (vs: seq<Value>)
    ensures |vs| == |keys| && forall i :: 0 <= i < |keys| ==> vs[i] == Str(keys[i])
  {
    if keys == [] then [] else [Str(keys[0])] + Strings(keys[1..])
  }

  /** What `for x in v` runs over: a list's items, a dict's keys, a str's
      characters; anything else is not iterable. */
  function Iterate(v: Value): (r: Result<seq<Value>, PyError>)
    ensures r.Ok? <==> v.Array? || v.Object? || v.Str?
    ensures v.Array? ==> r == Ok(v.items)
    ensures v.Object? ==> r.Ok? && (r.value == [] <==> v.members == [])
    ensures v.Object? ==> |r.value| == |DistinctKeys(v.members)|
                          && forall i :: 0 <= i < |r.value| ==> r.value[i] == Str(DistinctKeys(v.members)[i])
    ensures v.Str? ==> r.Ok? && |r.value| == |v.s| && forall i :: 0 <= i < |v.s| ==> r.value[i] == Str([v.s[i]])
  {
    match v
    case Array(items) => Ok(items)
    case Object(members) =>
      var keys := DistinctKeys(members);
      assert members != [] ==> members[0].0 in keys;
      Ok(Strings(keys))
    case Str(s) => Ok(Characters(s))
    case _ => Err(TypeError)
  }
}
