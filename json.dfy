/** The JSON values the bulb builds, and JSON.stringify left uninterpreted. */
module Json {
  import opened Outcomes

  datatype Json =
    | JNull
    | JBool(b: bool)
    | JNum(n: int)
    | JStr(s: string)
    | JObj(members: seq<(string, Json)>)

  /** The string JSON.stringify produces for a value; its characters are not modelled. */
  datatype Encoded = Stringified(value: Json)

  /** The keys of an object's members, in insertion order. */
  function Keys<V>(members: seq<(string, V)>): (ks: seq<string>)
    ensures |ks| == |members|
    ensures forall i :: 0 <= i < |members| ==> ks[i] == members[i].0
  {
    seq(|members|, i requires 0 <= i < |members| => members[i].0)
  }

  /** Property access: the value of the first member named `key`. */
  function Get<V(==)>(members: seq<(string, V)>, key: string): (r: Option<V>)
    ensures r.None? <==> key !in Keys(members)
    ensures r.Some? ==> exists i :: 0 <= i < |members| && members[i] == (key, r.value)
  {
    if members == [] then None
    else if members[0].0 == key then Some(members[0].1)
    else
      var r := Get(members[1..], key);
      assert Keys(members) == [members[0].0] + Keys(members[1..]);
      r
  }
}
