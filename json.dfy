/**
  The JSON values `json.loads` produces, and `dict.get` on a decoded object.
  Numbers are exact reals: no floating-point behaviour is modelled.
 */
module Json {
  import opened Wrappers

  datatype Value =
    | Null
    | Bool(b: bool)
    | Number(n: real)
    | Str(s: string)
    | Array(items: seq<Value>)
    | Object(members: seq<(string, Value)>)

  /**
    `dict.get(key)` on the dictionary `json.loads` builds from `members`: the
    members are inserted in order, so when a key repeats the LAST occurrence wins.
   */
  function Get(members: seq<(string, Value)>, key: string): (r: Option<Value>)
    ensures r.None? <==> forall i :: 0 <= i < |members| ==> members[i].0 != key
    ensures r.Some? ==>
      exists i :: 0 <= i < |members| && members[i] == (key, r.value) &&
        forall j :: i < j < |members| ==> members[j].0 != key
    decreases |members|
  {
    if |members| == 0 then None
    else if members[|members| - 1].0 == key then Some(members[|members| - 1].1)
    else Get(members[..|members| - 1], key)
  }

  /** The keys of an object, in the order they were written. */
  function Keys(members: seq<(string, Value)>): (ks: seq<string>)
    ensures |ks| == |members| && forall i :: 0 <= i < |members| ==> ks[i] == members[i].0
  {
    seq(|members|, i requires 0 <= i < |members| => members[i].0)
  }
}
