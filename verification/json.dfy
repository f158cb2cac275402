/** JSON values as the chat code receives and produces them. */
module Json {
  import opened Wrappers

  /** A parsed JSON value. Numbers are restricted to integers; objects keep their members in order. */
  datatype Json =
    | JNull
    | JBool(b: bool)
    | JNum(n: int)
    | JStr(s: string)
    | JArr(items: seq<Json>)
    | JObj(members: seq<(string, Json)>)

  /** Property access on an object given as its ordered members: the last member with the key
      wins, as after JSON.parse; `None` is `undefined`. */
  function Lookup<V>(members: seq<(string, V)>, key: string): (r: Option<V>)
    ensures r.None? <==> forall i :: 0 <= i < |members| ==> members[i].0 != key
    ensures r.Some? ==>
      exists i :: 0 <= i < |members| && members[i] == (key, r.value)
        && forall j :: i < j < |members| ==> members[j].0 != key
    decreases |members|
  {
    if members == [] then None
    else if members[|members| - 1].0 == key then Some(members[|members| - 1].1)
    else Lookup(members[..|members| - 1], key)
  }

  /** Property access on a `Record<string, unknown>`. */
  function Field(record: map<string, Json>, key: string): Option<Json>
  {
    if key in record then Some(record[key]) else None
  }

  /** The `??` operator: `default` when the value is `undefined` or `null`, the value otherwise. */
  function Coalesce(v: Option<Json>, default: Json): Json
  {
    match v
    case Some(x) => if x == JNull then default else x
    case None => default
  }

  /** Looking up a key that occurs exactly once finds its value. */
  lemma {:induction false} LookupUnique<V>(members: seq<(string, V)>, key: string, i: int)
    requires 0 <= i < |members| && members[i].0 == key
    requires forall j :: 0 <= j < |members| && j != i ==> members[j].0 != key
    ensures Lookup(members, key) == Some(members[i].1)
    decreases |members|
  {
    if i < |members| - 1 {
      var init := members[..|members| - 1];
      assert forall j :: 0 <= j < |init| && j != i ==> init[j] == members[j];
      LookupUnique(init, key, i);
    }
  }
}
