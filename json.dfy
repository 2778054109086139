/**
 * JSON values as trees. An object keeps its members in the order they are
 * written, as serialization of a struct emits its fields in declaration order.
 */
module Json {
  import opened Wrappers

  datatype Json =
    | Null
    | Bool(b: bool)
    | Number(n: int)
    | Str(s: string)
    | Object(members: seq<(string, Json)>)

  /** The names of an object's members. */
  function Keys(members: seq<(string, Json)>): set<string> {
    if members == [] then {} else {members[0].0} + Keys(members[1..])
  }

  /** The value of the first member named `key`; None when the object has no such member. */
  function Lookup(members: seq<(string, Json)>, key: string): Option<Json> {
    if members == [] then None
    else if members[0].0 == key then Some(members[0].1)
    else Lookup(members[1..], key)
  }

  /** A member is found exactly when its name is among the keys, and what is found is a member. */
  lemma {:induction false} LookupFound(members: seq<(string, Json)>, key: string)
    ensures Lookup(members, key).Some? <==> key in Keys(members)
    ensures Lookup(members, key).Some? ==> (key, Lookup(members, key).value) in members
    decreases |members|
  {
    if members != [] {
      LookupFound(members[1..], key);
    }
  }

  /** A lookup in an object that starts with member `x`. */
  lemma LookupCons(x: (string, Json), rest: seq<(string, Json)>, key: string)
    ensures Lookup([x] + rest, key) == if x.0 == key then Some(x.1) else Lookup(rest, key)
    ensures Keys([x] + rest) == {x.0} + Keys(rest)
  {
    assert ([x] + rest)[1..] == rest;
  }
}
