/**
  A parsed JSON response body, and how JavaScript reads it: truthiness,
  property access and the first of `Object.values`.
*/
module JsonValue {
  import opened Wrappers

  /**
    A JSON value. An object's properties are listed in the order that
    `Object.values` visits them.
  */
  datatype Json =
    | JNull
    | JBool(b: bool)
    | JNum(n: real)
    | JStr(s: string)
    | JArr(items: seq<Json>)
    | JObj(props: seq<(string, Json)>)

  /** JavaScript truthiness: `null`, `false`, `0` and `""` are falsy; arrays and objects, even empty, are truthy. */
  predicate Truthy(j: Json) {
    match j
    case JNull => false
    case JBool(b) => b
    case JNum(n) => n != 0.0
    case JStr(s) => s != ""
    case JArr(_) => true
    case JObj(_) => true
  }

  /** `o[key]`: the value of the property named `key`, or `None` (`undefined`) when there is none. */
  function Property(props: seq<(string, Json)>, key: string): (r: Option<Json>)
    ensures r.Some? <==> exists k :: 0 <= k < |props| && props[k].0 == key
    ensures r.Some? ==> exists k :: 0 <= k < |props| && props[k] == (key, r.value)
  {
    if props == [] then None
    else if props[0].0 == key then Some(props[0].1)
    else
      var rest := Property(props[1..], key);
      assert forall k :: 1 <= k < |props| ==> props[k] == props[1..][k - 1];
      rest
  }

  /** No two properties share a name, as in any object `JSON.parse` builds. */
  predicate DistinctKeys(props: seq<(string, Json)>) {
    forall i, j :: 0 <= i < j < |props| ==> props[i].0 != props[j].0
  }

  /** In an object with distinct names, a property read finds the one property of that name. */
  lemma {:induction false} PropertyOfDistinct(props: seq<(string, Json)>, key: string, k: nat)
    requires DistinctKeys(props) && k < |props| && props[k].0 == key
    ensures Property(props, key) == Some(props[k].1)
  {
    if k > 0 {
      assert props[0].0 != props[k].0;
      PropertyOfDistinct(props[1..], key, k - 1);
    }
  }

  /** `Object.values(o)[0]`: the first property's value, or `None` (`undefined`) for an empty object. */
  function FirstValue(props: seq<(string, Json)>): Option<Json> {
    if props == [] then None else Some(props[0].1)
  }
}
