/**
 * JSON-like JavaScript values: what `JSON.parse` returns and what the bot
 * builds as object literals. An object lists each key once, in `Object.keys`
 * order. Numbers are integers here (the bot only stores integral numbers).
 */
module Json {
  import opened Wrappers

  datatype Json =
    | JNull
    | JBool(b: bool)
    | JNum(n: int)
    | JStr(s: string)
    | JArr(items: seq<Json>)
    | JObj(fields: seq<(string, Json)>)

  /** JavaScript's `typeof`; `null`, arrays and objects are all "object". */
  function TypeOf(j: Json): string
  {
    match j
    case JBool(_) => "boolean"
    case JNum(_) => "number"
    case JStr(_) => "string"
    case _ => "object"
  }

  /** A value that `===` compares by value rather than by reference. */
  predicate IsPrimitive(j: Json)
  {
    !j.JArr? && !j.JObj?
  }

  /** `fields[key]`: the value stored under `key`, if any. */
  function Lookup(fields: seq<(string, Json)>, key: string): (r: Option<Json>)
    ensures r.None? <==> forall i :: 0 <= i < |fields| ==> fields[i].0 != key
  {
    if fields == [] then None
    else if fields[0].0 == key then Some(fields[0].1)
    else Lookup(fields[1..], key)
  }

  predicate DistinctKeys(fields: seq<(string, Json)>)
  {
    forall i, j :: 0 <= i < j < |fields| ==> fields[i].0 != fields[j].0
  }

  /** Every object inside the value has distinct keys, as JavaScript objects do. */
  predicate WellFormed(j: Json)
    decreases j
  {
    match j
    case JArr(xs) => forall i :: 0 <= i < |xs| ==> WellFormed(xs[i])
    case JObj(fs) => DistinctKeys(fs) && forall i :: 0 <= i < |fs| ==> WellFormed(fs[i].1)
    case _ => true
  }

  /** With distinct keys, the value stored under the i-th key is the i-th value. */
  lemma {:induction false} LookupDistinct(fields: seq<(string, Json)>, i: nat)
    requires DistinctKeys(fields) && i < |fields|
    ensures Lookup(fields, fields[i].0) == Some(fields[i].1)
  {
    if i > 0 {
      assert fields[0].0 != fields[i].0;
      assert fields[1..][i - 1] == fields[i];
      LookupDistinct(fields[1..], i - 1);
    }
  }

  /**
   * `x === y` between a value the bot built and one it parsed from a response:
   * primitives compare by value, arrays and objects are never the same reference.
   */
  predicate StrictEqualAcross(x: Json, y: Json)
  {
    IsPrimitive(x) && x == y
  }
}
