/**
 * The `containSubset` assertion that `doValidate` (lib/STSExampleHandler.js)
 * makes about a response: every key of the expected object must be present in
 * the actual value with a matching value, nested objects are compared the same
 * way, and every element of an expected array must match some element of the
 * actual array.
 */
module Subset {
  import opened Js

  /** `typeof`, with null, arrays and objects all `object`. */
  datatype JsType = TUndefined | TObject | TBoolean | TNumber | TString

  function TypeOf(v: Json): JsType
  {
    match v
    case JUndefined => TUndefined
    case JNull => TObject
    case JBool(_) => TBoolean
    case JNum(_) => TNumber
    case JNaN => TNumber
    case JStr(_) => TString
    case JArr(_) => TObject
    case JObj(_) => TObject
  }

  predicate IsObject(v: Json)
  {
    v.JObj? || v.JArr?
  }

  /** `===` on values that are not objects; NaN equals nothing. */
  predicate StrictEquals(a: Json, b: Json)
  {
    a == b && !a.JNaN? && !IsObject(a)
  }

  /** `compare(expected, actual)`: does `actual` contain `expected`? */
  predicate Compare(expected: Json, actual: Json)
    decreases expected, 2
  {
    if StrictEquals(expected, actual) then true
    else if TypeOf(actual) != TypeOf(expected) then false
    else if !IsObject(expected) then false
    else if !Truthy(actual) then false
    else match expected
      case JArr(items) =>
        actual.JArr? && forall i :: 0 <= i < |items| ==> SomeMatch(items[i], actual.items, expected)
      case JObj(fields) =>
        forall i :: 0 <= i < |fields| ==> FieldMatches(fields[i].1, Get(actual, fields[i].0), expected)
  }

  /** Some element of `candidates` contains `item`. */
  predicate SomeMatch(item: Json, candidates: seq<Json>, ghost parent: Json)
    requires item < parent
    decreases parent, 1
  {
    exists j :: 0 <= j < |candidates| && Compare(item, candidates[j])
  }

  /** One expected key: objects are compared recursively, other values with `===`. */
  predicate FieldMatches(eo: Json, ao: Json, ghost parent: Json)
    requires eo < parent
    decreases parent, 1
  {
    if IsObject(eo) && ao != JNull then Compare(eo, ao) else StrictEquals(ao, eo)
  }

  /** Values without NaN, which `===` does not equate with themselves. */
  predicate NaNFree(v: Json)
  {
    match v
    case JNaN => false
    case JArr(items) => forall i :: 0 <= i < |items| ==> NaNFree(items[i])
    case JObj(fields) => forall i :: 0 <= i < |fields| ==> NaNFree(fields[i].1)
    case _ => true
  }

  /** Every value without NaN contains itself. */
  lemma {:induction false} CompareReflexive(v: Json)
    requires NaNFree(v)
    ensures Compare(v, v)
    decreases v
  {
    match v {
      case JArr(items) =>
        forall i | 0 <= i < |items| ensures SomeMatch(items[i], items, v) {
          CompareReflexive(items[i]);
        }
      case JObj(fields) =>
        forall i | 0 <= i < |fields| ensures FieldMatches(fields[i].1, Get(v, fields[i].0), v) {
          LookupFirst(fields, i);
          CompareReflexive(fields[i].1);
        }
      case _ =>
    }
  }

  /** In a map without duplicate keys, the i-th key looks up the i-th value. */
  lemma {:induction false} LookupFirst<V>(m: OMap<V>, i: nat)
    requires i < |m|
    ensures Lookup(m, m[i].0) == Some(m[i].1)
  {
    if i > 0 {
      LookupFirst(m[1..], i - 1);
      assert m[1..][i - 1] == m[i];
      assert m[i].0 in Keys(m[1..]) by {
        LookupIffKey(m[1..], m[i].0);
      }
    }
  }

  /** The empty object is contained in exactly the non-null objects and arrays. */
  lemma EmptyObjectContained(actual: Json)
    ensures Compare(JObj([]), actual) <==> IsObject(actual)
  {
  }

  /**
   * `{status: n}`, which `normalizeExample` puts into a bare example, holds
   * of an object response exactly when its `status` is `n`.
   */
  lemma StatusContained(n: int, actual: Json)
    requires actual.JObj?
    ensures Compare(Object([("status", JNum(n))]), actual) <==> Get(actual, "status") == JNum(n)
  {
    var expected := Object([("status", JNum(n))]);
    ObjectSingle("status", JNum(n));
    GetObject1("status", JNum(n), "status");
  }
}
