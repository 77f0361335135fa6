/**
 * The JavaScript values the test engine works on: JSON documents (the
 * spec, the examples, the responses), insertion-ordered objects, JavaScript
 * truthiness, string conversion, `parseInt`, and property access with the
 * TypeError that JavaScript raises when a property of `undefined` or `null`
 * is read or a property of a primitive is written in strict mode.
 */
module Js {

  datatype Option<+T> = None | Some(value: T)

  datatype Result<+T, +E> = Ok(value: T) | Err(error: E)

  /** Why a step of the engine throws or rejects. */
  datatype Failure =
    | TypeError(reason: string)      // property access on undefined/null, write on a primitive
    | TemplateError(reason: string)  // a template outside the supported `${headers.id}` / `${obj.id}` shape
    | SubsetMismatch                 // the response does not contain the expected fragment
    | Thrown(value: Json)            // an error raised by a collaborator, passed on as it is
    | ErrorMessage(message: string)  // `new Error(message)`

  // ---------------------------------------------------------------------
  // Insertion-ordered objects
  // ---------------------------------------------------------------------

  /** The keys of an entry list, in order (duplicates kept). */
  function Keys<V>(m: seq<(string, V)>): seq<string>
  {
    if m == [] then [] else [m[0].0] + Keys(m[1..])
  }

  /** A JavaScript object never holds one key twice. */
  predicate NoDupKeys<V>(m: seq<(string, V)>)
  {
    m == [] || (m[0].0 !in Keys(m[1..]) && NoDupKeys(m[1..]))
  }

  /** An object's own enumerable properties in insertion order. */
  type OMap<V> = m: seq<(string, V)> | NoDupKeys(m) witness []

  function Lookup<V>(m: seq<(string, V)>, k: string): Option<V>
  {
    if m == [] then None else if m[0].0 == k then Some(m[0].1) else Lookup(m[1..], k)
  }

  lemma {:induction false} LookupIffKey<V>(m: seq<(string, V)>, k: string)
    ensures Lookup(m, k).Some? <==> k in Keys(m)
  {
    if m != [] {
      LookupIffKey(m[1..], k);
    }
  }

  /** `m[k] = v`: an existing key keeps its position, a new key goes last. */
  function Put<V>(m: OMap<V>, k: string, v: V): (r: OMap<V>)
    ensures Keys(r) == if k in Keys(m) then Keys(m) else Keys(m) + [k]
  {
    if m == [] then
      assert [(k, v)][1..] == [];
      [(k, v)]
    else if m[0].0 == k then
      assert Keys([(k, v)] + m[1..]) == [k] + Keys(m[1..]);
      [(k, v)] + m[1..]
    else
      var rest := Put(m[1..], k, v);
      assert Keys([m[0]] + rest) == [m[0].0] + Keys(rest);
      [m[0]] + rest
  }

  /** After `m[k] = v`, key `k` reads `v` and every other key reads as before. */
  lemma {:induction false} LookupPut<V>(m: OMap<V>, k: string, v: V, k': string)
    ensures Lookup(Put(m, k, v), k') == if k' == k then Some(v) else Lookup(m, k')
  {
    if m != [] && m[0].0 != k {
      LookupPut(m[1..], k, v, k');
    }
  }

  /** The keys of `ks` that are not in `excl`, in order. */
  function Without(ks: seq<string>, excl: seq<string>): (r: seq<string>)
    ensures forall x :: x in r <==> x in ks && x !in excl
  {
    if ks == [] then []
    else if ks[0] in excl then Without(ks[1..], excl)
    else [ks[0]] + Without(ks[1..], excl)
  }

  lemma {:induction false} WithoutExtend(ks: seq<string>, excl: seq<string>, x: string)
    requires x !in ks
    ensures Without(ks, excl + [x]) == Without(ks, excl)
  {
    if ks != [] {
      WithoutExtend(ks[1..], excl, x);
    }
  }

  /**
   * `Object.assign(m, src)`: every property of `src`, in its order, is put
   * into `m`.
   */
  function Assign<V>(m: OMap<V>, src: OMap<V>): OMap<V>
    decreases |src|
  {
    if src == [] then m else Assign(Put(m, src[0].0, src[0].1), src[1..])
  }

  /** A key not yet present goes last. */
  lemma {:induction false} PutNew<V>(m: OMap<V>, k: string, v: V)
    requires k !in Keys(m)
    ensures Put(m, k, v) == m + [(k, v)]
  {
    if m != [] {
      var tail: OMap<V> := m[1..];
      assert Keys(m) == [m[0].0] + Keys(tail);
      assert m[0].0 != k && k !in Keys(tail);
      PutNew(tail, k, v);
      calc {
        Put(m, k, v);
        [m[0]] + Put(tail, k, v);
        [m[0]] + (tail + [(k, v)]);
        { assert m == [m[0]] + tail; }
        m + [(k, v)];
      }
    }
  }

  /** `Object.assign` onto an object sharing no key with the source appends the source. */
  lemma {:induction false} AssignDisjoint<V>(m: OMap<V>, src: OMap<V>)
    requires forall k :: k in Keys(src) ==> k !in Keys(m)
    ensures Assign(m, src) == m + src
    decreases |src|
  {
    if src != [] {
      var m': OMap<V> := Put(m, src[0].0, src[0].1);
      assert m' == m + [src[0]] by {
        assert src[0].0 in Keys(src);
        PutNew(m, src[0].0, src[0].1);
      }
      DisjointAfterPut(m, src);
      AssignDisjoint(m', src[1..]);
      AppendFirst(m, src);
    }
  }

  lemma AppendFirst<T>(a: seq<T>, b: seq<T>)
    requires b != []
    ensures (a + [b[0]]) + b[1..] == a + b
  {
    assert b == [b[0]] + b[1..];
  }

  lemma DisjointAfterPut<V>(m: OMap<V>, src: OMap<V>)
    requires src != []
    requires forall k :: k in Keys(src) ==> k !in Keys(m)
    ensures forall k :: k in Keys(src[1..]) ==> k !in Keys(Put(m, src[0].0, src[0].1))
  {
    var rest: OMap<V> := src[1..];
    assert Keys(src) == [src[0].0] + Keys(rest);
    assert src[0].0 !in Keys(rest);
    forall k | k in Keys(rest) ensures k !in Keys(Put(m, src[0].0, src[0].1)) {
      assert k in Keys(src);
    }
  }

  /** After `Object.assign(m, src)` a key read gives `src`'s value if it has one, else `m`'s. */
  lemma {:induction false} LookupAssign<V>(m: OMap<V>, src: OMap<V>, k: string)
    ensures Lookup(Assign(m, src), k) == if Lookup(src, k).Some? then Lookup(src, k) else Lookup(m, k)
    decreases |src|
  {
    if src != [] {
      LookupAssign(Put(m, src[0].0, src[0].1), src[1..], k);
      LookupPut(m, src[0].0, src[0].1, k);
      LookupIffKey(src[1..], k);
    }
  }

  /** `Object.assign` keeps the target's keys in place and appends the new ones in source order. */
  lemma {:induction false} KeysAssign<V>(m: OMap<V>, src: OMap<V>)
    ensures Keys(Assign(m, src)) == Keys(m) + Without(Keys(src), Keys(m))
    decreases |src|
  {
    if src != [] {
      var k0, rest := src[0].0, src[1..];
      var m' := Put(m, k0, src[0].1);
      KeysAssign(m', rest);
      assert Assign(m, src) == Assign(m', rest);
      var ks, wr := Keys(src), Without(Keys(rest), Keys(m));
      assert ks[0] == k0 && ks[1..] == Keys(rest);
      assert k0 !in Keys(rest);
      if k0 in Keys(m) {
        assert Without(ks, Keys(m)) == wr;
      } else {
        WithoutExtend(Keys(rest), Keys(m), k0);
        assert Without(ks, Keys(m)) == [k0] + wr;
        calc {
          Keys(Assign(m, src));
          Keys(m') + Without(Keys(rest), Keys(m'));
          Keys(m') + wr;
          Keys(m) + ([k0] + wr);
          Keys(m) + Without(ks, Keys(m));
        }
      }
    }
  }

  // ---------------------------------------------------------------------
  // JSON values
  // ---------------------------------------------------------------------

  /** Numbers are integers here; `NaN` is the result of a failed `parseInt`. */
  datatype Json =
    | JUndefined
    | JNull
    | JBool(b: bool)
    | JNum(n: int)
    | JNaN
    | JStr(s: string)
    | JArr(items: seq<Json>)
    | JObj(fields: OMap<Json>)

  /**
   * An object literal `{k1: v1, k2: v2, ...}`: a repeated key keeps its
   * first position and takes its last value.
   */
  function Object(fs: seq<(string, Json)>): Json
  {
    JObj(PutAll([], fs))
  }

  function PutAll<V>(m: OMap<V>, fs: seq<(string, V)>): OMap<V>
    decreases |fs|
  {
    if fs == [] then m else PutAll(Put(m, fs[0].0, fs[0].1), fs[1..])
  }

  /** The last value given for `k` in an entry list. */
  function Find<V>(fs: seq<(string, V)>, k: string): Option<V>
  {
    if fs == [] then None
    else
      var later := Find(fs[1..], k);
      if later.Some? then later else if fs[0].0 == k then Some(fs[0].1) else None
  }

  lemma {:induction false} LookupPutAll<V>(m: OMap<V>, fs: seq<(string, V)>, k: string)
    ensures Lookup(PutAll(m, fs), k) == if Find(fs, k).Some? then Find(fs, k) else Lookup(m, k)
    decreases |fs|
  {
    if fs != [] {
      LookupPutAll(Put(m, fs[0].0, fs[0].1), fs[1..], k);
      LookupPut(m, fs[0].0, fs[0].1, k);
    }
  }

  /** Reading a key of an object literal gives the last value written for it. */
  lemma GetObject(fs: seq<(string, Json)>, k: string)
    ensures Get(Object(fs), k) == if Find(fs, k).Some? then Find(fs, k).value else JUndefined
  {
    LookupPutAll([], fs, k);
  }

  lemma GetObject1(k1: string, v1: Json, k: string)
    ensures Get(Object([(k1, v1)]), k) == if k == k1 then v1 else JUndefined
  {
    var fs := [(k1, v1)];
    assert fs[1..] == [];
    GetObject(fs, k);
  }

  lemma ObjectSingle(k1: string, v1: Json)
    ensures Object([(k1, v1)]).fields == [(k1, v1)]
  {
    var fs := [(k1, v1)];
    assert fs[1..] == [];
    assert Put([], k1, v1) == [(k1, v1)];
    assert PutAll(Put([], k1, v1), fs[1..]) == Put([], k1, v1);
  }

  lemma GetObject2(k1: string, v1: Json, k2: string, v2: Json)
    requires k1 != k2
    ensures Get(Object([(k1, v1), (k2, v2)]), k1) == v1
    ensures Get(Object([(k1, v1), (k2, v2)]), k2) == v2
  {
    var fs := [(k1, v1), (k2, v2)];
    assert fs[1..] == [(k2, v2)];
    assert fs[1..][1..] == [];
    var t2 := fs[1..];
    assert t2[0] == (k2, v2) && Find(t2[1..], k2) == None && Find(t2[1..], k1) == None;
    assert Find(t2, k1) == None;
    assert Find(t2, k2) == Some(v2);
    GetObject(fs, k1);
    GetObject(fs, k2);
  }

  /** JavaScript truthiness. */
  predicate Truthy(v: Json)
  {
    match v
    case JUndefined => false
    case JNull => false
    case JBool(b) => b
    case JNum(n) => n != 0
    case JNaN => false
    case JStr(s) => s != ""
    case JArr(_) => true
    case JObj(_) => true
  }

  /** `Object.keys(v)` of an object; other values are taken to have none. */
  function ObjKeys(v: Json): seq<string>
  {
    if v.JObj? then Keys(v.fields) else []
  }

  /** `v[k]` on a value known not to be undefined or null. */
  function Get(v: Json, k: string): (r: Json)
    ensures !v.JObj? ==> r == JUndefined
    ensures v.JObj? ==> (r != JUndefined || Lookup(v.fields, k) == Some(JUndefined) <==> k in Keys(v.fields))
  {
    if v.JObj? then
      LookupIffKey(v.fields, k);
      match Lookup(v.fields, k)
      case Some(x) => x
      case None => JUndefined
    else JUndefined
  }

  /** The two values whose properties cannot be read. */
  predicate Absent(v: Json)
  {
    v == JUndefined || v == JNull
  }

  /** `v[k]`, which throws a TypeError when `v` is undefined or null. */
  function Member(v: Json, k: string): (r: Result<Json, Failure>)
    ensures r.Err? <==> v == JUndefined || v == JNull
    ensures r.Ok? ==> r.value == Get(v, k)
  {
    if v == JUndefined || v == JNull then Err(TypeError("Cannot read property '" + k + "' of " + ToJsString(v)))
    else Ok(Get(v, k))
  }

  /** `v[k] = x` in strict mode: only an object takes the write. */
  function SetMember(v: Json, k: string, x: Json): (r: Result<Json, Failure>)
    ensures r.Ok? <==> v.JObj?
    ensures r.Ok? ==> r.value.JObj? && Get(r.value, k) == x
    ensures r.Ok? ==> forall k' :: k' != k ==> Get(r.value, k') == Get(v, k')
  {
    if v.JObj? then
      assert forall k' :: Lookup(Put(v.fields, k, x), k') == if k' == k then Some(x) else Lookup(v.fields, k') by {
        forall k' { LookupPut(v.fields, k, x, k'); }
      }
      Ok(JObj(Put(v.fields, k, x)))
    else Err(TypeError("Cannot create property '" + k + "' on " + ToJsString(v)))
  }

  // ---------------------------------------------------------------------
  // String conversion and parseInt
  // ---------------------------------------------------------------------

  function DigitChar(d: nat): char
    requires d < 10
  {
    "0123456789"[d]
  }

  predicate IsDigit(c: char)
  {
    '0' <= c <= '9'
  }

  /** Decimal notation of a natural number, without leading zeros. */
  function NatToString(n: nat): (r: string)
    ensures |r| > 0 && forall i :: 0 <= i < |r| ==> IsDigit(r[i])
  {
    if n < 10 then [DigitChar(n)] else NatToString(n / 10) + [DigitChar(n % 10)]
  }

  function IntToString(n: int): string
  {
    if n < 0 then "-" + NatToString(-n) else NatToString(n)
  }

  /** `String(v)`, as string concatenation and template literals apply it. */
  function ToJsString(v: Json): string
    decreases v, 1
  {
    match v
    case JUndefined => "undefined"
    case JNull => "null"
    case JBool(b) => if b then "true" else "false"
    case JNum(n) => IntToString(n)
    case JNaN => "NaN"
    case JStr(s) => s
    case JArr(items) => JoinItems(items, v)
    case JObj(_) => "[object Object]"
  }

  /** `Array.prototype.join(',')`: undefined and null elements give "". */
  function JoinItems(items: seq<Json>, ghost parent: Json): string
    requires forall i :: 0 <= i < |items| ==> items[i] < parent
    decreases parent, 0, |items|
  {
    if items == [] then ""
    else
      var head := if items[0] == JUndefined || items[0] == JNull then "" else ToJsString(items[0]);
      if |items| == 1 then head else head + "," + JoinItems(items[1..], parent)
  }

  /** The value of a string of decimal digits. */
  function DigitsValue(ds: string): nat
    requires forall i :: 0 <= i < |ds| ==> IsDigit(ds[i])
  {
    if ds == [] then 0
    else
      assert IsDigit(ds[|ds| - 1]);
      DigitsValue(ds[..|ds| - 1]) * 10 + (ds[|ds| - 1] as int - '0' as int)
  }

  /** The longest prefix of `s` made of decimal digits. */
  function DigitPrefix(s: string): (r: string)
    ensures r <= s && forall i :: 0 <= i < |r| ==> IsDigit(r[i])
    ensures |r| < |s| ==> !IsDigit(s[|r|])
  {
    if s == [] || !IsDigit(s[0]) then "" else [s[0]] + DigitPrefix(s[1..])
  }

  /** White space and line terminators, the characters `parseInt` skips before the number. */
  predicate IsSpace(c: char)
  {
    c == ' ' || c == '\t' || c == '\n' || c == '\r' || c == '\U{000B}' || c == '\U{000C}'
    || c == '\U{00A0}' || c == '\U{FEFF}' || c == '\U{1680}' || ('\U{2000}' <= c <= '\U{200A}')
    || c == '\U{2028}' || c == '\U{2029}' || c == '\U{202F}' || c == '\U{205F}' || c == '\U{3000}'
  }

  function TrimStart(s: string): (r: string)
    ensures |r| <= |s| && r == s[|s| - |r|..] && (r == [] || !IsSpace(r[0]))
  {
    if s != [] && IsSpace(s[0]) then TrimStart(s[1..]) else s
  }

  /**
   * `parseInt(s)` in base 10: leading white space, an optional sign, then
   * the longest run of digits; no digits gives NaN.
   */
  function ParseInt(s: string): Json
  {
    ParseSigned(TrimStart(s))
  }

  /** An optional sign, then the digits. */
  function ParseSigned(t: string): Json
  {
    if |t| > 0 && t[0] == '-' then
      match ParseDigits(t[1..])
      case JNum(n) => JNum(-n)
      case other => other
    else if |t| > 0 && t[0] == '+' then ParseDigits(t[1..])
    else ParseDigits(t)
  }

  /** The longest run of leading digits as a number; none gives NaN. */
  function ParseDigits(u: string): Json
  {
    var ds := DigitPrefix(u);
    if ds == "" then JNaN else JNum(DigitsValue(ds))
  }

  lemma {:induction false} NatToStringValue(n: nat)
    ensures DigitsValue(NatToString(n)) == n
  {
    if n >= 10 {
      NatToStringValue(n / 10);
      var s := NatToString(n);
      assert s[..|s| - 1] == NatToString(n / 10);
    }
  }

  lemma {:induction false} DigitPrefixAll(s: string)
    requires forall i :: 0 <= i < |s| ==> IsDigit(s[i])
    ensures DigitPrefix(s) == s
  {
    if s != [] {
      DigitPrefixAll(s[1..]);
    }
  }

  /** Reading back the decimal notation of a number gives the number. */
  lemma ParseIntNatToString(n: nat)
    ensures ParseInt(NatToString(n)) == JNum(n)
  {
    ParseIntDigits(NatToString(n));
    NatToStringValue(n);
  }

  /** `parseInt` of a string of digits is their value. */
  lemma ParseIntDigits(s: string)
    requires s != [] && forall i :: 0 <= i < |s| ==> IsDigit(s[i])
    ensures ParseInt(s) == JNum(DigitsValue(s))
  {
    SignlessDigits(s);
    ParseDigitsAll(s);
  }

  /** Neither white space nor a sign starts with a digit. */
  lemma SignlessDigits(s: string)
    requires s != [] && IsDigit(s[0])
    ensures ParseInt(s) == ParseDigits(s)
  {
    assert TrimStart(s) == s;
  }

  lemma ParseDigitsAll(s: string)
    requires s != [] && forall i :: 0 <= i < |s| ==> IsDigit(s[i])
    ensures ParseDigits(s) == JNum(DigitsValue(s))
  {
    DigitPrefixAll(s);
  }

  /** `Array.prototype.join(sep)` on strings. */
  function Join(parts: seq<string>, sep: string): string
  {
    if parts == [] then ""
    else if |parts| == 1 then parts[0]
    else parts[0] + sep + Join(parts[1..], sep)
  }

  /** `String.prototype.split(c)`: the pieces between the occurrences of `c`. */
  function Split(s: string, c: char): (r: seq<string>)
    ensures |r| > 0
  {
    if s == [] then [""]
    else
      var rest := Split(s[1..], c);
      if s[0] == c then [""] + rest else [[s[0]] + rest[0]] + rest[1..]
  }

  lemma {:induction false} SplitPrefix(w: string, s: string, c: char)
    requires c !in w
    ensures Split(w + s, c) == [w + Split(s, c)[0]] + Split(s, c)[1..]
  {
    if w != [] {
      assert (w + s)[0] == w[0] && (w + s)[1..] == w[1..] + s;
      SplitPrefix(w[1..], s, c);
      assert [w[0]] + (w[1..] + Split(s, c)[0]) == w + Split(s, c)[0];
    } else {
      var pieces := Split(s, c);
      assert w + s == s && w + pieces[0] == pieces[0];
      assert [pieces[0]] + pieces[1..] == pieces;
    }
  }

  /** Splitting joined pieces that do not contain the separator gives them back. */
  lemma {:induction false} SplitJoin(parts: seq<string>, c: char)
    requires |parts| > 0
    requires forall i :: 0 <= i < |parts| ==> c !in parts[i]
    ensures Split(Join(parts, [c]), c) == parts
  {
    if |parts| == 1 {
      SplitPrefix(parts[0], "", c);
      assert parts[0] + "" == parts[0];
    } else {
      var rest := Join(parts[1..], [c]);
      SplitJoin(parts[1..], c);
      assert Join(parts, [c]) == parts[0] + ([c] + rest);
      SplitPrefix(parts[0], [c] + rest, c);
      assert ([c] + rest)[0] == c && ([c] + rest)[1..] == rest;
      var pieces := Split([c] + rest, c);
      assert pieces == [""] + parts[1..];
      assert pieces[0] == "" && pieces[1..] == parts[1..];
      assert parts[0] + "" == parts[0];
      assert [parts[0]] + parts[1..] == parts;

    }
  }
}
