/**
 * The slice of JavaScript's value semantics that the session core relies on:
 * parsed JSON values (claims, server payloads, stored records), truthiness,
 * the `??` operator, optional property access `v?.k`, object spread, strict
 * equality and the `Number(...)` conversion.
 */
module Js {

  /** A JavaScript value. `NaN` is the one non-finite number the core can
      produce (from `Number(...)`); objects are maps from property names. */
  datatype JsVal =
    | Undefined
    | Null
    | Bool(b: bool)
    | Num(n: real)
    | NaN
    | Str(s: string)
    | Arr(items: seq<JsVal>)
    | Obj(props: map<string, JsVal>)

  /** `v === null || v === undefined`: the values `??` falls through. */
  predicate Nullish(v: JsVal) {
    v.Undefined? || v.Null?
  }

  /** `Boolean(v)`. */
  predicate Truthy(v: JsVal) {
    match v
    case Undefined => false
    case Null => false
    case Bool(b) => b
    case Num(n) => n != 0.0
    case NaN => false
    case Str(s) => s != ""
    case Arr(_) => true
    case Obj(_) => true
  }

  /** `a ?? b`. */
  function Coalesce(a: JsVal, b: JsVal): JsVal {
    if Nullish(a) then b else a
  }

  /** `v?.k`: the property of an object, `undefined` for every other value. */
  function Get(v: JsVal, k: string): JsVal {
    if v.Obj? && k in v.props then v.props[k] else Undefined
  }

  /** The own properties that `{ ...v }` copies. */
  function Props(v: JsVal): map<string, JsVal> {
    if v.Obj? then v.props else map[]
  }

  /** Property assignment `o.k = v` (or a literal entry `k: v`). A property
      holding `undefined` is kept out of the map: no code in the core tells
      `{ k: undefined }` from `{}`, and JSON.stringify drops it. */
  function Put(m: map<string, JsVal>, k: string, v: JsVal): (r: map<string, JsVal>)
    ensures r.Keys <= m.Keys + {k}
    ensures Get(Obj(r), k) == v
    ensures forall j :: j != k ==> Get(Obj(r), j) == Get(Obj(m), j)
    ensures v == Undefined ==> k !in r
    ensures v != Undefined ==> k in r && r[k] == v
  {
    if v == Undefined then m - {k} else m[k := v]
  }

  /** A character outside the Basic Multilingual Plane, which JavaScript
      stores as a surrogate pair. */
  predicate Astral(c: char) {
    c > '\U{FFFF}'
  }

  /** `s.length`: JavaScript counts UTF-16 code units, so each astral
      character counts twice. */
  function JsLength(s: string): (n: nat)
    ensures |s| <= n <= 2 * |s|
    ensures (forall i :: 0 <= i < |s| ==> !Astral(s[i])) ==> n == |s|
    ensures (forall i :: 0 <= i < |s| ==> Astral(s[i])) ==> n == 2 * |s|
  {
    if s == [] then 0 else (if Astral(s[0]) then 2 else 1) + JsLength(s[1..])
  }

  /** Lengths add up over concatenation. With the single-character cases
      fixed by `JsLength`'s contract, this determines the length of every
      string, mixed ones included. */
  lemma {:induction false} JsLengthConcat(a: string, b: string)
    ensures JsLength(a + b) == JsLength(a) + JsLength(b)
    decreases |a|
  {
    if a == [] {
      assert a + b == b;
    } else {
      assert (a + b)[0] == a[0];
      assert (a + b)[1..] == a[1..] + b;
      JsLengthConcat(a[1..], b);
    }
  }

  /** A mixed string: two letters and two emoji are six code units. */
  lemma MixedLength()
    ensures JsLength("ab\U{1F600}\U{1F600}") == 6
  {
    JsLengthConcat("ab", "\U{1F600}\U{1F600}");
  }

  /** One emoji is two code units long. */
  lemma AstralCountsTwice()
    ensures JsLength("\U{1F600}") == 2 && JsLength("\U{1F600}\U{1F600}\U{1F600}") == 6
  {
  }

  /** `a === b`. Objects and arrays compare by reference in JavaScript, which
      a value model cannot see; two of them are never taken to be equal, and
      `NaN` equals nothing. */
  predicate StrictEq(a: JsVal, b: JsVal) {
    !a.Obj? && !a.Arr? && !a.NaN? && a == b
  }

  predicate IsDigit(c: char) {
    '0' <= c <= '9'
  }

  predicate AllDigits(s: string) {
    forall i :: 0 <= i < |s| ==> IsDigit(s[i])
  }

  /** The decimal value of a string of digits. */
  function DigitsValue(s: string): nat
    requires AllDigits(s)
  {
    if s == [] then 0
    else DigitsValue(s[..|s| - 1]) * 10 + (s[|s| - 1] as int - '0' as int)
  }

  /** Leading zeros do not change a decimal value ("007" is 7). */
  lemma {:induction false} DigitsValueLeadingZero(s: string)
    requires AllDigits(s)
    ensures AllDigits(['0'] + s) && DigitsValue(['0'] + s) == DigitsValue(s)
  {
    assert AllDigits(['0'] + s) by {
      forall i | 0 <= i < |['0'] + s| ensures IsDigit((['0'] + s)[i]) {
        if i > 0 { assert (['0'] + s)[i] == s[i - 1]; }
      }
    }
    if s != [] {
      var t := s[..|s| - 1];
      assert (['0'] + s)[..|['0'] + s| - 1] == ['0'] + t;
      assert AllDigits(t) by {
        forall i | 0 <= i < |t| ensures IsDigit(t[i]) { assert t[i] == s[i]; }
      }
      DigitsValueLeadingZero(t);
    } else {
      assert (['0'] + s)[..0] == [];
    }
  }

  /** A few conversions as JavaScript performs them. */
  lemma DigitsValueExamples()
    ensures DigitsValue("30") == 30 && DigitsValue("0") == 0 && DigitsValue("") == 0
  {
    assert "30"[..1] == "3";
    assert "3"[..0] == "";
    assert "0"[..0] == "";
  }

  /** `Number(v)`, also the conversion behind `v * 1000`. Strings are read only
      when they are empty or made of decimal digits; arrays only when empty. */
  function ToNumber(v: JsVal): (r: JsVal)
    ensures r.Num? || r.NaN?
    ensures v.Num? ==> r == v
    ensures Nullish(v) ==> (r.NaN? <==> v.Undefined?)
    ensures v == Null ==> r == Num(0.0)
    ensures v.Bool? ==> r == Num(if v.b then 1.0 else 0.0)
    ensures v.Str? && v.s == "" ==> r == Num(0.0)
    ensures v.Str? ==> (r.Num? <==> AllDigits(v.s))
    ensures v.Str? && AllDigits(v.s) ==> r == Num(DigitsValue(v.s) as real)
    ensures v.Obj? || v.NaN? ==> r == NaN
    ensures v.Arr? ==> (r == Num(0.0) <==> v.items == [])
  {
    match v
    case Undefined => NaN
    case Null => Num(0.0)
    case Bool(b) => Num(if b then 1.0 else 0.0)
    case Num(n) => v
    case NaN => NaN
    case Str(s) => if AllDigits(s) then Num(DigitsValue(s) as real) else NaN
    case Arr(items) => if items == [] then Num(0.0) else NaN
    case Obj(_) => NaN
  }

  /** `Array.isArray(v) ? v : []`. */
  function AsArray(v: JsVal): seq<JsVal> {
    if v.Arr? then v.items else []
  }

  /** The first of `vs` that is neither null nor undefined, else `default`:
      what the chain `vs[0] ?? vs[1] ?? ... ?? default` evaluates to. */
  function FirstDefined(vs: seq<JsVal>, default: JsVal): JsVal {
    if vs == [] then default
    else if !Nullish(vs[0]) then vs[0]
    else FirstDefined(vs[1..], default)
  }

  lemma FirstDefinedChain1(a: JsVal, default: JsVal)
    ensures FirstDefined([a], default) == Coalesce(a, default)
  {
    assert [a][1..] == [];
    assert FirstDefined([], default) == default;
  }

  lemma FirstDefinedChain2(a: JsVal, b: JsVal, default: JsVal)
    ensures FirstDefined([a, b], default) == Coalesce(a, Coalesce(b, default))
  {
    assert [a, b][1..] == [b];
    FirstDefinedChain1(b, default);
  }

  lemma FirstDefinedChain4(a: JsVal, b: JsVal, c: JsVal, d: JsVal, default: JsVal)
    ensures FirstDefined([a, b, c, d], default) == Coalesce(a, Coalesce(b, Coalesce(c, Coalesce(d, default))))
  {
    assert [a, b, c, d][1..] == [b, c, d];
    assert [b, c, d][1..] == [c, d];
    FirstDefinedChain2(c, d, default);
  }
}
