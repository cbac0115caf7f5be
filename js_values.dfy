/** The JavaScript values that the invocation pipeline of src/app.ts inspects, and the
    built-in operations it applies to them: `typeof`, truthiness, reading a property,
    `Object.getOwnPropertyNames`, `String(v)` and `String.prototype.indexOf`. */
module JsValues {

  newtype byte = x: int | 0 <= x < 256

  datatype Option<T> = None | Some(value: T)

  /** A JavaScript value. Numbers are modelled by their integer value; an array lists its
      elements and a plain object its own properties in property order; a callable is
      identified by its source text, which is what `String(f)` gives. */
  datatype JsValue =
    | Undef
    | Null
    | Bool(b: bool)
    | Num(n: int)
    | Str(s: string)
    | Arr(elems: seq<JsValue>)
    | Obj(props: seq<(string, JsValue)>)
    | Fn(source: string)

  /** A thrown error, represented by the text its `toString()` returns. */
  datatype JsError = JsError(text: string)

  /** The value of a built-in that may throw. */
  datatype Result<T> = Ok(value: T) | Err(error: JsError)

  /** The `typeof` operator. */
  function TypeOf(v: JsValue): string {
    match v
    case Undef => "undefined"
    case Null => "object"
    case Bool(_) => "boolean"
    case Num(_) => "number"
    case Str(_) => "string"
    case Arr(_) => "object"
    case Obj(_) => "object"
    case Fn(_) => "function"
  }

  /** What `if (v)` tests. */
  predicate Truthy(v: JsValue) {
    match v
    case Undef => false
    case Null => false
    case Bool(b) => b
    case Num(n) => n != 0
    case Str(s) => s != ""
    case _ => true
  }

  /** The test `v && typeof v === "object"`: it admits exactly the arrays and the records. */
  predicate IsNonNullObject(v: JsValue): (r: bool)
    ensures r <==> v.Arr? || v.Obj?
  {
    Truthy(v) && TypeOf(v) == "object"
  }

  // ---------------------------------------------------------------------------
  // Decimal digit strings: the names of array indices and `String(n)` for integers.

  predicate IsDigits(s: string) {
    forall i :: 0 <= i < |s| ==> '0' <= s[i] <= '9'
  }

  function Digit(d: nat): (c: char)
    requires d < 10
    ensures '0' <= c <= '9'
  {
    (('0' as int) + d) as char
  }

  /** The decimal numeral of `n`, without leading zeros. */
  function NatToString(n: nat): (s: string)
    ensures |s| > 0 && IsDigits(s)
    ensures s[0] == '0' <==> n == 0
    ensures |s| == 1 <==> n < 10
    decreases n
  {
    if n < 10 then [Digit(n)] else NatToString(n / 10) + [Digit(n % 10)]
  }

  function IntToString(n: int): string {
    if n < 0 then "-" + NatToString(-n) else NatToString(n)
  }

  /** The number a string of digits denotes. */
  function DigitsValue(s: string): nat
    requires IsDigits(s)
    decreases |s|
  {
    if s == [] then 0
    else 10 * DigitsValue(s[..|s| - 1]) + (s[|s| - 1] as int - '0' as int)
  }

  /** The array index a property name denotes: a non-empty digit string without a
      leading zero (so "01" and "" name ordinary properties). */
  function ParseIndex(key: string): Option<nat> {
    if |key| > 0 && IsDigits(key) && (|key| == 1 || key[0] != '0')
    then Some(DigitsValue(key))
    else None
  }

  lemma {:induction false} IndexNameParses(n: nat)
    ensures ParseIndex(NatToString(n)) == Some(n)
    decreases n
  {
    var s := NatToString(n);
    if n < 10 {
      assert s[..|s| - 1] == [];
    } else {
      IndexNameParses(n / 10);
      assert s[..|s| - 1] == NatToString(n / 10);
      assert DigitsValue(s) == 10 * (n / 10) + n % 10;
    }
  }

  lemma {:induction false} ParsedIndexNames(key: string)
    requires ParseIndex(key).Some?
    ensures NatToString(ParseIndex(key).value) == key
    decreases |key|
  {
    var i := ParseIndex(key).value;
    if |key| == 1 {
      assert key[..|key| - 1] == [];
      assert DigitsValue(key) == 10 * DigitsValue(key[..|key| - 1]) + (key[0] as int - '0' as int);
      assert NatToString(i) == [Digit(i)];
    } else {
      var t := key[..|key| - 1];
      assert key == t + [key[|key| - 1]];
      assert IsDigits(t);
      assert ParseIndex(t) == Some(DigitsValue(t));
      ParsedIndexNames(t);
      assert t[0] == key[0] != '0';
      assert DigitsValue(t) != 0;
      assert i == 10 * DigitsValue(t) + (key[|key| - 1] as int - '0' as int);
      assert i >= 10;
      assert i / 10 == DigitsValue(t) && i % 10 == key[|key| - 1] as int - '0' as int;
      assert NatToString(i) == NatToString(i / 10) + [Digit(i % 10)];
    }
  }

  // ---------------------------------------------------------------------------
  // Properties.

  /** The value of the first own property named `key`, or undefined. */
  function Lookup(props: seq<(string, JsValue)>, key: string): (r: JsValue)
    ensures (forall i :: 0 <= i < |props| ==> props[i].0 != key) ==> r == Undef
    ensures forall i :: (0 <= i < |props| && props[i].0 == key &&
              forall j :: 0 <= j < i ==> props[j].0 != key) ==> r == props[i].1
    decreases |props|
  {
    if props == [] then Undef
    else if props[0].0 == key then props[0].1
    else
      assert forall i :: 1 <= i < |props| ==> props[1..][i - 1] == props[i];
      Lookup(props[1..], key)
  }

  /** `v[key]` for an own property of a record or an array. Inherited properties are not
      modelled; the pipeline reads properties of primitives only under names they lack. */
  function Get(v: JsValue, key: string): JsValue {
    match v
    case Obj(props) => Lookup(props, key)
    case Arr(es) =>
      if key == "length" then Num(|es|)
      else (match ParseIndex(key)
        case Some(i) => if i < |es| then es[i] else Undef
        case None => Undef)
    case _ => Undef
  }

  /** Whether `key` names an own property of a record or an array. */
  predicate HasOwn(v: JsValue, key: string)
    requires v.Arr? || v.Obj?
  {
    if v.Obj? then exists i :: 0 <= i < |v.props| && v.props[i].0 == key
    else key == "length" || (ParseIndex(key).Some? && ParseIndex(key).value < |v.elems|)
  }

  /** `Object.getOwnPropertyNames(v)` for a record or an array: the record's keys in order,
      or the array's index names followed by "length". */
  function OwnPropertyNames(v: JsValue): (names: seq<string>)
    requires v.Arr? || v.Obj?
    ensures forall k :: k in names <==> HasOwn(v, k)
  {
    match v
    case Obj(props) =>
      var names := seq(|props|, i requires 0 <= i < |props| => props[i].0);
      assert forall k :: k in names ==> exists i :: 0 <= i < |props| && props[i].0 == k;
      assert forall i :: 0 <= i < |props| ==> names[i] == props[i].0;
      names
    case Arr(es) =>
      var names := seq(|es|, i requires 0 <= i < |es| => NatToString(i)) + ["length"];
      forall k ensures k in names <==> HasOwn(v, k) {
        if k in names && k != "length" {
          var i :| 0 <= i < |es| && names[i] == k;
          IndexNameParses(i);
        }
        if HasOwn(v, k) && k != "length" {
          ParsedIndexNames(k);
          assert names[ParseIndex(k).value] == k;
        }
      }
      names
  }

  // ---------------------------------------------------------------------------
  // String conversion and searching.

  /** `String(v)`, as a template literal renders a value. */
  function ToJsString(v: JsValue): string {
    match v
    case Undef => "undefined"
    case Null => "null"
    case Bool(b) => if b then "true" else "false"
    case Num(n) => IntToString(n)
    case Str(s) => s
    case Arr(es) => JoinElements(es)
    case Obj(_) => "[object Object]"
    case Fn(source) => source
  }

  /** `Array.prototype.join(",")`: undefined and null elements render as empty. */
  function JoinElements(es: seq<JsValue>): string {
    if es == [] then ""
    else
      var first := if es[0].Undef? || es[0].Null? then "" else ToJsString(es[0]);
      if |es| == 1 then first else first + "," + JoinElements(es[1..])
  }

  predicate OccursAt(s: string, pat: string, j: int) {
    0 <= j && j + |pat| <= |s| && s[j..j + |pat|] == pat
  }

  predicate HasPrefix(s: string, pat: string) {
    |pat| <= |s| && s[..|pat|] == pat
  }

  function IndexFrom(s: string, pat: string, k: nat): (r: int)
    ensures r == -1 || (k <= r && OccursAt(s, pat, r))
    ensures forall j :: k <= j && (r == -1 || j < r) ==> !OccursAt(s, pat, j)
    decreases |s| - k
  {
    if k + |pat| > |s| then -1
    else if s[k..k + |pat|] == pat then k
    else IndexFrom(s, pat, k + 1)
  }

  /** `s.indexOf(pat)`: the first position at which `pat` occurs in `s`, or -1. */
  function IndexOf(s: string, pat: string): (r: int)
    ensures r == -1 <==> forall j :: !OccursAt(s, pat, j)
    ensures r != -1 ==> OccursAt(s, pat, r) && forall j :: 0 <= j < r ==> !OccursAt(s, pat, j)
  {
    IndexFrom(s, pat, 0)
  }

  /** `s.indexOf(pat) === 0` is the prefix test. */
  lemma IndexOfZeroIsPrefix(s: string, pat: string)
    ensures IndexOf(s, pat) == 0 <==> HasPrefix(s, pat)
  {
    if HasPrefix(s, pat) {
      assert OccursAt(s, pat, 0);
    }
  }

  /** A pattern longer than the text never occurs in it. */
  lemma ShortTextHasNoMatch(s: string, pat: string)
    requires |s| < |pat|
    ensures IndexOf(s, pat) == -1
  {
  }
}
