/** The few JavaScript rules the card relies on: truthiness and `||`,
    property access, conversion to a string in a template literal, and
    object spread. */
module JsRules {
  import opened Json

  /** What evaluating an expression in the card can throw: reading a
      property of null. */
  datatype JsError = TypeError

  /** JavaScript falsiness of a property value; `None` is `undefined`.
      (NaN cannot come out of JSON, and -0 is the integer 0 here.) */
  predicate Falsy(v: Option<Json>)
  {
    v.None? || v == Some(JNull) || v == Some(JBool(false)) || v == Some(JNum(0)) || v == Some(JStr(""))
  }

  /** `v || fallback` */
  function Or(v: Option<Json>, fallback: Json): (r: Json)
    ensures Falsy(v) ==> r == fallback
    ensures !Falsy(v) ==> v == Some(r)
  {
    if Falsy(v) then fallback else v.value
  }

  /** `v.key` for a value that is not null: an own property of an object,
      `undefined` for anything else (none of the keys the card reads is a
      built-in property of strings or arrays). */
  function Prop(v: Json, key: string): Option<Json>
  {
    if v.JObj? then Lookup(v.fields, key) else None
  }

  /** `resp.ok` */
  predicate StatusOk(status: int)
  {
    200 <= status <= 299
  }

  function DigitChar(d: nat): char
    requires d < 10
  {
    (48 + d) as char
  }

  /** The decimal form of a natural number. */
  function NatToString(n: nat): (r: string)
    ensures |r| > 0
    ensures forall i :: 0 <= i < |r| ==> '0' <= r[i] <= '9'
  {
    if n < 10 then [DigitChar(n)] else NatToString(n / 10) + [DigitChar(n % 10)]
  }

  function IntToString(n: int): string
  {
    if n < 0 then "-" + NatToString(-n) else NatToString(n)
  }

  /** `String(v)`, which is what `${v}` inserts into a template literal. */
  function ToStr(v: Option<Json>): string
  {
    match v
    case None => "undefined"
    case Some(j) => JsonToStr(j)
  }

  function JsonToStr(j: Json): string
    decreases j, 1, 0
  {
    match j
    case JNull => "null"
    case JBool(b) => if b then "true" else "false"
    case JNum(n) => IntToString(n)
    case JStr(s) => s
    case JArr(items) => JoinFrom(j, 0)
    case JObj(_) => "[object Object]"
  }

  /** `Array.prototype.join(",")` from index `i` on; null elements give "". */
  function JoinFrom(arr: Json, i: nat): string
    requires arr.JArr?
    decreases arr, 0, |arr.items| - i
  {
    if i >= |arr.items| then ""
    else
      var piece := if arr.items[i] == JNull then "" else JsonToStr(arr.items[i]);
      if i + 1 == |arr.items| then piece else piece + "," + JoinFrom(arr, i + 1)
  }

  /** The own enumerable properties that `{ ...v }` copies out of `v`:
      the fields of an object, the indices of an array or of a string,
      and nothing for any other value. */
  function Spread(v: Json): map<string, Json>
  {
    match v
    case JObj(m) => m
    case JArr(items) => IndexMap(items)
    case JStr(s) => IndexMap(seq(|s|, i requires 0 <= i < |s| => JStr([s[i]])))
    case _ => map[]
  }

  function IndexMap(items: seq<Json>): map<string, Json>
  {
    if items == [] then map[]
    else IndexMap(items[..|items| - 1])[NatToString(|items| - 1) := items[|items| - 1]]
  }

  /** Every key `Spread` produces for a non-object is a decimal index. */
  lemma {:induction false} IndexKeysAreDigits(items: seq<Json>, k: string)
    requires k in IndexMap(items)
    ensures |k| > 0 && forall i :: 0 <= i < |k| ==> '0' <= k[i] <= '9'
  {
    if items != [] && k != NatToString(|items| - 1) {
      IndexKeysAreDigits(items[..|items| - 1], k);
    }
  }

  /** A key that is not all digits is in a spread exactly when it is a
      field of the spread object. */
  lemma SpreadNamedKey(v: Json, k: string)
    requires exists i :: 0 <= i < |k| && !('0' <= k[i] <= '9')
    ensures k in Spread(v) <==> v.JObj? && k in v.fields
  {
    match v
    case JArr(items) =>
      if k in IndexMap(items) { IndexKeysAreDigits(items, k); }
    case JStr(s) =>
      var items := seq(|s|, i requires 0 <= i < |s| => JStr([s[i]]));
      if k in IndexMap(items) { IndexKeysAreDigits(items, k); }
    case _ =>
  }

  // ---- parseInt ----------------------------------------------------------

  /** The characters `parseInt` skips before a number: the white space
      and line terminators of sections 12.2 and 12.3 of ECMA-262, 15th
      edition (ECMAScript 2024). */
  predicate IsJsSpace(c: char)
  {
    var k := c as int;
    k == 0x09 || k == 0x0A || k == 0x0B || k == 0x0C || k == 0x0D || k == 0x20 || k == 0xA0 ||
    k == 0x1680 || (0x2000 <= k <= 0x200A) || k == 0x2028 || k == 0x2029 || k == 0x202F ||
    k == 0x205F || k == 0x3000 || k == 0xFEFF
  }

  function TrimStart(s: string): (r: string)
    ensures |r| <= |s| && r == s[|s| - |r|..]
    ensures r == [] || !IsJsSpace(r[0])
  {
    if s != [] && IsJsSpace(s[0]) then TrimStart(s[1..]) else s
  }

  /** The value of `c` as a digit in base `radix`, if it is one. */
  function DigitValue(c: char, radix: nat): (d: Option<nat>)
    ensures d.Some? ==> d.value < radix
  {
    var v: int :=
      if '0' <= c <= '9' then c as int - '0' as int
      else if 'a' <= c <= 'z' then c as int - 'a' as int + 10
      else if 'A' <= c <= 'Z' then c as int - 'A' as int + 10
      else radix;
    if 0 <= v < radix then Some(v) else None
  }

  /** The length of the longest prefix of `s` made of base-`radix` digits. */
  function DigitRun(s: string, radix: nat): (n: nat)
    ensures n <= |s|
    ensures forall i :: 0 <= i < n ==> DigitValue(s[i], radix).Some?
    ensures n < |s| ==> DigitValue(s[n], radix).None?
  {
    if s != [] && DigitValue(s[0], radix).Some? then 1 + DigitRun(s[1..], radix) else 0
  }

  /** The number a string of base-`radix` digits denotes. */
  function RunValue(ds: string, radix: nat): nat
    requires forall i :: 0 <= i < |ds| ==> DigitValue(ds[i], radix).Some?
  {
    if ds == [] then 0
    else
      var prefix := ds[..|ds| - 1];
      assert forall i :: 0 <= i < |prefix| ==> prefix[i] == ds[i];
      var d: nat := DigitValue(ds[|ds| - 1], radix).value;
      var high := RunValue(prefix, radix);
      MulNonNegative(high, radix);
      high * radix + d
  }

  /** `parseInt(s)` with no radix: leading white space skipped, one
      optional sign, a `0x` or `0X` prefix selecting base 16, then the
      longest run of digits; no digits at all is NaN, here `None`. */
  function ParseInt(s: string): Option<int>
  {
    var t := TrimStart(s);
    if t != [] && t[0] == '-' then
      (match ParseUnsigned(t[1..]) case None => None case Some(m) => Some(-m))
    else if t != [] && t[0] == '+' then ParseUnsigned(t[1..])
    else ParseUnsigned(t)
  }

  /** The number at the start of `u`, which has no sign. */
  function ParseUnsigned(u: string): (r: Option<int>)
    ensures r.Some? ==> r.value >= 0
  {
    if |u| >= 2 && u[0] == '0' && (u[1] == 'x' || u[1] == 'X') then ParseRun(u[2..], 16)
    else ParseRun(u, 10)
  }

  function ParseRun(v: string, radix: nat): (r: Option<int>)
    ensures r.Some? ==> r.value >= 0
  {
    var n := DigitRun(v, radix);
    if n == 0 then None else Some(RunValue(v[..n], radix))
  }

  lemma {:induction false} NatToStringValue(n: nat)
    ensures forall i :: 0 <= i < |NatToString(n)| ==> DigitValue(NatToString(n)[i], 10).Some?
    ensures RunValue(NatToString(n), 10) == n
  {
    var s := NatToString(n);
    if n >= 10 {
      NatToStringValue(n / 10);
      assert s[..|s| - 1] == NatToString(n / 10);
    }
  }

  lemma ParseUnsignedOfNatToString(n: nat)
    ensures ParseUnsigned(NatToString(n)) == Some(n)
  {
    var u := NatToString(n);
    NatToStringValue(n);
    DecimalIsNotHex(u);
    WholeRun(u, 10);
    assert u[..|u|] == u;
  }

  /** A string of decimal digits has no `0x` prefix. */
  lemma DecimalIsNotHex(u: string)
    requires forall i :: 0 <= i < |u| ==> '0' <= u[i] <= '9'
    ensures ParseUnsigned(u) == ParseRun(u, 10)
  {
    if |u| >= 2 {
      assert '0' <= u[1] <= '9';
    }
  }

  /** A string made only of digits is read whole. */
  lemma WholeRun(u: string, radix: nat)
    requires u != []
    requires forall i :: 0 <= i < |u| ==> DigitValue(u[i], radix).Some?
    ensures ParseRun(u, radix) == Some(RunValue(u, radix))
  {
    assert DigitRun(u, radix) == |u|;
    assert u[..|u|] == u;
  }

  /** A field holding no digits at all is NaN. */
  lemma ParseIntOfLetters(s: string)
    requires s != [] && 'a' <= s[0] <= 'z' && s[0] != 'x'
    ensures ParseInt(s) == None
  {
    assert !IsJsSpace(s[0]);
    assert TrimStart(s) == s;
    assert ParseUnsigned(s) == ParseRun(s, 10);
    assert DigitValue(s[0], 10).None?;
    assert DigitRun(s, 10) == 0;
  }

  /** `parseInt` reads back exactly the number `String` wrote. */
  lemma ParseIntOfIntToString(n: int)
    ensures ParseInt(IntToString(n)) == Some(n)
  {
    var s := IntToString(n);
    var m: nat := if n < 0 then -n else n;
    var digits := NatToString(m);
    assert '0' <= digits[0] <= '9';
    assert s[0] == '-' || s[0] == digits[0];
    assert !IsJsSpace(s[0]);
    assert TrimStart(s) == s;
    ParseUnsignedOfNatToString(m);
    if n < 0 {
      assert s[1..] == digits;
    }
  }
}
