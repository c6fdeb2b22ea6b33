/** PHP value semantics the plugin relies on: decoded JSON/array values, the `??`
    operator, truthiness, the `(string)`, `(int)` and `(float)` casts, `round()` and
    a few string built-ins (strtoupper, trim, str_contains). */
module Php {

  datatype Option<+T> = None | Some(value: T)

  /** How a PHP call ends: with a value, or by throwing (`error` names the exception). */
  datatype Outcome<+T> = Ok(value: T) | Thrown(error: string)

  /** A decoded PHP value. Associative arrays are maps; arrays keyed 0..n-1 are lists. */
  datatype Value =
    | Null
    | Bool(b: bool)
    | Int(i: int)
    | Float(r: real)
    | Str(s: string)
    | Arr(fields: map<string, Value>)
    | List(items: seq<Value>)

  type Fields = map<string, Value>

  /** `$v[$k] ?? null`: a missing key, a null entry and a non-array container all give null. */
  function Get(v: Value, k: string): Value {
    if v.Arr? && k in v.fields then v.fields[k] else Null
  }

  /** `$m[$k] ?? null` on an associative array. */
  function Field(m: Fields, k: string): Value {
    if k in m then m[k] else Null
  }

  /** `$v[0] ?? null` on a list. */
  function First(v: Value): Value {
    if v.List? && |v.items| > 0 then v.items[0] else Null
  }

  /** `$a ?? $b` */
  function OrElse(a: Value, b: Value): Value {
    if a != Null then a else b
  }

  /** PHP's conversion to bool: null, false, 0, 0.0, '', '0' and the empty array are false. */
  predicate Truthy(v: Value) {
    match v
    case Null => false
    case Bool(b) => b
    case Int(i) => i != 0
    case Float(r) => r != 0.0
    case Str(s) => s != "" && s != "0"
    case Arr(m) => |m| > 0
    case List(xs) => |xs| > 0
  }

  predicate IsArray(v: Value) {
    v.Arr? || v.List?
  }

  /** `is_array($v) ? (array) $v : []`, read through string keys. */
  function AsFields(v: Value): Fields {
    if v.Arr? then v.fields else map[]
  }

  /** `is_string($v) ? $v : null` */
  function AsString(v: Value): Option<string> {
    if v.Str? then Some(v.s) else None
  }

  function Nullable(o: Option<string>): Value {
    if o.Some? then Str(o.value) else Null
  }

  /** Index of the first element satisfying `p`: the `first()` of a filtered, unsorted
      repository search, read in insertion order. */
  function FirstWhere<T>(s: seq<T>, p: T -> bool): (r: Option<nat>)
    ensures r.Some? ==> r.value < |s| && p(s[r.value])
    ensures r.Some? ==> forall j :: 0 <= j < r.value ==> !p(s[j])
    ensures r.None? ==> forall j :: 0 <= j < |s| ==> !p(s[j])
  {
    if |s| == 0 then None
    else if p(s[0]) then Some(0)
    else match FirstWhere(s[1..], p)
      case None => None
      case Some(k) => Some(k + 1)
  }

  // ---------------------------------------------------------------- strings

  function UpperChar(c: char): char {
    if 'a' <= c <= 'z' then (c as int - 32) as char else c
  }

  /** strtoupper: ASCII letters only. */
  function Upper(s: string): (r: string)
    ensures |r| == |s|
    ensures forall i :: 0 <= i < |s| ==> r[i] == UpperChar(s[i])
  {
    if s == [] then [] else [UpperChar(s[0])] + Upper(s[1..])
  }

  /** The characters PHP's trim() strips by default. */
  predicate IsTrimmable(c: char) {
    c == ' ' || c == '\t' || c == '\n' || c == '\r' || c == '\0' || c == '\U{000B}'
  }

  /** r is s after its leading run of trimmable characters. */
  predicate LeftTrimmed(s: string, r: string) {
    && |r| <= |s| && r == s[|s| - |r|..]
    && (forall i :: 0 <= i < |s| - |r| ==> IsTrimmable(s[i]))
    && (r == [] || !IsTrimmable(r[0]))
  }

  /** r is s before its trailing run of trimmable characters. */
  predicate RightTrimmed(s: string, r: string) {
    && |r| <= |s| && r == s[..|r|]
    && (forall i :: |r| <= i < |s| ==> IsTrimmable(s[i]))
    && (r == [] || !IsTrimmable(r[|r| - 1]))
  }

  function TrimLeft(s: string): (r: string)
    ensures |r| <= |s|
  {
    if |s| > 0 && IsTrimmable(s[0]) then TrimLeft(s[1..]) else s
  }

  /** ltrim drops exactly the leading run of trimmable characters. */
  lemma {:induction false} TrimLeftDropsLeadingRun(s: string)
    ensures LeftTrimmed(s, TrimLeft(s))
    decreases |s|
  {
    if |s| > 0 && IsTrimmable(s[0]) {
      TrimLeftDropsLeadingRun(s[1..]);
      var r := TrimLeft(s);
      assert s[1..][|s| - 1 - |r|..] == s[|s| - |r|..];
      forall i | 0 <= i < |s| - |r|
        ensures IsTrimmable(s[i])
      {
        if i > 0 {
          assert s[i] == s[1..][i - 1];
        }
      }
    }
  }

  function TrimRight(s: string): (r: string)
    ensures |r| <= |s|
  {
    if |s| > 0 && IsTrimmable(s[|s| - 1]) then TrimRight(s[..|s| - 1]) else s
  }

  /** rtrim drops exactly the trailing run of trimmable characters. */
  lemma {:induction false} TrimRightDropsTrailingRun(s: string)
    ensures RightTrimmed(s, TrimRight(s))
    decreases |s|
  {
    if |s| > 0 && IsTrimmable(s[|s| - 1]) {
      TrimRightDropsTrailingRun(s[..|s| - 1]);
      var r := TrimRight(s);
      assert s[..|s| - 1][..|r|] == s[..|r|];
      forall i | |r| <= i < |s|
        ensures IsTrimmable(s[i])
      {
        if i < |s| - 1 {
          assert s[i] == s[..|s| - 1][i];
        }
      }
    }
  }

  function Trim(s: string): string {
    TrimRight(TrimLeft(s))
  }

  predicate StartsWith(s: string, p: string) {
    |p| <= |s| && s[..|p|] == p
  }

  /** str_contains */
  predicate Contains(s: string, sub: string)
    decreases |s|
  {
    StartsWith(s, sub) || (|s| > 0 && Contains(s[1..], sub))
  }

  /** implode(' ', $parts) */
  function JoinSpace(parts: seq<string>): string {
    if |parts| == 0 then ""
    else if |parts| == 1 then parts[0]
    else parts[0] + " " + JoinSpace(parts[1..])
  }

  // ---------------------------------------------------------------- numbers

  /** round(): half away from zero, on an exact real. */
  function Round(x: real): int {
    if x >= 0.0 then (x + 0.5).Floor else -((-x + 0.5).Floor)
  }

  /** `(int)` on a float: truncation toward zero. */
  function Trunc(x: real): int {
    if x >= 0.0 then x.Floor else -((-x).Floor)
  }

  function Pow10(k: nat): (r: nat)
    ensures r >= 1
  {
    if k == 0 then 1 else 10 * Pow10(k - 1)
  }

  predicate IsDigit(c: char) {
    '0' <= c <= '9'
  }

  predicate AllDigits(s: string) {
    forall i :: 0 <= i < |s| ==> IsDigit(s[i])
  }

  function DigitChar(d: nat): char
    requires d < 10
  {
    "0123456789"[d]
  }

  /** Decimal digits of a natural number, no leading zeros. */
  function NatText(n: nat): (s: string)
    ensures |s| > 0 && AllDigits(s)
  {
    if n < 10 then [DigitChar(n)] else NatText(n / 10) + [DigitChar(n % 10)]
  }

  /** `(string)` on an int. */
  function IntText(i: int): string {
    if i < 0 then "-" + NatText(-i) else NatText(i)
  }

  /** `n` written with exactly `k` digits (leading zeros), `n < 10^k`. */
  function PadDigits(n: nat, k: nat): (s: string)
    ensures |s| == k && AllDigits(s)
  {
    if k == 0 then [] else PadDigits(n / 10, k - 1) + [DigitChar(n % 10)]
  }

  /** The value of a string of digits. */
  function DigitsValue(s: string): nat
    requires AllDigits(s)
  {
    if |s| == 0 then 0 else 10 * DigitsValue(s[..|s| - 1]) + (s[|s| - 1] as int - '0' as int)
  }

  /** Length of the run of digits at the start of `s`. */
  function DigitRun(s: string): (k: nat)
    ensures k <= |s| && AllDigits(s[..k])
    ensures k < |s| ==> !IsDigit(s[k])
  {
    if |s| > 0 && IsDigit(s[0]) then
      var k := 1 + DigitRun(s[1..]);
      assert s[..k] == [s[0]] + s[1..][..k - 1];
      k
    else 0
  }

  predicate IsSpace(c: char) {
    c == ' ' || c == '\t' || c == '\n' || c == '\r' || c == '\U{000B}' || c == '\U{000C}'
  }

  function SkipSpace(s: string): string {
    if |s| > 0 && IsSpace(s[0]) then SkipSpace(s[1..]) else s
  }

  /** Splits an optional sign off: (negative?, rest). */
  function Unsign(t: string): (bool, string) {
    if |t| > 0 && (t[0] == '-' || t[0] == '+') then (t[0] == '-', t[1..]) else (false, t)
  }

  /** `(int)` on a string: leading whitespace, a sign and the leading digits;
      anything else gives 0. */
  function StrToInt(s: string): int {
    var (neg, u) := Unsign(SkipSpace(s));
    var k := DigitRun(u);
    var n: int := DigitsValue(u[..k]);
    if neg then -n else n
  }

  /** The value of the leading `digits[.digits]` of an unsigned text. */
  function DecimalPrefix(u: string): real {
    var k := DigitRun(u);
    var whole := DigitsValue(u[..k]) as real;
    var rest := u[k..];
    var frac :=
      if |rest| > 0 && rest[0] == '.' then
        var d := DigitRun(rest[1..]);
        DigitsValue(rest[1..][..d]) as real / Pow10(d) as real
      else 0.0;
    whole + frac
  }

  /** `(float)` on a string: leading whitespace, a sign, digits and a decimal fraction. */
  function StrToFloat(s: string): real {
    var (neg, u) := Unsign(SkipSpace(s));
    var v := DecimalPrefix(u);
    if neg then -v else v
  }

  /** `a` scaled by 10^k, with the fraction cut off. */
  function Scaled(a: real, k: nat): (s: int)
    ensures a >= 0.0 ==> s >= 0
  {
    (a * Pow10(k) as real).Floor
  }

  /** Fewest fractional digits (at most 14) that write `a` exactly; 14 when none does. */
  function Places(a: real, k: nat): (p: nat)
    requires k <= 14
    ensures k <= p <= 14
    decreases 14 - k
  {
    if k == 14 || Scaled(a, k) as real == a * Pow10(k) as real then k
    else Places(a, k + 1)
  }

  /** `[-]whole[.frac]` with `k` fraction digits. */
  function DecimalText(neg: bool, whole: nat, frac: nat, k: nat): string {
    (if neg then "-" else "") + (if k == 0 then NatText(whole) else NatText(whole) + "." + PadDigits(frac, k))
  }

  /** `(string)` on a float: shortest decimal form, without exponent, for values
      written with at most 14 fractional digits (longer fractions are truncated). */
  function FloatText(r: real): string {
    var a := if r < 0.0 then -r else r;
    var k := Places(a, 0);
    var scaled: nat := Scaled(a, k);
    var p := Pow10(k);
    DecimalText(r < 0.0 && scaled != 0, scaled / p, scaled % p, k)
  }

  /** `(string)` cast. */
  function ToStr(v: Value): string {
    match v
    case Null => ""
    case Bool(b) => if b then "1" else ""
    case Int(i) => IntText(i)
    case Float(r) => FloatText(r)
    case Str(s) => s
    case Arr(_) => "Array"
    case List(_) => "Array"
  }

  /** A value passed to a `string` parameter of a user function from a file without
      strict types: scalars are coerced, null and arrays are a TypeError. */
  function StringArg(v: Value): (r: Outcome<string>)
    ensures r.Thrown? <==> v == Null || IsArray(v)
    ensures r.Ok? ==> r.value == ToStr(v)
  {
    if v == Null || IsArray(v) then Thrown("TypeError") else Ok(ToStr(v))
  }

  /** `$v == $case` in a switch, for a non-empty case label that is not numeric: only
      the same string, or `true`, compares equal. */
  predicate LooseIs(v: Value, caseLabel: string) {
    v == Str(caseLabel) || v == Bool(true)
  }
}
