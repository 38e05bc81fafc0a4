/** Values shared by every component: results, the JavaScript values the code inspects,
    decimal rendering of numbers and the validated mapping options. */
module Common {

  datatype Option<T> = None | Some(value: T)

  datatype Result<T, E> = Ok(value: T) | Err(error: E)

  /** One octet of a datagram. */
  type byte = x: int | 0 <= x < 256

  /** A JavaScript number, reduced to what the code distinguishes: an integral value,
      any other finite or infinite value (carrying the text `String(x)` gives for it), or NaN. */
  datatype Num = Int(v: int) | NonInt(text: string) | NaN

  const INT32_MIN: int := -0x8000_0000
  const INT32_MAX: int := 0x7fff_ffff

  /** `x === (x | 0)`: ToInt32 leaves a number unchanged exactly when it is an integer
      in the signed 32-bit range. */
  predicate IsInt32(n: Num) {
    n.Int? && INT32_MIN <= n.v <= INT32_MAX
  }

  /** A JavaScript value as the parsed XML reply and the option objects present it.
      An object keeps its keys in enumeration order. */
  datatype JsValue =
    | Str(s: string)
    | Number(n: Num)
    | Obj(entries: seq<(string, JsValue)>)
    | Arr(items: seq<JsValue>)

  /** Property lookup `o[key]` on an object: the first entry with that key, or undefined. */
  function Lookup(entries: seq<(string, JsValue)>, key: string): (r: Option<JsValue>)
    ensures r.Some? ==> (key, r.value) in entries
    ensures r.None? ==> forall i :: 0 <= i < |entries| ==> entries[i].0 != key
  {
    if entries == [] then None
    else if entries[0].0 == key then Some(entries[0].1)
    else Lookup(entries[1..], key)
  }

  // ---------------------------------------------------------------------------
  // Strings

  predicate StartsWith(s: string, prefix: string) {
    |prefix| <= |s| && s[..|prefix|] == prefix
  }

  predicate EndsWith(s: string, suffix: string) {
    |suffix| <= |s| && s[|s| - |suffix|..] == suffix
  }

  function DigitChar(d: nat): char
    requires d < 10
  {
    ('0' as int + d) as char
  }

  function DigitValue(c: char): int {
    c as int - '0' as int
  }

  predicate IsDigit(c: char) {
    '0' <= c <= '9'
  }

  /** `String(n)` for a non-negative integer: its decimal digits, most significant first. */
  function NatToString(n: nat): (s: string)
    ensures |s| >= 1 && forall i :: 0 <= i < |s| ==> IsDigit(s[i])
    decreases n
  {
    if n < 10 then [DigitChar(n)] else NatToString(n / 10) + [DigitChar(n % 10)]
  }

  /** The value of a string of decimal digits. */
  function DigitsValue(s: string): int
  {
    if s == [] then 0 else DigitsValue(s[..|s| - 1]) * 10 + DigitValue(s[|s| - 1])
  }

  /** Decimal rendering is read back by the digit parser. */
  lemma {:induction false} NatToStringRoundTrip(n: nat)
    ensures DigitsValue(NatToString(n)) == n
    decreases n
  {
    var s := NatToString(n);
    if n >= 10 {
      NatToStringRoundTrip(n / 10);
      assert s[..|s| - 1] == NatToString(n / 10);
      assert DigitValue(s[|s| - 1]) == n % 10;
    }
  }

  /** The text of an integer: an optional leading '-' and at least one decimal digit. */
  predicate IntText(s: string) {
    |s| >= 1 && (s[0] == '-' ==> |s| >= 2) && forall k :: 1 <= k < |s| ==> IsDigit(s[k])
  }

  /** `String(i)` for an integer, as a template literal renders it: a '-' exactly for a
      negative value, followed by the decimal digits of its magnitude. */
  function IntToString(i: int): (s: string)
    ensures IntText(s)
    ensures s[0] == '-' <==> i < 0
    ensures i >= 0 ==> s == NatToString(i)
    ensures i < 0 ==> s[1..] == NatToString(-i)
  {
    if i < 0 then "-" + NatToString(-i) else NatToString(i)
  }

  /** Different integers render to different texts. */
  lemma IntToStringInjective(i: int, j: int)
    requires IntToString(i) == IntToString(j)
    ensures i == j
  {
    var s := IntToString(i);
    if i < 0 {
      NatToStringRoundTrip(-i);
      NatToStringRoundTrip(-j);
    } else {
      NatToStringRoundTrip(i);
      NatToStringRoundTrip(j);
    }
  }

  /** A text made of an integer's text, a separator that is not a digit, and a rest
      splits back into the two parts. */
  lemma {:induction false} SplitAfterIntText(u: string, v: string, c: char, x: string, y: string)
    requires IntText(u) && IntText(v) && !IsDigit(c)
    requires u + [c] + x == v + [c] + y
    ensures u == v && x == y
  {
    var w := u + [c] + x;
    assert w[|u|] == c && w[|v|] == c;
    assert u == w[..|u|] == v;
    assert x == w[|u| + 1..] == y;
  }

  /** `String(x)` for a number value inside a template literal. */
  function NumToString(n: Num): string {
    match n
    case Int(v) => IntToString(v)
    case NonInt(t) => t
    case NaN => "NaN"
  }

  /** `toLowerCase()` restricted to the ASCII letters, the only letters header names use. */
  function ToLower(s: string): (r: string)
    ensures |r| == |s|
    ensures forall i :: 0 <= i < |s| ==>
              r[i] == (if 'A' <= s[i] <= 'Z' then (s[i] as int + 32) as char else s[i])
  {
    if s == [] then []
    else [if 'A' <= s[0] <= 'Z' then (s[0] as int + 32) as char else s[0]] + ToLower(s[1..])
  }

  // ---------------------------------------------------------------------------
  // The mapping request every protocol client receives

  /** `MapPortOptions` after the orchestrator has filled in every default. */
  datatype MapPortOptions = MapPortOptions(
    publicPort: int,
    localPort: int,
    localAddress: string,
    protocol: string,
    description: string,
    ttl: int,
    gateway: Option<string>)
}
