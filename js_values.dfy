/**
 * The few pieces of JavaScript and Node.js runtime behaviour that the gateway's
 * decisions depend on: `parseInt` with no radix, `x || default` on an optional
 * string, the delay normalisation of `setTimeout`, decimal rendering of
 * naturals (used for queue-assigned job ids) and JSON values.
 */
module JsValues {
  import opened Wrappers

  /** A JSON value as it crosses the HTTP boundary or a Redis string. */
  datatype Json =
    | JNull
    | JBool(b: bool)
    | JNum(n: real)
    | JStr(s: string)
    | JArr(items: seq<Json>)
    | JObj(fields: map<string, Json>)

  /** `v || d` where `v` is `string | undefined`: undefined and "" both fall back. */
  function OrDefault(v: Option<string>, d: string): (r: string)
    ensures v.Some? && v.value != "" ==> r == v.value
    ensures v.None? || v.value == "" ==> r == d
  {
    if v.Some? && v.value != "" then v.value else d
  }

  /** StrWhiteSpaceChar of ECMAScript: white space and line terminators. */
  predicate IsJsWhitespace(c: char) {
    c == '\t' || c == '\n' || c == '\U{0B}' || c == '\U{0C}' || c == '\r' || c == ' '
    || c == '\U{A0}' || c == '\U{FEFF}' || c == '\U{1680}' || ('\U{2000}' <= c <= '\U{200A}')
    || c == '\U{2028}' || c == '\U{2029}' || c == '\U{202F}' || c == '\U{205F}' || c == '\U{3000}'
  }

  function TrimStart(s: string): (r: string)
    ensures r == [] || !IsJsWhitespace(r[0])
    ensures |r| <= |s| && r == s[|s| - |r|..]
  {
    if s != [] && IsJsWhitespace(s[0]) then TrimStart(s[1..]) else s
  }

  /** The value of `c` as a digit in base `radix` (10 or 16), if it is one. */
  function DigitValue(c: char, radix: nat): (r: Option<nat>)
    requires radix == 10 || radix == 16
    ensures r.Some? ==> r.value < radix
  {
    if '0' <= c <= '9' then Some((c - '0') as nat)
    else if radix == 16 && 'a' <= c <= 'f' then Some((c - 'a') as nat + 10)
    else if radix == 16 && 'A' <= c <= 'F' then Some((c - 'A') as nat + 10)
    else None
  }

  predicate IsDigit(c: char, radix: nat)
    requires radix == 10 || radix == 16
  {
    DigitValue(c, radix).Some?
  }

  /** Length of the longest prefix of `s` made of base-`radix` digits. */
  function DigitRun(s: string, radix: nat): (n: nat)
    requires radix == 10 || radix == 16
    ensures n <= |s|
    ensures forall i :: 0 <= i < n ==> IsDigit(s[i], radix)
    ensures n < |s| ==> !IsDigit(s[n], radix)
  {
    if s != [] && IsDigit(s[0], radix) then 1 + DigitRun(s[1..], radix) else 0
  }

  /** The number written by an all-digit string, most significant digit first. */
  function DigitsValue(s: string, radix: nat): nat
    requires radix == 10 || radix == 16
    requires forall i :: 0 <= i < |s| ==> IsDigit(s[i], radix)
  {
    if s == [] then 0
    else
      var last := s[|s| - 1];
      assert IsDigit(last, radix);
      DigitsValue(s[..|s| - 1], radix) * radix + DigitValue(last, radix).value
  }

  /** The longest leading digit run of `v` read in base `radix`; None when there is none. */
  function LeadingNumber(v: string, radix: nat): (r: Option<nat>)
    requires radix == 10 || radix == 16
    ensures r.None? <==> DigitRun(v, radix) == 0
  {
    var n := DigitRun(v, radix);
    if n == 0 then None else Some(DigitsValue(v[..n], radix))
  }

  /** The magnitude part of `parseInt` after the sign: "0x"/"0X" switches to base 16. */
  function ParseMagnitude(u: string): Option<nat>
  {
    if |u| >= 2 && u[0] == '0' && (u[1] == 'x' || u[1] == 'X') then LeadingNumber(u[2..], 16)
    else LeadingNumber(u, 10)
  }

  /**
   * `parseInt(s)` with no radix: skip leading white space, take one optional sign,
   * switch to base 16 after "0x"/"0X", then read the longest run of digits.
   * No digits gives NaN, modelled as None. Fractions and exponents are not read.
   */
  function ParseInt(s: string): (r: Option<int>)
    ensures TrimStart(s) == [] ==> r.None?
    ensures r.Some? && r.value < 0 ==> TrimStart(s)[0] == '-'
    ensures TrimStart(s) != [] && '1' <= TrimStart(s)[0] <= '9' ==> r.Some? && r.value >= 0
  {
    var t := TrimStart(s);
    if t != [] && (t[0] == '-' || t[0] == '+') then
      match ParseMagnitude(t[1..])
      case None => None
      case Some(m) => Some(if t[0] == '-' then -(m as int) else m)
    else
      match ParseMagnitude(t)
      case None => None
      case Some(m) => Some(m)
  }

  function DigitChar(d: nat): (c: char)
    requires d < 10
    ensures IsDigit(c, 10) && DigitValue(c, 10) == Some(d)
  {
    ('0' as int + d) as char
  }

  /** Decimal rendering of a natural, as `String(n)` produces it. */
  function NatToString(n: nat): (s: string)
    ensures |s| >= 1
    ensures forall i :: 0 <= i < |s| ==> IsDigit(s[i], 10)
    ensures n >= 10 ==> |s| >= 2
  {
    if n < 10 then [DigitChar(n)] else NatToString(n / 10) + [DigitChar(n % 10)]
  }

  lemma {:induction false} DigitsValueOfNatToString(n: nat)
    ensures DigitsValue(NatToString(n), 10) == n
  {
    if n >= 10 {
      var s := NatToString(n);
      assert s[..|s| - 1] == NatToString(n / 10);
      DigitsValueOfNatToString(n / 10);
    }
  }

  lemma {:induction false} DigitRunOfDigits(s: string)
    requires forall i :: 0 <= i < |s| ==> IsDigit(s[i], 10)
    ensures DigitRun(s, 10) == |s|
  {
    if s != [] {
      DigitRunOfDigits(s[1..]);
    }
  }

  lemma TrimStartOfDigits(s: string)
    requires |s| >= 1 && '0' <= s[0] <= '9'
    ensures TrimStart(s) == s
  {
  }

  /** An all-digit decimal string's magnitude is exactly its digits (no "0x" switch). */
  lemma ParseMagnitudeOfDigits(s: string)
    requires |s| >= 1 && forall i :: 0 <= i < |s| ==> IsDigit(s[i], 10)
    ensures ParseMagnitude(s) == Some(DigitsValue(s, 10))
  {
    if |s| >= 2 {
      assert IsDigit(s[1], 10);
      assert s[1] != 'x' && s[1] != 'X';
    }
    assert ParseMagnitude(s) == LeadingNumber(s, 10);
    DigitRunOfDigits(s);
    assert s[..|s|] == s;
  }

  /** An all-digit decimal string is read by `parseInt` as exactly its digits. */
  lemma ParseIntOfDigits(s: string)
    requires |s| >= 1 && forall i :: 0 <= i < |s| ==> IsDigit(s[i], 10)
    ensures ParseInt(s) == Some(DigitsValue(s, 10))
  {
    assert IsDigit(s[0], 10);
    assert '0' <= s[0] <= '9';
    TrimStartOfDigits(s);
    assert !(s[0] == '-' || s[0] == '+');
    ParseMagnitudeOfDigits(s);
  }

  /** `parseInt(String(n)) == n`: decimal rendering and parsing are inverse. */
  lemma ParseIntOfNatToString(n: nat)
    ensures ParseInt(NatToString(n)) == Some(n)
  {
    ParseIntOfDigits(NatToString(n));
    DigitsValueOfNatToString(n);
  }

  /** A string with a character that is not a decimal digit is never a rendered natural. */
  lemma NatToStringHasOnlyDigits(n: nat, s: string, i: nat)
    requires i < |s| && !IsDigit(s[i], 10)
    ensures NatToString(n) != s
  {
  }

  /** Node's largest timer delay, 2^31 - 1 ms. */
  const TimeoutMax: int := 2147483647

  /**
   * The delay Node actually uses for `setTimeout(f, d)`: a NaN, a delay below 1 ms
   * or one above TimeoutMax is replaced by 1 ms.
   */
  function TimerDelay(d: Option<int>): (r: int)
    ensures 1 <= r <= TimeoutMax
    ensures d.Some? && 1 <= d.value <= TimeoutMax ==> r == d.value
    ensures d.None? || d.value < 1 || d.value > TimeoutMax ==> r == 1
  {
    if d.Some? && 1 <= d.value <= TimeoutMax then d.value else 1
  }
}
