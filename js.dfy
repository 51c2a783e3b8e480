/**
  The JavaScript runtime, as far as the driver and the transaction code rely
  on it: primitive values, truthiness, conversion to string and to number,
  `String.prototype.indexOf` and `String.prototype.slice`.
  Numbers are restricted to integers (no NaN, no fractions, no infinities).
 */
module Js {

  /** A JavaScript primitive value. */
  datatype JsValue =
    | JUndefined
    | JNull
    | JBool(b: bool)
    | JNum(n: int)
    | JStr(s: string)

  /** ToBoolean: what `if (v)` and `v && ...` test. */
  predicate Truthy(v: JsValue)
    ensures Truthy(v) <==>
      !(v == JUndefined || v == JNull || v == JBool(false) || v == JNum(0) || v == JStr(""))
  {
    match v
    case JUndefined => false
    case JNull => false
    case JBool(b) => b
    case JNum(n) => n != 0
    case JStr(s) => s != ""
  }

  predicate IsDigit(c: char) {
    '0' <= c <= '9'
  }

  /** A non-empty string of decimal digits. */
  predicate IsDecimal(s: string) {
    |s| > 0 && forall i :: 0 <= i < |s| ==> IsDigit(s[i])
  }

  function DigitChar(d: nat): (c: char)
    requires d < 10
    ensures IsDigit(c) && (c as int) - ('0' as int) == d
  {
    (('0' as int) + d) as char
  }

  /** The canonical decimal spelling of a natural number, as `'' + n` produces
      it for integers below 1e21 that a double holds exactly (up to 2^53);
      numbers here are unbounded integers, so larger ones get full digits. */
  function NatToDecimal(n: nat): (r: string)
    ensures IsDecimal(r)
    ensures r[0] == '0' ==> n == 0
    decreases n
  {
    if n < 10 then [DigitChar(n)] else NatToDecimal(n / 10) + [DigitChar(n % 10)]
  }

  /** The value of a string of decimal digits (0 for the empty string). */
  function ParseDecimal(s: string): nat
    requires forall i :: 0 <= i < |s| ==> IsDigit(s[i])
  {
    if s == [] then 0
    else ParseDecimal(s[..|s| - 1]) * 10 + DigitValue(s[|s| - 1])
  }

  function DigitValue(c: char): (d: nat)
    requires IsDigit(c)
    ensures d < 10 && DigitChar(d) == c
  {
    (c as int) - ('0' as int)
  }

  /** Reading back what NatToDecimal wrote gives the number again. */
  lemma {:induction false} ParseNatToDecimal(n: nat)
    ensures ParseDecimal(NatToDecimal(n)) == n
    decreases n
  {
    if n >= 10 {
      var r := NatToDecimal(n);
      assert r[..|r| - 1] == NatToDecimal(n / 10);
      ParseNatToDecimal(n / 10);
    }
  }

  /** ToString: what `'' + v` produces. */
  function ToJsString(v: JsValue): (r: string)
    ensures v.JStr? ==> r == v.s
    ensures v.JNum? && v.n >= 0 ==> IsDecimal(r) && ParseDecimal(r) == v.n
    ensures v.JNum? && v.n < 0 ==> |r| > 1 && r[0] == '-' && IsDecimal(r[1..]) && ParseDecimal(r[1..]) == -v.n
    ensures !v.JStr? ==> r != ""
  {
    match v
    case JUndefined => "undefined"
    case JNull => "null"
    case JBool(b) => if b then "true" else "false"
    case JNum(n) =>
      ParseNatToDecimal(if n < 0 then -n else n);
      if n < 0 then "-" + NatToDecimal(-n) else NatToDecimal(n)
    case JStr(s) => s
  }

  /** ToNumber, as `v - 0` computes it; None stands for NaN.  A non-empty
      string counts as a number only when it is all decimal digits. */
  function ToNumber(v: JsValue): (r: Option<int>)
    ensures r.None? <==> v == JUndefined || (v.JStr? && v.s != "" && !IsDecimal(v.s))
    ensures v.JNum? ==> r == Some(v.n)
    ensures v.JStr? && IsDecimal(v.s) ==> r == Some(ParseDecimal(v.s))
    ensures v.JStr? && v.s == "" ==> r == Some(0)
  {
    match v
    case JUndefined => None
    case JNull => Some(0)
    case JBool(b) => Some(if b then 1 else 0)
    case JNum(n) => Some(n)
    case JStr(s) =>
      if s == "" then Some(0)
      else if IsDecimal(s) then Some(ParseDecimal(s))
      else None
  }

  datatype Option<T> = None | Some(value: T)

  /** `pat` occurs in `s` at position `k`. */
  predicate OccursAt(s: string, pat: string, k: int) {
    0 <= k && k + |pat| <= |s| && s[k..k + |pat|] == pat
  }

  /** `s.indexOf(pat, from)`, for `from` inside the string. */
  function IndexFrom(s: string, pat: string, from: nat): (r: int)
    requires from <= |s|
    ensures r == -1 || (from <= r && OccursAt(s, pat, r))
    ensures forall k :: from <= k && (r == -1 || k < r) ==> !OccursAt(s, pat, k)
    decreases |s| - from
  {
    if from + |pat| > |s| then -1
    else if s[from..from + |pat|] == pat then from
    else IndexFrom(s, pat, from + 1)
  }

  /** `s.indexOf(pat)`: the first position where `pat` occurs, or -1. */
  function IndexOf(s: string, pat: string): (r: int)
    ensures r == -1 || OccursAt(s, pat, r)
    ensures forall k :: 0 <= k && (r == -1 || k < r) ==> !OccursAt(s, pat, k)
  {
    IndexFrom(s, pat, 0)
  }

  /** The index that `slice` makes of one of its arguments: a negative one
      counts from the end, and the result is clamped to `[0, len]`. */
  function SliceIndex(len: nat, i: int): (r: nat)
    ensures r <= len
    ensures 0 <= i <= len ==> r == i
    ensures i < 0 && -i <= len ==> r == i + len
  {
    if i < 0 then (if i + len < 0 then 0 else i + len)
    else if i > len then len
    else i
  }

  /** `s.slice(start, end)`. */
  function Slice(s: string, start: int, end: int): (r: string)
    ensures |r| <= |s|
    ensures 0 <= start <= end <= |s| ==> r == s[start..end]
    ensures 0 <= start && end < 0 && start <= |s| + end ==> r == s[start..|s| + end]
    ensures SliceIndex(|s|, end) <= SliceIndex(|s|, start) ==> r == ""
  {
    var b, e := SliceIndex(|s|, start), SliceIndex(|s|, end);
    if b < e then s[b..e] else ""
  }
}
