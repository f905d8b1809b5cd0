/**
 * The few JavaScript value rules the source relies on: the three-way
 * `undefined` / `null` / string values compared with `===`, falsiness,
 * `String(n)` for integers, `parseInt` and `Array.prototype.slice`.
 */
module Js {
  import opened Wrappers

  /** A field typed `string | null` or `string | null | undefined`; `===` is datatype equality. */
  datatype Nullable = Undefined | Null | Str(value: string)

  /** A template literal `${v}` of a nullable string. */
  function NullableText(v: Nullable): string {
    match v
    case Undefined => "undefined"
    case Null => "null"
    case Str(s) => s
  }

  /** `!!v` for a nullable string: only a non-empty string is truthy. */
  predicate TruthyText(v: Nullable) {
    v.Str? && v.value != ""
  }

  /** `v || null` for a nullable string. */
  function OrNull(v: Nullable): (r: Nullable)
    ensures r == Null || r == v
    ensures r.Str? <==> TruthyText(v)
  {
    if TruthyText(v) then v else Null
  }

  /** Decimal digit for 0..9. */
  function Digit(d: nat): char
    requires d < 10
  {
    "0123456789"[d]
  }

  /** `String(n)` for a natural number: its decimal digits, no leading zero. */
  function NatText(n: nat): (r: string)
    ensures |r| >= 1
    ensures forall k :: 0 <= k < |r| ==> '0' <= r[k] <= '9'
    ensures |r| > 1 ==> r[0] != '0'
  {
    if n < 10 then [Digit(n)] else NatText(n / 10) + [Digit(n % 10)]
  }

  /** `String(n)` for an integer. */
  function IntText(n: int): (r: string)
    ensures |r| >= 1
    ensures r[0] == '-' <==> n < 0
  {
    if n < 0 then "-" + NatText(-n) else NatText(n)
  }

  /** Value of a string of decimal digits. */
  function DigitsValue(s: string): int
    requires forall k :: 0 <= k < |s| ==> '0' <= s[k] <= '9'
  {
    if s == [] then 0 else DigitsValue(s[..|s| - 1]) * 10 + (s[|s| - 1] as int - '0' as int)
  }

  /** Reading the digits back gives the number: `String` on naturals is injective. */
  lemma {:induction false} NatTextValue(n: nat)
    ensures DigitsValue(NatText(n)) == n
  {
    if n >= 10 {
      NatTextValue(n / 10);
      var s := NatText(n);
      assert s[..|s| - 1] == NatText(n / 10);
    }
  }

  predicate IsDigit(c: char) {
    '0' <= c <= '9'
  }

  /** The longest prefix of `s` made of decimal digits. */
  function DigitRun(s: string): (r: string)
    ensures |r| <= |s| && r == s[..|r|]
    ensures forall k :: 0 <= k < |r| ==> IsDigit(r[k])
    ensures |r| < |s| ==> !IsDigit(s[|r|])
  {
    if s == [] || !IsDigit(s[0]) then [] else [s[0]] + DigitRun(s[1..])
  }

  /**
   * `parseInt(s, 10)` on a string without leading white space: an optional
   * sign, then the leading digits, whatever follows them; `None` is `NaN`.
   */
  function ParseInt(s: string): (r: Option<int>)
    ensures r.None? <==> DigitRun(if |s| > 0 && (s[0] == '-' || s[0] == '+') then s[1..] else s) == []
  {
    var signed := |s| > 0 && (s[0] == '-' || s[0] == '+');
    var digits := DigitRun(if signed then s[1..] else s);
    if digits == [] then None
    else if |s| > 0 && s[0] == '-' then Some(-DigitsValue(digits))
    else Some(DigitsValue(digits))
  }

  /** `parseInt(String(n), 10) === n`: reading an integer's text back gives the integer. */
  lemma ParseIntText(n: int)
    ensures ParseInt(IntText(n)) == Some(n)
  {
    var m: nat := if n < 0 then -n else n;
    var t := NatText(m);
    assert DigitRun(t) == t by {
      DigitRunAll(t);
    }
    NatTextValue(m);
    if n < 0 {
      assert IntText(n) == "-" + t && ("-" + t)[1..] == t;
    }
  }

  /** A string of digits is its own digit run. */
  lemma {:induction false} DigitRunAll(s: string)
    requires forall k :: 0 <= k < |s| ==> '0' <= s[k] <= '9'
    ensures DigitRun(s) == s
  {
    if s != [] {
      DigitRunAll(s[1..]);
    }
  }

  /** Where `slice` starts or ends for an index argument and a length: negatives count from the end. */
  function SliceIndex(k: int, len: nat): (r: nat)
    ensures r <= len
    ensures 0 <= k <= len ==> r == k
    ensures k > len ==> r == len
    ensures k < 0 ==> r == if len + k < 0 then 0 else len + k
  {
    if k < 0 then (if len + k < 0 then 0 else len + k)
    else if k > len then len
    else k
  }

  /** `s.slice(start, end)`. */
  function Slice<T>(s: seq<T>, start: int, end: int): (r: seq<T>)
    ensures |r| <= |s|
    ensures 0 <= start <= end <= |s| ==> r == s[start..end]
    ensures forall x :: x in r ==> x in s
  {
    var b, e := SliceIndex(start, |s|), SliceIndex(end, |s|);
    if b < e then s[b..e] else []
  }
}
