/**
 * The few JavaScript value semantics the core depends on: numbers that may be NaN,
 * `parseInt` and `Number.prototype.toString` on integers, the `x || d` default for
 * strings, and the `split`/`substring` string operations.
 */
module JsValues {
  import opened Wrappers

  /** Raw bytes (a Node `Buffer`). */
  newtype byte = x: int | 0 <= x < 256
  type Bytes = seq<byte>

  /** A JavaScript number as the ledger can produce it: an integer, or NaN from a failed parse. */
  datatype Num = Int(value: int) | NaN

  /** `n + k`; NaN absorbs the addition. */
  function Plus(n: Num, k: int): Num
  {
    match n
    case Int(v) => Int(v + k)
    case NaN => NaN
  }

  /** `n <= 0`, which is false for NaN. */
  predicate AtMostZero(n: Num)
  {
    n.Int? && n.value <= 0
  }

  /** Whether an optional string is truthy: present and not "". */
  predicate Truthy(s: Option<string>)
  {
    s.Some? && s.value != ""
  }

  /** `s || d` for an optional string. */
  function OrDefault(s: Option<string>, d: string): string
  {
    if Truthy(s) then s.value else d
  }

  // ---------------------------------------------------------------- decimal digits

  predicate IsDigit(c: char)
  {
    '0' <= c <= '9'
  }

  predicate AllDigits(s: string)
  {
    forall i :: 0 <= i < |s| ==> IsDigit(s[i])
  }

  function DigitValue(c: char): nat
    requires IsDigit(c)
  {
    c as int - '0' as int
  }

  function DigitChar(d: nat): (c: char)
    requires d < 10
    ensures IsDigit(c) && DigitValue(c) == d
  {
    ('0' as int + d) as char
  }

  /** The decimal spelling of a natural number, most significant digit first, no leading zeros. */
  function NatToString(n: nat): (s: string)
    ensures |s| > 0 && AllDigits(s)
    ensures |s| > 1 ==> s[0] != '0'
    decreases n
  {
    if n < 10 then [DigitChar(n)] else NatToString(n / 10) + [DigitChar(n % 10)]
  }

  /** `String(i)` for an integer. */
  function IntToString(i: int): string
  {
    if i < 0 then "-" + NatToString(-i) else NatToString(i)
  }

  /** `String(n)`: NaN prints as "NaN". */
  function NumToString(n: Num): string
  {
    match n
    case Int(i) => IntToString(i)
    case NaN => "NaN"
  }

  /** The value of a string of decimal digits (0 for the empty string). */
  function DigitsValue(d: string): nat
    requires AllDigits(d)
  {
    if |d| == 0 then 0 else 10 * DigitsValue(d[..|d| - 1]) + DigitValue(d[|d| - 1])
  }

  /** The longest prefix of `s` made of decimal digits. */
  function DigitPrefix(s: string): (p: string)
    ensures |p| <= |s| && p == s[..|p|] && AllDigits(p)
    ensures |p| < |s| ==> !IsDigit(s[|p|])
  {
    if |s| > 0 && IsDigit(s[0]) then [s[0]] + DigitPrefix(s[1..]) else []
  }

  /**
   * `parseInt(s)` with radix 10: an optional sign followed by the longest run of
   * decimal digits; NaN when there is no digit. Leading white space and the "0x"
   * prefix, which the ledger never writes, are not modelled.
   */
  function ParseInt(s: string): (n: Num)
    ensures n == NaN <==> |DigitPrefix(if |s| > 0 && (s[0] == '-' || s[0] == '+') then s[1..] else s)| == 0
  {
    var signed := |s| > 0 && (s[0] == '-' || s[0] == '+');
    var digits := DigitPrefix(if signed then s[1..] else s);
    if |digits| == 0 then NaN
    else if signed && s[0] == '-' then Int(-(DigitsValue(digits) as int))
    else Int(DigitsValue(digits))
  }

  lemma {:induction false} DigitPrefixOfDigits(s: string)
    requires AllDigits(s)
    ensures DigitPrefix(s) == s
  {
    if |s| > 0 {
      DigitPrefixOfDigits(s[1..]);
    }
  }

  lemma {:induction false} DigitsValueOfNatToString(n: nat)
    ensures DigitsValue(NatToString(n)) == n
    decreases n
  {
    var s := NatToString(n);
    if n >= 10 {
      DigitsValueOfNatToString(n / 10);
      assert s[..|s| - 1] == NatToString(n / 10);
    }
  }

  /** Reading back what `String(i)` wrote gives `i`: the ledger's fields survive a write and a read. */
  lemma ParseIntOfIntToString(i: int)
    ensures ParseInt(IntToString(i)) == Int(i)
  {
    var m := if i < 0 then -i else i;
    DigitPrefixOfDigits(NatToString(m));
    DigitsValueOfNatToString(m);
    if i < 0 {
      assert IntToString(i)[1..] == NatToString(m);
    }
  }

  /** The same for every number, NaN included: `parseInt(String(n))` is `n`. */
  lemma ParseIntOfNumToString(n: Num)
    ensures ParseInt(NumToString(n)) == n
  {
    if n.Int? {
      ParseIntOfIntToString(n.value);
    } else {
      assert NumToString(n) == "NaN";
    }
  }

  lemma NumToStringNonEmpty(n: Num)
    ensures NumToString(n) != ""
  {
  }

  // ---------------------------------------------------------------- strings

  /** `s.indexOf(c)`, or None for -1. */
  function IndexOf(s: string, c: char): (r: Option<nat>)
    ensures r.Some? ==> r.value < |s| && s[r.value] == c && c !in s[..r.value]
    ensures r.None? ==> c !in s
  {
    if |s| == 0 then None
    else if s[0] == c then Some(0)
    else match IndexOf(s[1..], c)
      case None => None
      case Some(k) => assert s[1..][..k] == s[1..k + 1]; Some(k + 1)
  }

  /** `s.split(c)[0]`: everything before the first `c`. */
  function SplitFirst(s: string, c: char): (r: string)
    ensures r <= s && c !in r
    ensures c !in s ==> r == s
    ensures |r| < |s| ==> s[|r|] == c
  {
    match IndexOf(s, c)
    case None => s
    case Some(k) => s[..k]
  }

  /** `s.split(c)[1]`: the text between the first and the second `c`; `undefined` without a `c`. */
  function SplitSecond(s: string, c: char): (r: Option<string>)
    ensures r.None? <==> c !in s
    ensures r.Some? ==> c !in r.value
  {
    match IndexOf(s, c)
    case None => None
    case Some(k) => Some(SplitFirst(s[k + 1..], c))
  }

  /** `s.substring(0, n)`: the first `n` characters, or all of `s` when it is shorter. */
  function Substring(s: string, n: nat): (r: string)
    ensures r <= s && |r| == if |s| < n then |s| else n
  {
    if |s| <= n then s else s[..n]
  }

  lemma {:induction false} IndexOfAppend(a: string, b: string, c: char)
    requires c !in a
    ensures IndexOf(a + b, c) == match IndexOf(b, c) case None => None case Some(k) => Some(|a| + k)
  {
    if |a| > 0 {
      assert (a + b)[1..] == a[1..] + b;
      IndexOfAppend(a[1..], b, c);
    } else {
      assert a + b == b;
    }
  }

  /** Splitting `a + [c] + b` on `c`, where `a` has no `c`, gives `a` first and then `b` up to its own `c`. */
  lemma SplitAt(a: string, b: string, c: char)
    requires c !in a
    ensures SplitFirst(a + [c] + b, c) == a
    ensures SplitSecond(a + [c] + b, c) == Some(SplitFirst(b, c))
  {
    IndexOfAppend(a, [c] + b, c);
    assert a + [c] + b == a + ([c] + b);
    assert (a + [c] + b)[|a| + 1..] == b;
    assert (a + [c] + b)[..|a|] == a;
  }
}
