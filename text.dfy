/**
 * The string operations the bot's messages rely on: Python's `str(int)` as used by
 * f-strings, `sep.join(parts)`, `str.startswith`, and the first cut of `str.split(sep)`.
 */
module Text {

  import opened Options

  predicate IsDigit(c: char) {
    '0' <= c <= '9'
  }

  predicate AllDigits(s: string) {
    forall i :: 0 <= i < |s| ==> IsDigit(s[i])
  }

  /** Decimal digits of `n`, most significant first, without leading zeros. */
  function NatToString(n: nat): (r: string)
    ensures |r| >= 1 && AllDigits(r)
    ensures |r| > 1 ==> r[0] != '0'
    decreases n
  {
    var d := ['0' + ((n % 10) as char)];
    if n < 10 then d else NatToString(n / 10) + d
  }

  /** The number a string of decimal digits denotes. */
  function DigitsValue(s: string): nat
    requires AllDigits(s)
  {
    if s == [] then 0 else DigitsValue(s[..|s| - 1]) * 10 + (s[|s| - 1] - '0') as nat
  }

  /** Reading back the digits of `n` gives `n`. */
  lemma {:induction false} NatToStringRoundTrip(n: nat)
    ensures DigitsValue(NatToString(n)) == n
    decreases n
  {
    var r := NatToString(n);
    if n >= 10 {
      NatToStringRoundTrip(n / 10);
      assert r[..|r| - 1] == NatToString(n / 10);
    }
  }

  /** Python's `str(i)` for an integer: a minus sign for negatives, then the digits. */
  function IntToString(i: int): (r: string)
    ensures |r| >= 1 && IsDigit(r[|r| - 1])
    ensures i < 0 <==> r[0] == '-'
    ensures i >= 0 ==> r == NatToString(i)
    ensures i < 0 ==> r == "-" + NatToString(-i)
  {
    if i < 0 then "-" + NatToString(-i) else NatToString(i)
  }

  /** `str(n)` reads back to `n`: its digits, after the minus sign when `n` is negative. */
  lemma IntToStringReadsBack(n: int)
    ensures var r := IntToString(n);
      && (n >= 0 ==> AllDigits(r) && DigitsValue(r) == n)
      && (n < 0 ==> |r| > 1 && r[0] == '-' && AllDigits(r[1..]) && DigitsValue(r[1..]) == -n)
  {
    if n >= 0 {
      NatToStringRoundTrip(n);
    } else {
      NatToStringRoundTrip(-n);
      assert IntToString(n)[1..] == NatToString(-n);
    }
  }

  /** Python's `sep.join(parts)`. */
  function Join(parts: seq<string>, sep: string): (r: string)
    ensures parts == [] ==> r == ""
    ensures |parts| == 1 ==> r == parts[0]
    ensures |parts| > 0 ==> |parts[|parts| - 1]| <= |r| && r[|r| - |parts[|parts| - 1]|..] == parts[|parts| - 1]
    ensures |parts| > 0 ==> |parts[0]| <= |r| && r[..|parts[0]|] == parts[0]
  {
    if |parts| == 0 then ""
    else if |parts| == 1 then parts[0]
    else Join(parts[..|parts| - 1], sep) + sep + parts[|parts| - 1]
  }

  /** Python's `s.startswith(prefix)`. */
  predicate StartsWith(s: string, prefix: string) {
    |prefix| <= |s| && s[..|prefix|] == prefix
  }

  /** Python's `s.endswith(suffix)`. */
  predicate EndsWith(s: string, suffix: string) {
    |suffix| <= |s| && s[|s| - |suffix|..] == suffix
  }

  /**
   * `s` cut at its first `sep`: the part before it and, when `sep` occurs, the part
   * after it. This is `parts[0]` and `sep.join(parts[1:])` of `parts = s.split(sep)`.
   */
  function SplitOnce(s: string, sep: char): (r: (string, Option<string>))
    ensures sep !in r.0
    ensures r.1 == None ==> s == r.0
    ensures r.1.Some? ==> s == r.0 + [sep] + r.1.value
  {
    if |s| == 0 then ("", None)
    else if s[0] == sep then ("", Some(s[1..]))
    else
      var rest := SplitOnce(s[1..], sep);
      ([s[0]] + rest.0, rest.1)
  }

  /** The cut is determined by where the first `sep` is: a head without `sep` and a tail. */
  lemma {:induction false} SplitOnceOfJoined(head: string, sep: char, tail: string)
    requires sep !in head
    ensures SplitOnce(head + [sep] + tail, sep) == (head, Some(tail))
    decreases |head|
  {
    if head != [] {
      SplitOnceOfJoined(head[1..], sep, tail);
      var s := head + [sep] + tail;
      assert s[0] == head[0] && s[0] != sep;
      assert s[1..] == head[1..] + [sep] + tail;
      assert [head[0]] + head[1..] == head;
    }
  }

  /** A string without `sep` is not cut at all. */
  lemma {:induction false} SplitOnceWithoutSep(s: string, sep: char)
    requires sep !in s
    ensures SplitOnce(s, sep) == (s, None)
    decreases |s|
  {
    if s != [] {
      SplitOnceWithoutSep(s[1..], sep);
    }
  }
}
