/** The Python string operations the runner relies on, over seq<char>. */
module Strings {

  predicate StartsWith(s: string, prefix: string) {
    |prefix| <= |s| && s[..|prefix|] == prefix
  }

  predicate EndsWith(s: string, suffix: string) {
    |suffix| <= |s| && s[|s| - |suffix|..] == suffix
  }

  /** The two parts of a concatenation, found again by slicing. */
  lemma ConcatParts(a: string, b: string)
    ensures StartsWith(a + b, a) && (a + b)[|a|..] == b
    ensures EndsWith(a + b, b) && (a + b)[..|a|] == a
  {
  }

  /** The three parts of a concatenation, found again by slicing. */
  lemma ConcatThree(a: string, b: string, c: string)
    ensures StartsWith(a + b + c, a) && (a + b + c)[|a|..|a| + |b|] == b && EndsWith(a + b + c, c)
  {
    assert (a + b + c)[..|a| + |b|] == a + b;
    assert (a + b + c)[|a|..|a| + |b|] == (a + b)[|a|..];
  }

  /** A slice of the suffix is the slice of the whole shifted by where the suffix starts. */
  lemma SliceOfSuffix(s: string, suffix: string, i: nat, j: nat)
    requires EndsWith(s, suffix) && i <= j <= |suffix|
    ensures s[|s| - |suffix| + i..|s| - |suffix| + j] == suffix[i..j]
  {
    assert s[|s| - |suffix|..][i..j] == s[|s| - |suffix| + i..|s| - |suffix| + j];
  }

  predicate AllChar(s: string, c: char) {
    forall i :: 0 <= i < |s| ==> s[i] == c
  }

  /** str.replace(from, to) for single characters. */
  function ReplaceChar(s: string, from: char, to: char): (r: string)
    ensures |r| == |s|
    ensures forall i :: 0 <= i < |s| ==> r[i] == if s[i] == from then to else s[i]
  {
    if s == [] then [] else [if s[0] == from then to else s[0]] + ReplaceChar(s[1..], from, to)
  }

  /** Replacing `from` by `to` and back gives the original text when `to` did not occur in it. */
  lemma ReplaceCharBack(s: string, from: char, to: char)
    requires to !in s
    ensures ReplaceChar(ReplaceChar(s, from, to), to, from) == s
  {
    var r := ReplaceChar(ReplaceChar(s, from, to), to, from);
    assert forall i :: 0 <= i < |s| ==> r[i] == s[i];
  }

  /** str.rfind for a single character: the last index of c in s, or -1. */
  function RFind(s: string, c: char): (r: int)
    ensures -1 <= r < |s|
    ensures r >= 0 ==> s[r] == c
    ensures forall k :: r < k < |s| ==> s[k] != c
  {
    if s == [] then -1
    else if s[|s| - 1] == c then |s| - 1
    else RFind(s[..|s| - 1], c)
  }

  /** str.find for a single character: the first index of c in s, or -1. */
  function Find(s: string, c: char): (r: int)
    ensures -1 <= r < |s|
    ensures r >= 0 ==> s[r] == c
    ensures forall k :: 0 <= k < |s| && (r < 0 || k < r) ==> s[k] != c
  {
    if s == [] then -1
    else if s[0] == c then 0
    else var r := Find(s[1..], c); if r < 0 then -1 else r + 1
  }

  /** str.lstrip(c): s without its leading run of c. */
  function LStrip(s: string, c: char): (r: string)
    ensures |r| <= |s| && r == s[|s| - |r|..]
    ensures AllChar(s[..|s| - |r|], c)
    ensures r == [] || r[0] != c
  {
    if s != [] && s[0] == c then
      var t := LStrip(s[1..], c);
      LStripStep(s, c, t);
      t
    else
      s
  }

  /** One step of lstrip: a leading c followed by a stripped run of c is a stripped run of c. */
  lemma LStripStep(s: string, c: char, t: string)
    requires s != [] && s[0] == c
    requires |t| <= |s| - 1 && t == s[1..][|s| - 1 - |t|..] && AllChar(s[1..][..|s| - 1 - |t|], c)
    ensures t == s[|s| - |t|..] && AllChar(s[..|s| - |t|], c)
  {
    assert s[1..][..|s| - 1 - |t|] == s[1..|s| - |t|];
    forall i | 0 <= i < |s| - |t|
      ensures s[i] == c
    {
      if i > 0 {
        assert s[i] == s[1..|s| - |t|][i - 1];
      }
    }
  }

  /** str.rstrip(c): s without its trailing run of c. */
  function RStrip(s: string, c: char): (r: string)
    ensures |r| <= |s| && r == s[..|r|]
    ensures AllChar(s[|r|..], c)
    ensures r == [] || r[|r| - 1] != c
  {
    if s != [] && s[|s| - 1] == c then
      var t := RStrip(s[..|s| - 1], c);
      RStripStep(s, c, t);
      t
    else
      s
  }

  /** One step of rstrip: a stripped run of c followed by a trailing c is a stripped run of c. */
  lemma RStripStep(s: string, c: char, t: string)
    requires s != [] && s[|s| - 1] == c
    requires |t| <= |s| - 1 && t == s[..|s| - 1][..|t|] && AllChar(s[..|s| - 1][|t|..], c)
    ensures t == s[..|t|] && AllChar(s[|t|..], c)
  {
    assert s[..|s| - 1][|t|..] == s[|t|..|s| - 1];
    forall i | |t| <= i < |s|
      ensures s[i] == c
    {
      if i < |s| - 1 {
        assert s[i] == s[|t|..|s| - 1][i - |t|];
      }
    }
  }

  /** rstrip removes exactly one character when only the last one is c. */
  lemma RStripLastOnly(s: string, c: char)
    requires |s| >= 2 && s[|s| - 1] == c && s[|s| - 2] != c
    ensures RStrip(s, c) == s[..|s| - 1]
  {
    var t := s[..|s| - 1];
    assert t[|t| - 1] != c;
  }

  /** Python's s[0:stop]: a negative stop counts from the end; both ends are clamped. */
  function SliceTo(s: string, stop: int): (r: string)
    ensures StartsWith(s, r)
    ensures 0 <= stop ==> |r| == if stop <= |s| then stop else |s|
    ensures stop < 0 ==> |r| == if -stop <= |s| then |s| + stop else 0
  {
    if 0 <= stop then (if stop <= |s| then s[..stop] else s)
    else if -stop <= |s| then s[..|s| + stop]
    else []
  }

  predicate IsDigit(c: char) {
    '0' <= c <= '9'
  }

  predicate AllDigits(s: string) {
    forall i :: 0 <= i < |s| ==> IsDigit(s[i])
  }

  function DigitChar(d: nat): (c: char)
    requires d < 10
    ensures IsDigit(c) && c as int - '0' as int == d
  {
    ('0' as int + d) as char
  }

  /** str(n) for a non-negative integer: its decimal digits without leading zeros. */
  function NatStr(n: nat): (r: string)
    ensures r != [] && AllDigits(r)
    ensures (r[0] == '0') == (n == 0)
  {
    if n < 10 then [DigitChar(n)] else NatStr(n / 10) + [DigitChar(n % 10)]
  }

  /** str(n) is a single digit exactly for n < 10; in particular str(0) is "0". */
  lemma NatStrOneDigit(n: nat)
    ensures |NatStr(n)| == 1 <==> n < 10
    ensures NatStr(0) == "0"
  {
  }

  /** The number a string of decimal digits denotes; the inverse of NatStr. */
  function DigitsValue(s: string): nat
    requires AllDigits(s)
  {
    if s == [] then 0 else 10 * DigitsValue(s[..|s| - 1]) + (s[|s| - 1] as int - '0' as int)
  }

  /** Reading back the digits that str(n) prints gives n. */
  lemma {:induction false} DigitsValueOfNatStr(n: nat)
    ensures DigitsValue(NatStr(n)) == n
  {
    if n >= 10 {
      DigitsValueOfNatStr(n / 10);
      var s := NatStr(n);
      assert s[..|s| - 1] == NatStr(n / 10);
    }
  }

  /** The leading run of decimal digits of s. */
  function TakeDigits(s: string): (r: string)
    ensures StartsWith(s, r) && AllDigits(r)
    ensures |r| == |s| || !IsDigit(s[|r|])
  {
    if s != [] && IsDigit(s[0]) then [s[0]] + TakeDigits(s[1..]) else []
  }

  /** The digit run at the front of a digit string followed by a non-digit is that digit string. */
  lemma {:induction false} TakeDigitsOfDigits(d: string, rest: string)
    requires AllDigits(d)
    requires rest == [] || !IsDigit(rest[0])
    ensures TakeDigits(d + rest) == d
  {
    if d != [] {
      assert (d + rest)[1..] == d[1..] + rest;
      TakeDigitsOfDigits(d[1..], rest);
    } else {
      assert d + rest == rest;
    }
  }
}
