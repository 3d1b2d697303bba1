/**
 * The JavaScript built-ins the front end leans on, stated over Dafny strings:
 * `String.prototype.trim`, `toLowerCase` (ASCII letters only),
 * `name.split('.').pop()`, `Array.prototype.slice` with non-negative bounds
 * and `String(n)` for a non-negative integer.
 */
module Js {

  /** The characters `trim` removes: ECMAScript WhiteSpace and LineTerminator. */
  predicate IsWhitespace(c: char) {
    var n := c as int;
    (0x09 <= n <= 0x0D) || n == 0x20 || n == 0xA0 || n == 0x1680
    || (0x2000 <= n <= 0x200A) || n == 0x2028 || n == 0x2029
    || n == 0x202F || n == 0x205F || n == 0x3000 || n == 0xFEFF
  }

  predicate AllWhitespace(s: string) {
    forall i :: 0 <= i < |s| ==> IsWhitespace(s[i])
  }

  /** Neither end of `s` is whitespace: what `trim` leaves behind. */
  predicate IsTrimmed(s: string) {
    s == [] || (!IsWhitespace(s[0]) && !IsWhitespace(s[|s| - 1]))
  }

  /** Number of whitespace characters at the front of `s`. */
  function LeadingWhitespace(s: string): (n: nat)
    ensures n <= |s|
    ensures AllWhitespace(s[..n])
    ensures n < |s| ==> !IsWhitespace(s[n])
  {
    if |s| > 0 && IsWhitespace(s[0]) then
      var k := LeadingWhitespace(s[1..]);
      assert s[1..][..k] == s[1..k + 1];
      1 + k
    else 0
  }

  /** Number of whitespace characters at the back of `s`. */
  function TrailingWhitespace(s: string): (n: nat)
    ensures n <= |s|
    ensures AllWhitespace(s[|s| - n..])
    ensures n < |s| ==> !IsWhitespace(s[|s| - n - 1])
  {
    if |s| > 0 && IsWhitespace(s[|s| - 1]) then
      var k := TrailingWhitespace(s[..|s| - 1]);
      assert s[..|s| - 1][|s| - 1 - k..] == s[|s| - 1 - k..|s| - 1];
      1 + k
    else 0
  }

  /** `s.trim()` */
  function Trim(s: string): (r: string)
    ensures IsTrimmed(r)
    ensures r == [] <==> AllWhitespace(s)
    ensures |r| <= |s|
  {
    var a := LeadingWhitespace(s);
    if a == |s| then []
    else
      var b := TrailingWhitespace(s);
      assert !IsWhitespace(s[a]);
      assert a < |s| - b;
      var r := s[a..|s| - b];
      assert r[0] == s[a] && r[|r| - 1] == s[|s| - b - 1];
      r
  }

  /** `!s.trim()`: the string holds nothing but whitespace. */
  predicate IsBlank(s: string) {
    Trim(s) == []
  }

  lemma {:induction false} LeadingOfPadded(pre: string, mid: string, suf: string)
    requires AllWhitespace(pre) && mid != [] && !IsWhitespace(mid[0])
    ensures LeadingWhitespace(pre + mid + suf) == |pre|
  {
    if pre != [] {
      assert (pre + mid + suf)[1..] == pre[1..] + mid + suf;
      LeadingOfPadded(pre[1..], mid, suf);
    }
  }

  lemma {:induction false} TrailingOfPadded(pre: string, mid: string, suf: string)
    requires AllWhitespace(suf) && mid != [] && !IsWhitespace(mid[|mid| - 1])
    ensures TrailingWhitespace(pre + mid + suf) == |suf|
  {
    var s := pre + mid + suf;
    if suf != [] {
      var shorter := suf[..|suf| - 1];
      assert s[..|s| - 1] == pre + mid + shorter;
      TrailingOfPadded(pre, mid, shorter);
    }
  }

  /**
   * `trim` is characterised without reference to its body: whenever `s`
   * splits into whitespace, a trimmed middle and whitespace, the middle is
   * what `trim` returns.
   */
  lemma {:induction false} TrimIsUnique(pre: string, mid: string, suf: string)
    requires AllWhitespace(pre) && AllWhitespace(suf) && IsTrimmed(mid)
    ensures Trim(pre + mid + suf) == mid
  {
    var s := pre + mid + suf;
    if mid == [] {
      assert s == pre + suf;
      assert forall i :: 0 <= i < |s| ==> s[i] == (if i < |pre| then pre[i] else suf[i - |pre|]);
    } else {
      LeadingOfPadded(pre, mid, suf);
      TrailingOfPadded(pre, mid, suf);
      assert s[|pre|..|s| - |suf|] == mid;
    }
  }

  /** Trimming twice is trimming once. */
  lemma TrimIdempotent(s: string)
    ensures Trim(Trim(s)) == Trim(s)
  {
    var t := Trim(s);
    TrimIsUnique([], t, []);
    assert [] + t + [] == t;
  }

  /** `c.toLowerCase()` on the ASCII letters; every other character is kept. */
  function LowerChar(c: char): char {
    if 'A' <= c <= 'Z' then (c as int + 32) as char else c
  }

  /** `s.toLowerCase()` */
  function Lower(s: string): (r: string)
    ensures |r| == |s|
    ensures forall i :: 0 <= i < |s| ==> !('A' <= r[i] <= 'Z')
    ensures forall i :: 0 <= i < |s| && !('A' <= s[i] <= 'Z') ==> r[i] == s[i]
    ensures forall i :: 0 <= i < |s| && 'A' <= s[i] <= 'Z' ==> r[i] as int == s[i] as int + 32
  {
    seq(|s|, i requires 0 <= i < |s| => LowerChar(s[i]))
  }

  /**
   * `s.split('.').pop()`: the text after the last `.`, or all of `s` when it
   * holds no `.` (split always yields at least one piece, so pop never
   * returns undefined).
   */
  function AfterLastDot(s: string): (r: string)
    ensures '.' !in r
    ensures |r| <= |s| && r == s[|s| - |r|..]
    ensures |r| < |s| ==> s[|s| - |r| - 1] == '.'
  {
    if s == [] then []
    else if s[|s| - 1] == '.' then []
    else
      var r := AfterLastDot(s[..|s| - 1]);
      assert s[..|s| - 1][|s| - 1 - |r|..] == s[|s| - 1 - |r|..|s| - 1];
      r + [s[|s| - 1]]
  }

  /** The two ways `s` can end: a last piece after a `.`, or no `.` at all. */
  lemma {:induction false} AfterLastDotSplits(s: string)
    ensures var r := AfterLastDot(s);
      (s == r && '.' !in s)
      || (exists p :: s == p + "." + r)
  {
    var r := AfterLastDot(s);
    if |r| < |s| {
      var p := s[..|s| - |r| - 1];
      assert s == p + "." + r;
    } else {
      assert s == r;
    }
  }

  /** After a last `.`, the piece `pop` returns is exactly what follows it. */
  lemma {:induction false} AfterLastDotOfDotted(p: string, e: string)
    requires '.' !in e
    ensures AfterLastDot(p + "." + e) == e
    decreases |e|
  {
    var s := p + "." + e;
    if e == [] {
      assert s[|s| - 1] == '.';
    } else {
      var init := e[..|e| - 1];
      assert s[..|s| - 1] == p + "." + init;
      assert e[|e| - 1] in e;
      AfterLastDotOfDotted(p, init);
      assert e == init + [e[|e| - 1]];
    }
  }

  function Min(a: int, b: int): int {
    if a <= b then a else b
  }

  /** `s.slice(start, end)` for non-negative bounds (both are clamped to the length). */
  function Slice<T>(s: seq<T>, start: nat, end: nat): (r: seq<T>)
    ensures |r| == if Min(end, |s|) <= Min(start, |s|) then 0 else Min(end, |s|) - Min(start, |s|)
    ensures forall i :: 0 <= i < |r| ==> r[i] == s[start + i]
  {
    var from, to := Min(start, |s|), Min(end, |s|);
    if to <= from then [] else s[from..to]
  }

  /** A prefix slice is the first `Min(n, |s|)` elements. */
  lemma SliceFromZero<T>(s: seq<T>, n: nat)
    ensures Slice(s, 0, n) == s[..Min(n, |s|)]
  {
  }

  function DigitChar(d: nat): char
    requires d < 10
  {
    "0123456789"[d]
  }

  function DigitValue(c: char): int {
    c as int - '0' as int
  }

  predicate IsDigit(c: char) {
    '0' <= c <= '9'
  }

  /** `String(n)` for a non-negative integer: its decimal digits without leading zeros. */
  function NatToString(n: nat): (r: string)
    ensures r != []
    ensures forall i :: 0 <= i < |r| ==> IsDigit(r[i])
    ensures |r| > 1 ==> r[0] != '0'
  {
    if n < 10 then [DigitChar(n)] else NatToString(n / 10) + [DigitChar(n % 10)]
  }

  /** Reads a string of decimal digits back as a number. */
  function ReadDecimal(s: string): int {
    if s == [] then 0 else 10 * ReadDecimal(s[..|s| - 1]) + DigitValue(s[|s| - 1])
  }

  /** `String(n)` loses nothing: reading its digits gives `n` back. */
  lemma {:induction false} NatToStringRoundTrip(n: nat)
    ensures ReadDecimal(NatToString(n)) == n
  {
    var r := NatToString(n);
    if n >= 10 {
      NatToStringRoundTrip(n / 10);
      assert r[..|r| - 1] == NatToString(n / 10);
    }
  }
}
