/** String helpers shared by the services: decimal rendering, prefix and substring search,
    single-character split/join, and the whitespace trimming of Python's `str.strip()` and
    JavaScript's `String.prototype.trim()`. */
module Text {
  import opened Outcomes

  /** The decimal digit for `d`. */
  function Digit(d: nat): (c: char)
    requires d < 10
    ensures '0' <= c <= '9' && DigitValue(c) == d
  {
    ('0' as int + d) as char
  }

  /** The value of a decimal digit. */
  function DigitValue(c: char): nat
    requires '0' <= c <= '9'
  {
    c as int - '0' as int
  }

  predicate AllDigits(s: string) {
    forall i :: 0 <= i < |s| ==> '0' <= s[i] <= '9'
  }

  /** The number a string of decimal digits denotes, most significant digit first. */
  function DecimalValue(s: string): nat
    requires AllDigits(s)
  {
    if s == [] then 0 else DecimalValue(s[..|s| - 1]) * 10 + DigitValue(s[|s| - 1])
  }

  /** `str(n)` / `String(n)` for a natural number: its decimal digits, without leading zeros. */
  function NatToString(n: nat): (s: string)
    ensures |s| >= 1 && AllDigits(s)
    ensures n < 10 <==> |s| == 1
  {
    if n < 10 then [Digit(n)] else NatToString(n / 10) + [Digit(n % 10)]
  }

  /** The digits of `n` denote `n`, and only `0` is written with a leading zero. */
  lemma {:induction false} NatToStringValue(n: nat)
    ensures DecimalValue(NatToString(n)) == n
    ensures NatToString(n)[0] == '0' ==> n == 0
  {
    if n >= 10 {
      var high := NatToString(n / 10);
      var s := NatToString(n);
      NatToStringValue(n / 10);
      assert s[..|s| - 1] == high && s[0] == high[0];
    }
  }

  /** Zeros in front of a number do not change its value. */
  lemma {:induction false} LeadingZeros(k: nat, d: string)
    requires AllDigits(d)
    ensures AllDigits(Repeat('0', k) + d) && DecimalValue(Repeat('0', k) + d) == DecimalValue(d)
  {
    var s := Repeat('0', k) + d;
    if d == [] {
      assert s == Repeat('0', k);
      ZerosAreZero(k);
    } else {
      LeadingZeros(k, d[..|d| - 1]);
      assert s[..|s| - 1] == Repeat('0', k) + d[..|d| - 1];
    }
  }

  lemma {:induction false} ZerosAreZero(k: nat)
    ensures AllDigits(Repeat('0', k)) && DecimalValue(Repeat('0', k)) == 0
  {
    if k > 0 {
      ZerosAreZero(k - 1);
      var z := Repeat('0', k);
      assert z[..k - 1] == Repeat('0', k - 1);
    }
  }

  /** `10` to the power `k`. */
  function Pow10(k: nat): (p: nat)
    ensures p >= 1
  {
    if k == 0 then 1 else 10 * Pow10(k - 1)
  }

  /** A number below `10^k` has at most `k` decimal digits. */
  lemma {:induction false} NatToStringFits(n: nat, k: nat)
    requires 1 <= k && n < Pow10(k)
    ensures |NatToString(n)| <= k
  {
    if n >= 10 {
      assert n / 10 < Pow10(k - 1);
      NatToStringFits(n / 10, k - 1);
    }
  }

  /** `str(i)` / `String(i)` for an integer: a minus sign before the magnitude when negative. */
  function IntToString(i: int): (s: string)
    ensures |s| >= 1
    ensures i >= 0 ==> AllDigits(s)
    ensures i < 0 ==> s[0] == '-'
  {
    if i >= 0 then NatToString(i) else "-" + NatToString(-i)
  }

  function Repeat(c: char, n: nat): (s: string)
    ensures |s| == n && forall i :: 0 <= i < n ==> s[i] == c
  {
    if n == 0 then [] else [c] + Repeat(c, n - 1)
  }

  /** The decimal form of `n` left-padded with zeros to at least `width` digits (strftime's `%m`). */
  function ZeroPad(n: nat, width: nat): (s: string)
    ensures |s| >= width && AllDigits(s)
    ensures |NatToString(n)| <= width ==> |s| == width
    ensures |NatToString(n)| >= width ==> s == NatToString(n)
  {
    var d := NatToString(n);
    if |d| >= width then d else Repeat('0', width - |d|) + d
  }

  /** Padding keeps the value: the padded digits still denote `n`. */
  lemma ZeroPadValue(n: nat, width: nat)
    ensures DecimalValue(ZeroPad(n, width)) == n
  {
    NatToStringValue(n);
    if |NatToString(n)| < width {
      PaddedValue(n, width);
    }
  }

  lemma PaddedValue(n: nat, width: nat)
    requires |NatToString(n)| < width
    ensures DecimalValue(ZeroPad(n, width)) == DecimalValue(NatToString(n))
  {
    var d := NatToString(n);
    assert ZeroPad(n, width) == Repeat('0', width - |d|) + d;
    LeadingZeros(width - |d|, d);
  }

  predicate StartsWith(s: string, p: string) {
    |p| <= |s| && s[..|p|] == p
  }

  predicate EndsWith(s: string, p: string) {
    |p| <= |s| && s[|s| - |p|..] == p
  }

  predicate OccursAt(s: string, p: string, j: nat) {
    j + |p| <= |s| && s[j..j + |p|] == p
  }

  predicate Contains(s: string, p: string) {
    exists j: nat | j <= |s| :: OccursAt(s, p, j)
  }

  /** An occurrence one position in is an occurrence in the tail. */
  lemma OccursAtShift(s: string, p: string, j: nat)
    requires s != []
    ensures OccursAt(s, p, j + 1) <==> OccursAt(s[1..], p, j)
  {
    if j + 1 + |p| <= |s| {
      var here, there := s[j + 1..j + 1 + |p|], s[1..][j..j + |p|];
      assert forall k :: 0 <= k < |p| ==> here[k] == there[k];
      assert here == there;
    }
  }

  /** The first position at which `p` occurs in `s` (`indexOf`). */
  function IndexOf(s: string, p: string): (r: Option<nat>)
    ensures r.Some? ==> OccursAt(s, p, r.value) && forall j: nat :: j < r.value ==> !OccursAt(s, p, j)
    ensures r.None? ==> forall j: nat :: !OccursAt(s, p, j)
  {
    if |s| < |p| then None
    else if s[..|p|] == p then Some(0)
    else
      var tail := IndexOf(s[1..], p);
      assert forall j: nat :: OccursAt(s, p, j + 1) <==> OccursAt(s[1..], p, j) by {
        forall j: nat ensures OccursAt(s, p, j + 1) <==> OccursAt(s[1..], p, j) {
          OccursAtShift(s, p, j);
        }
      }
      assert !OccursAt(s, p, 0);
      match tail
      case None =>
        assert forall j: nat :: !OccursAt(s, p, j) by {
          forall j: nat ensures !OccursAt(s, p, j) {
            if j > 0 { assert !OccursAt(s[1..], p, j - 1); }
          }
        }
        None
      case Some(k) =>
        assert forall j: nat :: j < k + 1 ==> !OccursAt(s, p, j) by {
          forall j: nat | j < k + 1 ensures !OccursAt(s, p, j) {
            if j > 0 { assert !OccursAt(s[1..], p, j - 1); }
          }
        }
        Some(k + 1)
  }

  /** JavaScript's `s.replace(pattern, replacement)` with a string pattern: only the first
      occurrence is replaced. */
  function ReplaceFirst(s: string, pattern: string, replacement: string): (r: string)
    ensures !Contains(s, pattern) ==> r == s
    ensures Contains(s, pattern) ==>
      exists i: nat :: OccursAt(s, pattern, i) && r == s[..i] + replacement + s[i + |pattern|..]
    ensures forall i: nat :: OccursAt(s, pattern, i) && (forall j: nat :: j < i ==> !OccursAt(s, pattern, j)) ==>
      r == s[..i] + replacement + s[i + |pattern|..]
  {
    match IndexOf(s, pattern)
    case None => s
    case Some(i) => s[..i] + replacement + s[i + |pattern|..]
  }

  /** A pattern at the very start is the occurrence replaced. */
  lemma ReplaceAtStart(s: string, pattern: string, replacement: string)
    requires StartsWith(s, pattern)
    ensures ReplaceFirst(s, pattern, replacement) == replacement + s[|pattern|..]
  {
    assert IndexOf(s, pattern) == Some(0) by {
      assert |pattern| <= |s| && s[..|pattern|] == pattern;
    }
    assert s[..0] + replacement == replacement;
  }

  /** Occurrences of `c` in `s`. */
  function Count(s: string, c: char): nat {
    if s == [] then 0 else (if s[0] == c then 1 else 0) + Count(s[1..], c)
  }

  /** `Count` over a concatenation. */
  lemma {:induction false} CountConcat(a: string, b: string, c: char)
    ensures Count(a + b, c) == Count(a, c) + Count(b, c)
  {
    if a != [] {
      assert (a + b)[1..] == a[1..] + b;
      CountConcat(a[1..], b, c);
    } else {
      assert a + b == b;
    }
  }

  /** Python's `s.split(sep)` and JavaScript's `s.split(sep)` for a one-character separator:
      the fields between separators, empty ones included. */
  function Split(s: string, sep: char): (fields: seq<string>)
    ensures |fields| == Count(s, sep) + 1
    ensures forall k :: 0 <= k < |fields| ==> sep !in fields[k]
  {
    if s == [] then [""]
    else
      var rest := Split(s[1..], sep);
      if s[0] == sep then [""] + rest else [[s[0]] + rest[0]] + rest[1..]
  }

  /** `sep.join(parts)`. */
  function Join(parts: seq<string>, sep: char): string {
    if |parts| == 0 then ""
    else if |parts| == 1 then parts[0]
    else parts[0] + [sep] + Join(parts[1..], sep)
  }

  /** Splitting loses nothing: joining the fields with the separator gives the input back. */
  lemma {:induction false} JoinSplit(s: string, sep: char)
    ensures Join(Split(s, sep), sep) == s
  {
    if s != [] {
      var rest := Split(s[1..], sep);
      JoinSplit(s[1..], sep);
      if s[0] == sep {
        assert ([""] + rest)[1..] == rest;
      } else if |rest| > 1 {
        var fields := [[s[0]] + rest[0]] + rest[1..];
        assert fields[1..] == rest[1..];
        assert Join(rest, sep) == rest[0] + [sep] + Join(rest[1..], sep);
      }
    }
  }

  /** Characters for which Python's `str.isspace()` holds. */
  predicate IsPySpace(c: char) {
    ('\U{9}' <= c <= '\U{D}') || ('\U{1C}' <= c <= '\U{20}') || c == '\U{85}' || c == '\U{A0}'
    || c == '\U{1680}' || ('\U{2000}' <= c <= '\U{200A}') || c == '\U{2028}' || c == '\U{2029}'
    || c == '\U{202F}' || c == '\U{205F}' || c == '\U{3000}'
  }

  /** Characters removed by JavaScript's `trim()`: WhiteSpace and LineTerminator. */
  predicate IsJsSpace(c: char) {
    ('\U{9}' <= c <= '\U{D}') || c == '\U{20}' || c == '\U{A0}' || c == '\U{1680}'
    || ('\U{2000}' <= c <= '\U{200A}') || c == '\U{2028}' || c == '\U{2029}'
    || c == '\U{202F}' || c == '\U{205F}' || c == '\U{3000}' || c == '\U{FEFF}'
  }

  /** Which language's notion of whitespace a strip uses. */
  datatype Whitespace = Python | JavaScript

  predicate IsSpace(ws: Whitespace, c: char) {
    match ws
    case Python => IsPySpace(c)
    case JavaScript => IsJsSpace(c)
  }

  /** `s` without its leading `ws` whitespace. */
  function StripStart(s: string, ws: Whitespace): (r: string)
    ensures |r| <= |s| && r == s[|s| - |r|..]
    ensures forall i :: 0 <= i < |s| - |r| ==> IsSpace(ws, s[i])
    ensures r == [] || !IsSpace(ws, r[0])
  {
    if s != [] && IsSpace(ws, s[0]) then StripStart(s[1..], ws) else s
  }

  /** `s` without its trailing `ws` whitespace. */
  function StripEnd(s: string, ws: Whitespace): (r: string)
    ensures |r| <= |s| && r == s[..|r|]
    ensures forall i :: |r| <= i < |s| ==> IsSpace(ws, s[i])
    ensures r == [] || !IsSpace(ws, r[|r| - 1])
  {
    if s != [] && IsSpace(ws, s[|s| - 1]) then StripEnd(s[..|s| - 1], ws) else s
  }

  /** `r` is the piece of `s` starting at `i`, with only `ws` whitespace before and after it,
      and it neither starts nor ends with whitespace itself. */
  predicate StrippedAt(s: string, r: string, ws: Whitespace, i: nat) {
    && i + |r| <= |s| && r == s[i..i + |r|]
    && (forall k :: 0 <= k < i ==> IsSpace(ws, s[k]))
    && (forall k :: i + |r| <= k < |s| ==> IsSpace(ws, s[k]))
    && (r == [] || (!IsSpace(ws, r[0]) && !IsSpace(ws, r[|r| - 1])))
  }

  /** `r` is `s` with its `ws` whitespace removed at both ends. */
  ghost predicate StrippedOf(s: string, r: string, ws: Whitespace) {
    exists i: nat :: i <= |s| && StrippedAt(s, r, ws, i)
  }

  function Strip(s: string, ws: Whitespace): (r: string)
    ensures StrippedOf(s, r, ws)
  {
    var a := StripStart(s, ws);
    var r := StripEnd(a, ws);
    StripIsStrippedAt(s, ws, a, r);
    r
  }

  /** Leading whitespace cut from `s` leaves `a`, trailing whitespace cut from `a` leaves `r`:
      then `r` is the stripped piece of `s` starting where `a` does. */
  lemma StripIsStrippedAt(s: string, ws: Whitespace, a: string, r: string)
    requires |a| <= |s| && a == s[|s| - |a|..]
    requires forall k :: 0 <= k < |s| - |a| ==> IsSpace(ws, s[k])
    requires |r| <= |a| && r == a[..|r|]
    requires forall k :: |r| <= k < |a| ==> IsSpace(ws, a[k])
    requires a == [] || !IsSpace(ws, a[0])
    requires r == [] || !IsSpace(ws, r[|r| - 1])
    ensures StrippedAt(s, r, ws, |s| - |a|)
  {
    var i := |s| - |a|;
    assert r == s[i..i + |r|];
    forall k | i + |r| <= k < |s| ensures IsSpace(ws, s[k]) {
      assert s[k] == a[k - i];
    }
  }

  /** Only one string is `s` stripped, so `StrippedOf` fully determines `Strip`. */
  lemma StrippedOfUnique(s: string, r: string, r': string, ws: Whitespace)
    requires StrippedOf(s, r, ws) && StrippedOf(s, r', ws)
    ensures r == r'
  {
    var i: nat :| StrippedAt(s, r, ws, i);
    var i': nat :| StrippedAt(s, r', ws, i');
    if r != [] {
      StrippedPieceStart(s, r, r', ws, i, i');
    } else if r' != [] {
      StrippedPieceStart(s, r', r, ws, i', i);
    }
  }

  /** A non-empty stripped piece pins down the other: same start, same end. */
  lemma StrippedPieceStart(s: string, r: string, r': string, ws: Whitespace, i: nat, i': nat)
    requires StrippedAt(s, r, ws, i) && StrippedAt(s, r', ws, i') && r != []
    ensures r == r'
  {
    assert s[i] == r[0] && s[i + |r| - 1] == r[|r| - 1];
    assert !IsSpace(ws, s[i]) && !IsSpace(ws, s[i + |r| - 1]);
    assert i' <= i;
    assert i + |r| <= i' + |r'|;
    if r' != [] {
      assert s[i'] == r'[0];
      assert i == i';
      assert s[i' + |r'| - 1] == r'[|r'| - 1];
      assert |r| == |r'|;
    }
  }

  /** Python's `s.strip()`. */
  function PyStrip(s: string): (r: string)
    ensures StrippedOf(s, r, Python)
  {
    Strip(s, Python)
  }

  /** JavaScript's `s.trim()`. */
  function JsTrim(s: string): (r: string)
    ensures StrippedOf(s, r, JavaScript)
  {
    Strip(s, JavaScript)
  }

  /** Stripping only removes characters: every character left was in the input. */
  lemma StripKeepsCharacters(s: string, ws: Whitespace, c: char)
    requires c in Strip(s, ws)
    ensures c in s
  {
    var a := StripStart(s, ws);
    var r := StripEnd(a, ws);
    var i :| 0 <= i < |r| && r[i] == c;
    assert r[i] == a[i] && a[i] == s[|s| - |a| + i];
  }

  /** Trimming leaves nothing exactly when every character is whitespace. */
  lemma {:induction false} TrimEmptyIffAllSpace(s: string, ws: Whitespace)
    ensures Strip(s, ws) == [] <==> forall i :: 0 <= i < |s| ==> IsSpace(ws, s[i])
  {
    var a := StripStart(s, ws);
    if a != [] {
      assert !IsSpace(ws, a[0]) && a[0] == s[|s| - |a|];
    }
  }

  /** Trimming a string that neither starts nor ends with whitespace changes nothing. */
  lemma StripUnpadded(s: string, ws: Whitespace)
    requires s == [] || (!IsSpace(ws, s[0]) && !IsSpace(ws, s[|s| - 1]))
    ensures Strip(s, ws) == s
  {
  }

  /** `s[:n]` in Python, `s.substring(0, n)` in JavaScript. */
  function Take(s: string, n: nat): (r: string)
    ensures |r| == if |s| <= n then |s| else n
    ensures r == s[..|r|]
  {
    if |s| <= n then s else s[..n]
  }

  /** ASCII upper-casing (`toUpperCase` on the letters a to z). */
  function AsciiUpper(s: string): (r: string)
    ensures |r| == |s|
    ensures forall i :: 0 <= i < |s| ==> (if 'a' <= s[i] <= 'z' then r[i] == s[i] - 'a' + 'A' else r[i] == s[i])
  {
    if s == [] then [] else
      [if 'a' <= s[0] <= 'z' then s[0] - 'a' + 'A' else s[0]] + AsciiUpper(s[1..])
  }
}
