/**
 * The handful of Python string operations both scripts lean on: whitespace stripping,
 * `str.split()`, `str.splitlines()`, `find`/`rfind`, integer formatting with `{n:0Wd}`
 * and the transcript excerpt that every prompt carries.
 */
module PyText {

  /** The characters `str.isspace()` accepts; `str.strip()`, `str.split()` and the regex class `\s` use the same set. */
  predicate IsSpace(c: char) {
    if c <= ' ' then c == ' ' || '\t' <= c <= '\r' || '\U{1C}' <= c <= '\U{1F}'
    else if c < '\U{85}' then false
    else
      c == '\U{85}' || c == '\U{A0}' || c == '\U{1680}' || ('\U{2000}' <= c <= '\U{200A}')
      || c == '\U{2028}' || c == '\U{2029}' || c == '\U{202F}' || c == '\U{205F}' || c == '\U{3000}'
  }

  /** The line boundaries `str.splitlines()` recognises ("\r\n" counts as one). */
  predicate IsLineBreak(c: char) {
    if c <= '\U{1E}' then '\n' <= c <= '\r' || '\U{1C}' <= c
    else c == '\U{85}' || c == '\U{2028}' || c == '\U{2029}'
  }

  function TrimStart(s: string): (r: string)
    ensures |r| <= |s| && r == s[|s| - |r|..]
    ensures r == [] || !IsSpace(r[0])
    ensures forall i :: 0 <= i < |s| - |r| ==> IsSpace(s[i])
  {
    if s != [] && IsSpace(s[0]) then TrimStart(s[1..]) else s
  }

  function TrimEnd(s: string): (r: string)
    ensures |r| <= |s| && r == s[..|r|]
    ensures r == [] || !IsSpace(r[|r| - 1])
    ensures forall i :: |r| <= i < |s| ==> IsSpace(s[i])
  {
    if s != [] && IsSpace(s[|s| - 1]) then TrimEnd(s[..|s| - 1]) else s
  }

  /** Python's `s.strip()`. */
  function Strip(s: string): (r: string)
    ensures |r| <= |s|
    ensures r == [] || (!IsSpace(r[0]) && !IsSpace(r[|r| - 1]))
  {
    TrimEnd(TrimStart(s))
  }

  /** A word as `str.split()` produces it: non-empty, no whitespace inside. */
  predicate IsWord(w: string) {
    w != [] && forall i :: 0 <= i < |w| ==> !IsSpace(w[i])
  }

  /** The longest prefix of `s` free of whitespace. */
  function WordAt(s: string): (w: string)
    ensures |w| <= |s| && w == s[..|w|]
    ensures forall i :: 0 <= i < |w| ==> !IsSpace(w[i])
    ensures |w| < |s| ==> IsSpace(s[|w|])
  {
    if s != [] && !IsSpace(s[0]) then [s[0]] + WordAt(s[1..]) else []
  }

  /** Python's `s.split()` with no separator: the maximal runs of non-whitespace, in order. */
  function Split(s: string): (ws: seq<string>)
    ensures forall k :: 0 <= k < |ws| ==> IsWord(ws[k])
    decreases |s|
  {
    var t := TrimStart(s);
    if t == [] then []
    else
      var w := WordAt(t);
      [w] + Split(t[|w|..])
  }

  /** Index of the first line boundary in `s`, or `|s|`. */
  function LineEnd(s: string): (i: nat)
    ensures i <= |s| && (i < |s| ==> IsLineBreak(s[i]))
    ensures forall j :: 0 <= j < i ==> !IsLineBreak(s[j])
  {
    if s == [] || IsLineBreak(s[0]) then 0 else 1 + LineEnd(s[1..])
  }

  /** Python's `s.splitlines()`: no trailing empty line, "\r\n" is a single boundary. */
  function SplitLines(s: string): (lines: seq<string>)
    ensures forall k, j :: 0 <= k < |lines| && 0 <= j < |lines[k]| ==> !IsLineBreak(lines[k][j])
    decreases |s|
  {
    if s == [] then []
    else
      var i := LineEnd(s);
      if i == |s| then [s]
      else
        var next := if s[i] == '\r' && i + 1 < |s| && s[i + 1] == '\n' then i + 2 else i + 1;
        [s[..i]] + SplitLines(s[next..])
  }

  /** Python's `s.strip("\n")`: only newline characters are removed, at both ends. */
  function StripNewlines(s: string): (r: string)
    ensures |r| <= |s|
    ensures r == [] || (r[0] != '\n' && r[|r| - 1] != '\n')
  {
    if s != [] && s[0] == '\n' then StripNewlines(s[1..])
    else if s != [] && s[|s| - 1] == '\n' then StripNewlines(s[..|s| - 1])
    else s
  }

  /** Python's `s.find(c)`: the first index of `c`, or -1. */
  function Find(s: string, c: char): (r: int)
    ensures -1 <= r < |s|
    ensures r == -1 <==> c !in s
    ensures r >= 0 ==> s[r] == c && c !in s[..r]
  {
    if s == [] then -1
    else if s[0] == c then 0
    else
      var k := Find(s[1..], c);
      if k == -1 then -1
      else
        assert s[..k + 1] == [s[0]] + s[1..][..k];
        k + 1
  }

  /** Python's `s.rfind(c)`: the last index of `c`, or -1. */
  function RFind(s: string, c: char): (r: int)
    ensures -1 <= r < |s|
    ensures r == -1 <==> c !in s
    ensures r >= 0 ==> s[r] == c && c !in s[r + 1..]
  {
    if s == [] then -1
    else if s[|s| - 1] == c then |s| - 1
    else
      var k := RFind(s[..|s| - 1], c);
      assert s == s[..|s| - 1] + [s[|s| - 1]];
      assert k >= 0 ==> s[k + 1..] == s[..|s| - 1][k + 1..] + [s[|s| - 1]];
      k
  }

  lemma {:induction false} FindIsFirst(s: string, c: char, i: nat)
    requires i < |s| && s[i] == c
    ensures 0 <= Find(s, c) <= i
  {
    if s[0] != c {
      FindIsFirst(s[1..], c, i - 1);
    }
  }

  lemma {:induction false} RFindIsLast(s: string, c: char, j: nat)
    requires j < |s| && s[j] == c
    ensures j <= RFind(s, c) < |s|
  {
    if s[|s| - 1] != c {
      RFindIsLast(s[..|s| - 1], c, j);
    }
  }

  lemma {:induction false} TrimStartSpaces(ws: string, t: string)
    requires forall k :: 0 <= k < |ws| ==> IsSpace(ws[k])
    ensures TrimStart(ws + t) == TrimStart(t)
  {
    if ws != [] {
      assert (ws + t)[1..] == ws[1..] + t;
      TrimStartSpaces(ws[1..], t);
    } else {
      assert ws + t == t;
    }
  }

  predicate AllSpace(s: string) {
    forall k :: 0 <= k < |s| ==> IsSpace(s[k])
  }

  predicate AllNewlines(s: string) {
    forall k :: 0 <= k < |s| ==> s[k] == '\n'
  }

  predicate NoLineBreak(s: string) {
    forall k :: 0 <= k < |s| ==> !IsLineBreak(s[k])
  }

  /** `s.strip()` is a slice of `s` with only whitespace before and after it. */
  lemma StripSpec(s: string)
    ensures exists i :: 0 <= i && i + |Strip(s)| <= |s| && Strip(s) == s[i..i + |Strip(s)|]
              && AllSpace(s[..i]) && AllSpace(s[i + |Strip(s)|..])
  {
    var i := StripStart(s);
  }

  /** The start of `s.strip()` in `s`. */
  lemma StripStart(s: string) returns (i: nat)
    ensures i + |Strip(s)| <= |s| && Strip(s) == s[i..i + |Strip(s)|]
    ensures AllSpace(s[..i]) && AllSpace(s[i + |Strip(s)|..])
  {
    var t := TrimStart(s);
    var r := TrimEnd(t);
    i := |s| - |t|;
    TrimmedHead(s);
    TrimEndTail(t);
    assert t == s[i..];
    assert r == t[..|r|] == s[i..i + |r|];
    assert s[i + |r|..] == t[|r|..];
  }

  lemma TrimmedHead(s: string)
    ensures AllSpace(s[..|s| - |TrimStart(s)|])
  {
    var head := s[..|s| - |TrimStart(s)|];
    forall k | 0 <= k < |head|
      ensures IsSpace(head[k])
    {
      assert head[k] == s[k];
    }
  }

  lemma TrimEndTail(t: string)
    ensures AllSpace(t[|TrimEnd(t)|..])
  {
    var n := |TrimEnd(t)|;
    var tail := t[n..];
    forall k | 0 <= k < |tail|
      ensures IsSpace(tail[k])
    {
      assert tail[k] == t[n + k];
    }
  }

  /** `s.strip("\n")` is a slice of `s` with only newlines before and after it. */
  lemma StripNewlinesSpec(s: string)
    ensures exists i :: 0 <= i && i + |StripNewlines(s)| <= |s| && StripNewlines(s) == s[i..i + |StripNewlines(s)|]
              && AllNewlines(s[..i]) && AllNewlines(s[i + |StripNewlines(s)|..])
  {
    var i := StripNewlinesStart(s);
  }

  /** `r` sits in `s` at `i` with only newlines around it. */
  predicate NewlineSlice(s: string, i: nat, r: string) {
    i + |r| <= |s| && r == s[i..i + |r|] && AllNewlines(s[..i]) && AllNewlines(s[i + |r|..])
  }

  /** The start of `s.strip("\n")` in `s`. */
  lemma {:induction false} StripNewlinesStart(s: string) returns (i: nat)
    ensures NewlineSlice(s, i, StripNewlines(s))
    decreases |s|
  {
    if s != [] && s[0] == '\n' {
      assert StripNewlines(s) == StripNewlines(s[1..]);
      var j := StripNewlinesStart(s[1..]);
      i := j + 1;
      NewlinesShift(s, j, StripNewlines(s[1..]));
    } else if s != [] && s[|s| - 1] == '\n' {
      assert StripNewlines(s) == StripNewlines(s[..|s| - 1]);
      i := StripNewlinesStart(s[..|s| - 1]);
      NewlinesDrop(s, i, StripNewlines(s[..|s| - 1]));
    } else {
      i := 0;
      assert s[..0] == [] && s[0 + |s|..] == [];
    }
  }

  lemma NewlinesShift(s: string, j: nat, r: string)
    requires s != [] && s[0] == '\n' && NewlineSlice(s[1..], j, r)
    ensures NewlineSlice(s, j + 1, r)
  {
    forall k | 0 <= k < j + 1
      ensures s[k] == '\n'
    {
      if k > 0 {
        assert s[1..][..j][k - 1] == s[k];
      }
    }
    assert s[j + 1 + |r|..] == s[1..][j + |r|..];
    assert r == s[1..][j..j + |r|] == s[j + 1..j + 1 + |r|];
  }

  lemma NewlinesDrop(s: string, i: nat, r: string)
    requires s != [] && s[|s| - 1] == '\n' && NewlineSlice(s[..|s| - 1], i, r)
    ensures NewlineSlice(s, i, r)
  {
    var u := s[..|s| - 1];
    assert s[..i] == u[..i];
    assert s[i + |r|..] == u[i + |r|..] + [s[|s| - 1]];
  }

  lemma {:induction false} WordAtWord(w: string, rest: string)
    requires forall k :: 0 <= k < |w| ==> !IsSpace(w[k])
    requires rest == [] || IsSpace(rest[0])
    ensures WordAt(w + rest) == w
  {
    if w == [] {
      assert w + rest == rest;
    } else {
      assert (w + rest)[0] == w[0] && (w + rest)[1..] == w[1..] + rest;
      WordAtWord(w[1..], rest);
      assert w == [w[0]] + w[1..];
    }
  }

  /** Blank text has no words. */
  lemma SplitBlank(g: string)
    requires AllSpace(g)
    ensures Split(g) == []
  {
  }

  /**
   * `split()` skips leading whitespace and returns the first word whole, then the words of
   * the rest: with `SplitBlank`, this fixes the result as the maximal non-space runs in order.
   */
  lemma SplitWord(g: string, w: string, rest: string)
    requires AllSpace(g) && IsWord(w) && (rest == [] || IsSpace(rest[0]))
    ensures Split(g + w + rest) == [w] + Split(rest)
  {
    var s := g + w + rest;
    assert s == g + (w + rest);
    TrimStartSpaces(g, w + rest);
    assert TrimStart(w + rest) == w + rest by {
      assert (w + rest)[0] == w[0];
    }
    WordAtWord(w, rest);
    assert (w + rest)[|w|..] == rest;
  }

  /** The break position of a line followed by a line boundary. */
  lemma LineEndAt(l: string, t: string)
    requires NoLineBreak(l) && t != [] && IsLineBreak(t[0])
    ensures LineEnd(l + t) == |l|
  {
    var s := l + t;
    var i := LineEnd(s);
    assert s[|l|] == t[0];
    assert i <= |l|;
  }

  /** A last line without a boundary is one line. */
  lemma SplitLinesLast(l: string)
    requires l != [] && NoLineBreak(l)
    ensures SplitLines(l) == [l]
  {
  }

  /**
   * A line ended by one boundary character (other than a '\r' that a '\n' follows) is cut
   * there, the boundary dropped; with `SplitLinesCrLf` and `SplitLinesLast` this rebuilds
   * the text line by line.
   */
  lemma SplitLinesBreak(l: string, b: char, rest: string)
    requires NoLineBreak(l) && IsLineBreak(b)
    requires !(b == '\r' && rest != [] && rest[0] == '\n')
    ensures SplitLines(l + [b] + rest) == [l] + SplitLines(rest)
  {
    var s := l + [b] + rest;
    assert s == l + ([b] + rest);
    LineEndAt(l, [b] + rest);
    assert s[|l|] == b;
    if b == '\r' && |l| + 1 < |s| {
      assert s[|l| + 1] == rest[0];
    }
    assert s[..|l|] == l && s[|l| + 1..] == rest;
  }

  /** "\r\n" ends a line as one boundary. */
  lemma SplitLinesCrLf(l: string, rest: string)
    requires NoLineBreak(l)
    ensures SplitLines(l + ['\r', '\n'] + rest) == [l] + SplitLines(rest)
  {
    var s := l + ['\r', '\n'] + rest;
    assert s == l + (['\r', '\n'] + rest);
    LineEndAt(l, ['\r', '\n'] + rest);
    assert s[|l|] == '\r' && s[|l| + 1] == '\n';
    assert s[..|l|] == l && s[|l| + 2..] == rest;
  }

  /** Text that neither starts nor ends with whitespace is its own `strip()`. */
  lemma StripUnpadded(s: string)
    requires s != [] && !IsSpace(s[0]) && !IsSpace(s[|s| - 1])
    ensures Strip(s) == s
  {
  }

  // ---------------------------------------------------------------------------
  // Integer formatting
  // ---------------------------------------------------------------------------

  predicate IsDigit(c: char) { '0' as int <= c as int <= '9' as int }

  function DigitChar(d: nat): (c: char)
    requires d < 10
    ensures IsDigit(c) && c as int - '0' as int == d
  {
    (d + '0' as int) as char
  }

  /** Decimal digits of `n` without leading zeros; what `str(n)` prints. */
  function Digits(n: nat): (s: string)
    ensures |s| >= 1
    ensures forall i :: 0 <= i < |s| ==> IsDigit(s[i])
  {
    if n < 10 then [DigitChar(n)] else Digits(n / 10) + [DigitChar(n % 10)]
  }

  /** The number a string of decimal digits denotes (leading zeros allowed). */
  function ValueOf(s: string): nat
    requires forall i :: 0 <= i < |s| ==> IsDigit(s[i])
  {
    if s == [] then 0
    else
      assert IsDigit(s[|s| - 1]);
      10 * ValueOf(s[..|s| - 1]) + (s[|s| - 1] as int - '0' as int)
  }

  function Zeros(k: nat): (s: string)
    ensures |s| == k && forall i :: 0 <= i < k ==> s[i] == '0'
  {
    if k == 0 then [] else Zeros(k - 1) + ['0']
  }

  /** `{n:0Wd}` for a non-negative `n`: at least `width` digits, zero-filled on the left. */
  function ZeroPad(n: nat, width: nat): (s: string)
    ensures |s| >= width && forall i :: 0 <= i < |s| ==> IsDigit(s[i])
  {
    var d := Digits(n);
    if |d| >= width then d else Zeros(width - |d|) + d
  }

  /** Python's `f"{n:0{width}d}"`: the sign counts towards the width. */
  function FormatInt(n: int, width: nat): string {
    if n >= 0 then ZeroPad(n, width) else "-" + ZeroPad(-n, if width > 0 then width - 1 else 0)
  }

  lemma {:induction false} DigitsRoundTrip(n: nat)
    ensures ValueOf(Digits(n)) == n
  {
    if n >= 10 {
      DigitsRoundTrip(n / 10);
      var d := Digits(n);
      assert d[..|d| - 1] == Digits(n / 10);
    }
  }

  lemma {:induction false} ValueOfZerosPrefix(k: nat, d: string)
    requires forall i :: 0 <= i < |d| ==> IsDigit(d[i])
    ensures ValueOf(Zeros(k) + d) == ValueOf(d)
    decreases |d|, k
  {
    if d == [] {
      if k > 0 {
        assert (Zeros(k) + d)[..k - 1] == Zeros(k - 1) + d;
        ValueOfZerosPrefix(k - 1, d);
      }
    } else {
      var s := Zeros(k) + d;
      assert s[..|s| - 1] == Zeros(k) + d[..|d| - 1];
      ValueOfZerosPrefix(k, d[..|d| - 1]);
    }
  }

  /** Zero padding never changes the number that is printed. */
  lemma ZeroPadRoundTrip(n: nat, width: nat)
    ensures ValueOf(ZeroPad(n, width)) == n
  {
    DigitsRoundTrip(n);
    var d := Digits(n);
    if |d| < width {
      ValueOfZerosPrefix(width - |d|, d);
    }
  }

  /** Numbers below 100 print with at most two digits, so `{n:02d}` prints exactly two. */
  lemma ZeroPadTwoDigits(n: nat)
    requires n < 100
    ensures |ZeroPad(n, 2)| == 2
  {
    if n >= 10 {
      assert Digits(n) == Digits(n / 10) + [DigitChar(n % 10)];
    }
  }

  // ---------------------------------------------------------------------------
  // Transcript excerpts
  // ---------------------------------------------------------------------------

  /** What a cut transcript ends with. */
  const TrimMarker: string := "\n\U{2026}(trimmed)\U{2026}"

  /**
   * `t = transcript.strip(); if len(t) > limit: t = t[:limit] + "\n…(trimmed)…"`:
   * the stripped transcript, cut to its first `limit` characters and marked when it is longer.
   */
  function Excerpt(transcript: string, limit: nat): (r: string)
    ensures var t := Strip(transcript);
      && (|t| <= limit ==> r == t)
      && (|t| > limit ==> r == t[..limit] + TrimMarker)
      && |r| <= limit + |TrimMarker|
  {
    var t := Strip(transcript);
    if |t| > limit then t[..limit] + TrimMarker else t
  }
}
