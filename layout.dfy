/**
 * The reportlab canvas as the scripts use it, and the two text-layout helpers
 * `draw_wrapped` (greedy word wrap) and `draw_code_block` (hard-wrapped monospace lines).
 * The canvas is a trace of what was drawn, in drawing order.
 */
module Layout {
  import opened PyText
  import opened Oracles

  /** One drawing operation: a string at a baseline position, an inline image, or a page break. */
  datatype Op =
    | Text(s: string, x: real, y: real, font: Font)
    | Picture(name: string, x: real, y: real, w: real, h: real)
    | NewPage

  /** The font a fresh canvas or a fresh page starts with. */
  const InitialFont := Font("Helvetica", 12.0)
  /** `draw_wrapped`'s default font. */
  const Body := Font("Helvetica", 11.0)
  /** The code font of both scripts. */
  const Code := Font("Courier", 9.0)
  /** Every Courier glyph is 600/1000 em wide, so 5.4 points at size 9: `stringWidth("M", "Courier", 9)`. */
  const CodeCharWidth: real := 5.4
  /** `draw_wrapped`'s line step; no caller passes another. */
  const WrapLeading: real := 14.0
  /** The line step inside code blocks. */
  const CodeLeading: real := 12.0

  class Canvas {
    /** Everything drawn so far. */
    var ops: seq<Op>
    /** The current font (`setFont`). */
    var font: Font
    /** `stringWidth(text, font, size)`. */
    const measure: (string, Font) -> real

    constructor (measure: (string, Font) -> real)
      ensures ops == [] && font == InitialFont && this.measure == measure
    {
      ops := [];
      font := InitialFont;
      this.measure := measure;
    }

    method SetFont(f: Font)
      modifies this
      ensures ops == old(ops) && font == f
    {
      font := f;
    }

    method DrawString(x: real, y: real, s: string)
      modifies this
      ensures ops == old(ops) + [Text(s, x, y, font)] && font == old(font)
    {
      ops := ops + [Text(s, x, y, font)];
    }

    /** `drawInlineImage(path, x, y, w, h)`: (x, y) is the lower-left corner. */
    method DrawInlineImage(name: string, x: real, y: real, w: real, h: real)
      modifies this
      ensures ops == old(ops) + [Picture(name, x, y, w, h)] && font == old(font)
    {
      ops := ops + [Picture(name, x, y, w, h)];
    }

    /** `showPage`: ends the page; the next page starts with the initial graphics state. */
    method ShowPage()
      modifies this
      ensures ops == old(ops) + [NewPage] && font == InitialFont
    {
      ops := ops + [NewPage];
      font := InitialFont;
    }
  }

  /** Lines drawn `leading` apart, downwards from `y`. */
  function Rows(lines: seq<string>, x: real, y: real, leading: real, font: Font): (r: seq<Op>)
    ensures |r| == |lines|
    decreases |lines|
  {
    if lines == [] then [] else [Text(lines[0], x, y, font)] + Rows(lines[1..], x, y - leading, leading, font)
  }

  /** Every row is the text of its line, at `x`, in `font`. */
  lemma {:induction false} RowsText(lines: seq<string>, x: real, y: real, leading: real, font: Font)
    ensures var r := Rows(lines, x, y, leading, font);
      forall i :: 0 <= i < |r| ==> r[i].Text? && r[i].s == lines[i] && r[i].x == x && r[i].font == font
    decreases |lines|
  {
    if lines != [] {
      var r := Rows(lines, x, y, leading, font);
      var t := Rows(lines[1..], x, y - leading, leading, font);
      RowsText(lines[1..], x, y - leading, leading, font);
      forall i | 0 <= i < |r|
        ensures r[i].Text? && r[i].s == lines[i] && r[i].x == x && r[i].font == font
      {
        if i > 0 {
          assert r[i] == t[i - 1];
        }
      }
    }
  }

  /** One more row moves the cursor down by one more `leading`. */
  lemma StepDown(y: real, leading: real, n: nat)
    ensures y - leading * (n as real) - leading == y - leading * ((n + 1) as real)
  {
  }

  lemma {:induction false} RowsAppend(lines: seq<string>, l: string, x: real, y: real, leading: real, font: Font)
    ensures Rows(lines + [l], x, y, leading, font) == Rows(lines, x, y, leading, font) + [Text(l, x, y - leading * (|lines| as real), font)]
    decreases |lines|
  {
    if lines == [] {
      assert lines + [l] == [l];
    } else {
      var t := lines[1..];
      var y1 := y - leading;
      RowsAppend(t, l, x, y1, leading, font);
      assert (lines + [l])[0] == lines[0] && (lines + [l])[1..] == t + [l];
      assert |lines| == |t| + 1;
      StepDown(y, leading, |t|);
      var head := [Text(lines[0], x, y, font)];
      var last := Text(l, x, y1 - leading * (|t| as real), font);
      assert last == Text(l, x, y - leading * (|lines| as real), font);
      assert Rows(lines, x, y, leading, font) == head + Rows(t, x, y1, leading, font);
      assert Rows(lines + [l], x, y, leading, font) == head + (Rows(t, x, y1, leading, font) + [last]);
      assert head + (Rows(t, x, y1, leading, font) + [last]) == (head + Rows(t, x, y1, leading, font)) + [last];
    }
  }

  /**
   * `drawString(x, y, line)` followed by `y -= leading`, for a canvas that so far holds the
   * rows `drawn` from `y0` down after `before`.
   */
  method DrawRow(c: Canvas, x: real, y0: real, y: real, leading: real, line: string, ghost before: seq<Op>, ghost drawn: seq<string>)
    returns (y': real)
    requires c.ops == before + Rows(drawn, x, y0, leading, c.font)
    requires y == y0 - leading * (|drawn| as real)
    modifies c
    ensures c.font == old(c.font)
    ensures c.ops == before + Rows(drawn + [line], x, y0, leading, c.font)
    ensures y' == y0 - leading * (|drawn + [line]| as real)
  {
    c.DrawString(x, y, line);
    RowsAppend(drawn, line, x, y0, leading, c.font);
    StepDown(y0, leading, |drawn|);
    y' := y - leading;
  }

  // ---------------------------------------------------------------------------
  // draw_wrapped
  // ---------------------------------------------------------------------------

  /**
   * The lines `draw_wrapped` draws for the words `ws` still to place when the line being
   * built is `line`: a word joins the line while the joined text fits, otherwise the line is
   * drawn (even when empty) and the word starts the next; a non-empty last line is drawn.
   */
  function WrapFrom(ws: seq<string>, line: string, maxWidth: real, font: Font, measure: (string, Font) -> real): seq<string>
    decreases |ws|
  {
    if ws == [] then (if line != [] then [line] else [])
    else
      var test := Joined(line, ws[0]);
      if measure(test, font) <= maxWidth then WrapFrom(ws[1..], test, maxWidth, font, measure)
      else [line] + WrapFrom(ws[1..], ws[0], maxWidth, font, measure)
  }

  /** The line with one more word: separated by a single space, or the word alone on an empty line. */
  function Joined(line: string, w: string): string {
    if line == [] then w else line + " " + w
  }

  /** `f"{line} {w}".strip()`, for a line as it is built and a word of the text. */
  method JoinWord(line: string, w: string) returns (test: string)
    requires Unpadded(line) && IsWord(w)
    ensures test == Joined(line, w) && test != [] && Unpadded(test)
  {
    test := Strip(line + " " + w);
    StripJoin(line, w);
  }

  /** The lines `draw_wrapped` draws for `text`. */
  function Wrap(text: string, maxWidth: real, font: Font, measure: (string, Font) -> real): seq<string> {
    WrapFrom(Split(text), "", maxWidth, font, measure)
  }

  /**
   * The body of `draw_wrapped`'s loop for the word `w`, with `rest` the words after it: the
   * word joins the line when the joined text fits, otherwise the line is drawn and the word
   * starts a new one.
   */
  method PlaceWord(c: Canvas, x: real, y0: real, y: real, line: string, w: string, maxWidth: real, font: Font,
                   ghost before: seq<Op>, ghost drawn: seq<string>, ghost rest: seq<string>)
    returns (line': string, y': real, ghost drawn': seq<string>)
    requires c.font == font && Unpadded(line) && IsWord(w)
    requires c.ops == before + Rows(drawn, x, y0, WrapLeading, font)
    requires y == y0 - WrapLeading * (|drawn| as real)
    modifies c
    ensures c.font == font && Unpadded(line')
    ensures c.ops == before + Rows(drawn', x, y0, WrapLeading, font)
    ensures y' == y0 - WrapLeading * (|drawn'| as real)
    ensures drawn + WrapFrom([w] + rest, line, maxWidth, font, c.measure) == drawn' + WrapFrom(rest, line', maxWidth, font, c.measure)
  {
    assert ([w] + rest)[0] == w && ([w] + rest)[1..] == rest;
    var test := JoinWord(line, w);
    if c.measure(test, font) <= maxWidth {
      line', y', drawn' := test, y, drawn;
    } else {
      y' := DrawRow(c, x, y0, y, WrapLeading, line, before, drawn);
      line', drawn' := w, drawn + [line];
    }
  }

  /**
   * `draw_wrapped`: sets the font, draws the wrapped lines 14 points apart from `y` down, and
   * returns the baseline below the last one.
   */
  method DrawWrapped(c: Canvas, x: real, y: real, text: string, maxWidth: real, font: Font) returns (y': real)
    modifies c
    ensures c.font == font
    ensures c.ops == old(c.ops) + Rows(Wrap(text, maxWidth, font, c.measure), x, y, WrapLeading, font)
    ensures y' == y - WrapLeading * (|Wrap(text, maxWidth, font, c.measure)| as real)
  {
    c.SetFont(font);
    var words := Split(text);
    var line := "";
    y' := y;
    ghost var drawn: seq<string> := [];
    for i := 0 to |words|
      invariant c.font == font
      invariant Unpadded(line)
      invariant Wrap(text, maxWidth, font, c.measure) == drawn + WrapFrom(words[i..], line, maxWidth, font, c.measure)
      invariant c.ops == old(c.ops) + Rows(drawn, x, y, WrapLeading, font)
      invariant y' == y - WrapLeading * (|drawn| as real)
    {
      assert words[i..] == [words[i]] + words[i + 1..];
      line, y', drawn := PlaceWord(c, x, y, y', line, words[i], maxWidth, font, old(c.ops), drawn, words[i + 1..]);
    }
    if line != "" {
      y' := DrawRow(c, x, y, y', WrapLeading, line, old(c.ops), drawn);
      drawn := drawn + [line];
    }
    assert drawn == Wrap(text, maxWidth, font, c.measure);
  }

  /** A line as it is built: empty, or with no whitespace at either end. */
  predicate Unpadded(line: string) {
    line == [] || (!IsSpace(line[0]) && !IsSpace(line[|line| - 1]))
  }

  /** Joining a word onto the line as the f-string and `strip()` do: a single space between, none for an empty line. */
  lemma StripJoin(line: string, w: string)
    requires Unpadded(line) && IsWord(w)
    ensures Strip(line + " " + w) == Joined(line, w)
  {
    if line == [] {
      assert line + " " + w == [' '] + w;
      TrimStartSpaces([' '], w);
      StripUnpadded(w);
    } else {
      StripUnpadded(line + " " + w);
    }
  }

  /** Words joined by single spaces. */
  function JoinWords(xs: seq<string>): string
    decreases |xs|
  {
    if xs == [] then [] else if |xs| == 1 then xs[0] else xs[0] + " " + JoinWords(xs[1..])
  }

  /** The lines that are not empty. */
  function NonBlank(lines: seq<string>): seq<string>
    decreases |lines|
  {
    if lines == [] then [] else (if lines[0] == [] then [] else [lines[0]]) + NonBlank(lines[1..])
  }

  lemma JoinCons(a: string, b: seq<string>)
    requires b != []
    ensures JoinWords([a] + b) == a + " " + JoinWords(b)
  {
    assert ([a] + b)[1..] == b;
  }

  lemma JoinMerge(a: string, b: string, rest: seq<string>)
    ensures JoinWords([a + " " + b] + rest) == JoinWords([a, b] + rest)
  {
    if rest != [] {
      JoinCons(a + " " + b, rest);
      JoinCons(b, rest);
      assert ([a, b] + rest)[1..] == [b] + rest;
      JoinCons(a, [b] + rest);
    }
  }

  lemma JoinNonEmpty(xs: seq<string>)
    requires xs != [] && xs[0] != []
    ensures JoinWords(xs) != []
  {
  }

  lemma {:induction false} WrapFromWords(ws: seq<string>, line: string, maxWidth: real, font: Font, measure: (string, Font) -> real)
    requires forall k :: 0 <= k < |ws| ==> IsWord(ws[k])
    requires Unpadded(line)
    ensures JoinWords(NonBlank(WrapFrom(ws, line, maxWidth, font, measure))) == JoinWords(NonBlank([line]) + ws)
    decreases |ws|
  {
    if ws == [] {
      assert NonBlank([line]) + ws == NonBlank([line]);
    } else if measure(Joined(line, ws[0]), font) <= maxWidth {
      WrapFromWords(ws[1..], Joined(line, ws[0]), maxWidth, font, measure);
      WordsJoined(ws, line, maxWidth, font, measure);
    } else {
      WrapFromWords(ws[1..], ws[0], maxWidth, font, measure);
      WordsBroken(ws, line, maxWidth, font, measure);
    }
  }

  /** The step of `WrapFromWords` where the next word still fits on the line. */
  lemma WordsJoined(ws: seq<string>, line: string, maxWidth: real, font: Font, measure: (string, Font) -> real)
    requires ws != [] && IsWord(ws[0]) && Unpadded(line)
    requires measure(Joined(line, ws[0]), font) <= maxWidth
    requires var test := Joined(line, ws[0]);
      JoinWords(NonBlank(WrapFrom(ws[1..], test, maxWidth, font, measure))) == JoinWords(NonBlank([test]) + ws[1..])
    ensures JoinWords(NonBlank(WrapFrom(ws, line, maxWidth, font, measure))) == JoinWords(NonBlank([line]) + ws)
  {
    var w := ws[0];
    var test := Joined(line, w);
    assert WrapFrom(ws, line, maxWidth, font, measure) == WrapFrom(ws[1..], test, maxWidth, font, measure);
    assert NonBlank([test]) == [test];
    if line == [] {
      assert NonBlank([line]) + ws == [test] + ws[1..];
    } else {
      JoinMerge(line, w, ws[1..]);
      assert NonBlank([line]) + ws == [line, w] + ws[1..];
    }
  }

  /** The step of `WrapFromWords` where the line is drawn and the next word starts a new one. */
  lemma WordsBroken(ws: seq<string>, line: string, maxWidth: real, font: Font, measure: (string, Font) -> real)
    requires ws != [] && IsWord(ws[0]) && Unpadded(line)
    requires measure(Joined(line, ws[0]), font) > maxWidth
    requires JoinWords(NonBlank(WrapFrom(ws[1..], ws[0], maxWidth, font, measure))) == JoinWords(NonBlank([ws[0]]) + ws[1..])
    ensures JoinWords(NonBlank(WrapFrom(ws, line, maxWidth, font, measure))) == JoinWords(NonBlank([line]) + ws)
  {
    var w := ws[0];
    var rest := WrapFrom(ws[1..], w, maxWidth, font, measure);
    assert WrapFrom(ws, line, maxWidth, font, measure) == [line] + rest;
    assert NonBlank([w]) == [w];
    assert NonBlank([w]) + ws[1..] == ws;
    assert ([line] + rest)[1..] == rest;
    assert NonBlank([line] + rest) == NonBlank([line]) + NonBlank(rest);
    assert JoinWords(NonBlank(rest)) == JoinWords(ws);
    if line != [] {
      assert NonBlank([line]) == [line];
      JoinNonEmpty(ws);
      assert NonBlank(rest) != [];
      JoinCons(line, NonBlank(rest));
      JoinCons(line, ws);
      calc {
        JoinWords(NonBlank([line] + rest));
        JoinWords([line] + NonBlank(rest));
        line + " " + JoinWords(ws);
        JoinWords([line] + ws);
      }
    } else {
      assert NonBlank([line]) == [];
      assert NonBlank([line]) + ws == ws;
      assert NonBlank([line] + rest) == NonBlank(rest);
    }
  }

  /**
   * Joined with single spaces, the non-empty lines `draw_wrapped` draws give back the words
   * of the text, in order: nothing is lost, repeated or reordered.
   */
  lemma WrapKeepsWords(text: string, maxWidth: real, font: Font, measure: (string, Font) -> real)
    ensures JoinWords(NonBlank(Wrap(text, maxWidth, font, measure))) == JoinWords(Split(text))
  {
    WrapFromWords(Split(text), "", maxWidth, font, measure);
    assert NonBlank([""]) + Split(text) == Split(text);
  }

  /** A line fits unless it is a single word. */
  predicate Fits(l: string, maxWidth: real, font: Font, measure: (string, Font) -> real) {
    ' ' in l ==> measure(l, font) <= maxWidth
  }

  lemma {:induction false} WrapFromFits(ws: seq<string>, line: string, maxWidth: real, font: Font, measure: (string, Font) -> real)
    requires forall k :: 0 <= k < |ws| ==> IsWord(ws[k])
    requires Unpadded(line) && Fits(line, maxWidth, font, measure)
    ensures forall l :: l in WrapFrom(ws, line, maxWidth, font, measure) ==> Fits(l, maxWidth, font, measure)
    decreases |ws|
  {
    if ws != [] {
      var w := ws[0];
      var test := Joined(line, w);
      if measure(test, font) <= maxWidth {
        WrapFromFits(ws[1..], test, maxWidth, font, measure);
      } else {
        assert ' ' !in w by {
          assert IsSpace(' ');
        }
        WrapFromFits(ws[1..], w, maxWidth, font, measure);
      }
    }
  }

  /** Every drawn line with more than one word (a line holding a space) fits `max_width`. */
  lemma WrapFits(text: string, maxWidth: real, font: Font, measure: (string, Font) -> real)
    ensures forall l :: l in Wrap(text, maxWidth, font, measure) ==> Fits(l, maxWidth, font, measure)
  {
    WrapFromFits(Split(text), "", maxWidth, font, measure);
  }

  lemma {:induction false} WrapFromNonBlank(ws: seq<string>, line: string, maxWidth: real, font: Font, measure: (string, Font) -> real)
    requires forall k :: 0 <= k < |ws| ==> IsWord(ws[k])
    requires Unpadded(line) && line != []
    ensures forall l :: l in WrapFrom(ws, line, maxWidth, font, measure) ==> l != []
    decreases |ws|
  {
    if ws != [] {
      var w := ws[0];
      var test := Joined(line, w);
      if measure(test, font) <= maxWidth {
        WrapFromNonBlank(ws[1..], test, maxWidth, font, measure);
      } else {
        WrapFromNonBlank(ws[1..], w, maxWidth, font, measure);
      }
    }
  }

  /**
   * An empty line is drawn only first, and exactly when the first word alone is wider than
   * `max_width`.
   */
  lemma WrapBlankFirst(text: string, maxWidth: real, font: Font, measure: (string, Font) -> real)
    ensures var lines := Wrap(text, maxWidth, font, measure);
      forall i :: 0 < i < |lines| ==> lines[i] != []
    ensures var lines := Wrap(text, maxWidth, font, measure);
      (lines != [] && lines[0] == []) <==> (Split(text) != [] && measure(Split(text)[0], font) > maxWidth)
  {
    var ws := Split(text);
    if ws != [] {
      var w := ws[0];
      WrapFromNonBlank(ws[1..], w, maxWidth, font, measure);
      var rest := WrapFrom(ws[1..], w, maxWidth, font, measure);
      assert forall i :: 0 <= i < |rest| ==> rest[i] in rest;
      if measure(w, font) > maxWidth {
        assert forall i :: 0 < i < |[""] + rest| ==> ([""] + rest)[i] == rest[i - 1];
      }
    }
  }

  // ---------------------------------------------------------------------------
  // draw_code_block
  // ---------------------------------------------------------------------------

  /** `max(20, int(max_width / char_w))`; `int` truncates toward zero, which only matters below 20. */
  function MaxChars(maxWidth: real): (m: int)
    ensures m >= 20
    ensures maxWidth >= 20.0 * CodeCharWidth ==> m as real <= maxWidth / CodeCharWidth < m as real + 1.0
  {
    var q := maxWidth / CodeCharWidth;
    if q < 20.0 then 20 else q.Floor
  }

  /** The pieces one source line is drawn in: `max_chars` characters at a time, the rest last. */
  function Chunks(line: string, m: int): seq<string>
    requires m >= 1
    decreases |line|
  {
    if |line| > m then [line[..m]] + Chunks(line[m..], m) else [line]
  }

  function Concat(xs: seq<string>): string
    decreases |xs|
  {
    if xs == [] then [] else xs[0] + Concat(xs[1..])
  }

  /**
   * A source line is drawn as at least one piece; every piece has at most `max_chars`
   * characters, only the last may be shorter, and the pieces put together give back the line.
   */
  lemma {:induction false} ChunksSpec(line: string, m: int)
    requires m >= 1
    ensures var cs := Chunks(line, m);
      && cs != []
      && Concat(cs) == line
      && (forall i :: 0 <= i < |cs| ==> |cs[i]| <= m)
      && (forall i :: 0 <= i < |cs| - 1 ==> |cs[i]| == m)
      && (line != [] ==> forall i :: 0 <= i < |cs| ==> cs[i] != [])
    decreases |line|
  {
    if |line| > m {
      ChunksSpec(line[m..], m);
      var cs := Chunks(line, m);
      assert cs[1..] == Chunks(line[m..], m);
      assert line[..m] + line[m..] == line;
    }
  }

  /** All pieces of all lines, in order. */
  function CodeRows(lines: seq<string>, m: int): seq<string>
    requires m >= 1
    decreases |lines|
  {
    if lines == [] then [] else Chunks(lines[0], m) + CodeRows(lines[1..], m)
  }

  lemma {:induction false} CodeRowsAppend(lines: seq<string>, l: string, m: int)
    requires m >= 1
    ensures CodeRows(lines + [l], m) == CodeRows(lines, m) + Chunks(l, m)
    decreases |lines|
  {
    if lines == [] {
      assert lines + [l] == [l];
    } else {
      assert (lines + [l])[1..] == lines[1..] + [l];
      CodeRowsAppend(lines[1..], l, m);
    }
  }

  /** The code text `draw_code_block` lays out: the block without leading and trailing newlines, by line. */
  function CodeLines(code: string): seq<string> {
    SplitLines(StripNewlines(code))
  }

  /**
   * The inner loop of `draw_code_block` for one source line: draws its pieces one row each,
   * continuing the rows `drawn` from `y0` down after `before`.
   */
  method DrawLine(c: Canvas, x: real, y0: real, y: real, line: string, maxChars: int,
                  ghost before: seq<Op>, ghost drawn: seq<string>)
    returns (y': real)
    requires maxChars >= 1 && c.font == Code
    requires c.ops == before + Rows(drawn, x, y0, CodeLeading, Code)
    requires y == y0 - CodeLeading * (|drawn| as real)
    modifies c
    ensures c.font == Code
    ensures c.ops == before + Rows(drawn + Chunks(line, maxChars), x, y0, CodeLeading, Code)
    ensures y' == y0 - CodeLeading * (|drawn + Chunks(line, maxChars)| as real)
  {
    var rest := line;
    ghost var done := drawn;
    y' := y;
    while |rest| > maxChars
      invariant c.font == Code
      invariant done + Chunks(rest, maxChars) == drawn + Chunks(line, maxChars)
      invariant c.ops == before + Rows(done, x, y0, CodeLeading, Code)
      invariant y' == y0 - CodeLeading * (|done| as real)
      decreases |rest|
    {
      var piece := rest[..maxChars];
      assert Chunks(rest, maxChars) == [piece] + Chunks(rest[maxChars..], maxChars);
      y' := DrawRow(c, x, y0, y', CodeLeading, piece, before, done);
      done := done + [piece];
      rest := rest[maxChars..];
    }
    y' := DrawRow(c, x, y0, y', CodeLeading, rest, before, done);
  }

  /**
   * `draw_code_block`: code that is empty once newlines are stripped draws nothing and leaves
   * y and the font alone; otherwise every line is drawn in Courier 9 as its pieces, each 12
   * points below the last, and y ends 12 points below the last piece.
   */
  method DrawCodeBlock(c: Canvas, x: real, y: real, code: string, maxWidth: real) returns (y': real)
    modifies c
    ensures StripNewlines(code) == [] ==> c.ops == old(c.ops) && c.font == old(c.font) && y' == y
    ensures StripNewlines(code) != [] ==> c.font == Code
    ensures c.ops == old(c.ops) + Rows(CodeRows(CodeLines(code), MaxChars(maxWidth)), x, y, CodeLeading, Code)
    ensures y' == y - CodeLeading * (|CodeRows(CodeLines(code), MaxChars(maxWidth))| as real)
  {
    var stripped := StripNewlines(code);
    if stripped == "" {
      assert CodeLines(code) == [];
      return y;
    }
    c.SetFont(Code);
    var maxChars := MaxChars(maxWidth);
    var lines := SplitLines(stripped);
    y' := y;
    ghost var drawn: seq<string> := [];
    for i := 0 to |lines|
      invariant c.font == Code
      invariant drawn == CodeRows(lines[..i], maxChars)
      invariant c.ops == old(c.ops) + Rows(drawn, x, y, CodeLeading, Code)
      invariant y' == y - CodeLeading * (|drawn| as real)
    {
      assert lines[..i + 1] == lines[..i] + [lines[i]];
      CodeRowsAppend(lines[..i], lines[i], maxChars);
      y' := DrawLine(c, x, y, y', lines[i], maxChars, old(c.ops), drawn);
      drawn := drawn + Chunks(lines[i], maxChars);
    }
    assert lines[..|lines|] == lines;
  }

  /** The layout facts of a code block: at least 20 characters per piece, and each line's pieces rebuild it. */
  lemma CodeBlockSpec(code: string, maxWidth: real)
    ensures MaxChars(maxWidth) >= 20
    ensures forall l :: l in CodeLines(code) ==>
      Concat(Chunks(l, MaxChars(maxWidth))) == l && forall p :: p in Chunks(l, MaxChars(maxWidth)) ==> |p| <= MaxChars(maxWidth)
  {
    var m := MaxChars(maxWidth);
    forall l | l in CodeLines(code)
      ensures Concat(Chunks(l, m)) == l && forall p :: p in Chunks(l, m) ==> |p| <= m
    {
      ChunksSpec(l, m);
    }
  }
}
