/**
 * `generate_pdf`: the study-notes document laid out on US-letter pages. The document is
 * first described as values (a `Sheet` is the canvas trace, the current font and the
 * cursor), section by section; `GeneratePdf` then draws it on a `Canvas` and is proved to
 * produce exactly that trace.
 */
module Pdf {
  import opened Wrappers
  import opened PyText
  import opened Json
  import opened Oracles
  import opened Layout
  import opened Verify

  /** Three quarters of an inch. */
  const Margin: real := 54.0
  /** The width of a letter page. */
  const PageWidth: real := 612.0
  /** The first baseline of a page: the page height (792) less the margin. */
  const Top: real := 738.0
  /** The text width: the page width less both margins. */
  const MaxW: real := 504.0
  /** 3.9 inches: the tallest a screenshot is drawn. */
  const MaxImgH: real := 280.8

  const MaxOverview: nat := 10
  const MaxConceptCards: nat := 10
  const MaxExamples: nat := 4
  /** pdfmaker_ibm.py draws at most this many characters of a code line. */
  const MaxCodeLine: nat := 140

  const TitleFont := Font("Helvetica-Bold", 18.0)
  const SectionFont := Font("Helvetica-Bold", 13.0)
  const PartFont := Font("Helvetica-Bold", 14.0)
  const ItemFont := Font("Helvetica-Bold", 12.0)
  const WhyFont := Font("Helvetica-Oblique", 11.0)

  /** The heading of the screenshot section. */
  const VisualsTitle: string := "Important Visuals (Verified)"

  /** The room a screenshot needs below the cursor before it is started on the current page. */
  const ShotRoom: real := Margin + MaxImgH + 150.0

  /** The canvas as values: what was drawn, the current font, and the cursor `y`. */
  datatype Sheet = Sheet(ops: seq<Op>, font: Font, y: real)

  // ---------------------------------------------------------------------------
  // Page invariant
  // ---------------------------------------------------------------------------

  /** A picture lies inside the margins, no taller than `MaxImgH`. */
  predicate InBox(op: Op)
    requires op.Picture?
  {
    && op.x == Margin && 0.0 < op.w && op.x + op.w <= PageWidth - Margin
    && Margin <= op.y && 0.0 < op.h <= MaxImgH && op.y + op.h <= Top
  }

  ghost predicate Placed(ops: seq<Op>) {
    forall i :: 0 <= i < |ops| && ops[i].Picture? ==> InBox(ops[i])
  }

  /** The cursor is on the page and every picture drawn so far lies inside the margins. */
  ghost predicate Sound(s: Sheet) {
    s.y <= Top && Placed(s.ops)
  }

  /** `b` is `a` with more operations drawn after it. */
  predicate Grows(a: seq<Op>, b: seq<Op>) {
    |a| <= |b| && b[..|a|] == a
  }

  lemma GrowsTrans(a: seq<Op>, b: seq<Op>, c: seq<Op>)
    requires Grows(a, b) && Grows(b, c)
    ensures Grows(a, c)
  {
    assert c[..|a|] == c[..|b|][..|a|];
  }

  /** Drawing anything but pictures keeps every picture where it was. */
  lemma PlacedText(ops: seq<Op>, more: seq<Op>)
    requires forall i :: 0 <= i < |more| ==> !more[i].Picture?
    ensures Placed(ops) ==> Placed(ops + more)
  {
    if Placed(ops) {
      forall i | 0 <= i < |ops + more| && (ops + more)[i].Picture?
        ensures InBox((ops + more)[i])
      {
        if i < |ops| {
          assert (ops + more)[i] == ops[i];
        }
      }
    }
  }

  // ---------------------------------------------------------------------------
  // Canvas steps as values
  // ---------------------------------------------------------------------------

  /** `setFont(f)`, `drawString(x, y, text)`, `y -= drop`. */
  function Put(s: Sheet, f: Font, text: string, drop: real): (r: Sheet)
    requires drop >= 0.0
    ensures Grows(s.ops, r.ops) && r.font == f && r.y <= s.y
    ensures Placed(s.ops) ==> Placed(r.ops)
  {
    PlacedText(s.ops, [Text(text, Margin, s.y, f)]);
    Sheet(s.ops + [Text(text, Margin, s.y, f)], f, s.y - drop)
  }

  function Down(s: Sheet, d: real): Sheet {
    s.(y := s.y - d)
  }

  /** `new_page()`: `showPage` and the cursor back to the top. */
  function Break(s: Sheet): (r: Sheet)
    ensures Grows(s.ops, r.ops) && r.y == Top
    ensures Placed(s.ops) ==> Placed(r.ops)
  {
    PlacedText(s.ops, [NewPage]);
    Sheet(s.ops + [NewPage], InitialFont, Top)
  }

  /** `if y < limit: new_page()`. */
  function BreakBelow(s: Sheet, limit: real): (r: Sheet)
    ensures r == s || r == Break(s)
    ensures limit <= Top ==> r.y >= limit
  {
    if s.y < limit then Break(s) else s
  }

  /** `draw_wrapped(c, x, y, text, max_w, font)` at the left margin. */
  function Wrapped(s: Sheet, text: string, font: Font, w: World): (r: Sheet)
    ensures Grows(s.ops, r.ops) && r.font == font && r.y <= s.y
    ensures Placed(s.ops) ==> Placed(r.ops)
  {
    var lines := Wrap(text, MaxW, font, w.stringWidth);
    var rows := Rows(lines, Margin, s.y, WrapLeading, font);
    RowsText(lines, Margin, s.y, WrapLeading, font);
    PlacedText(s.ops, rows);
    Sheet(s.ops + rows, font, s.y - WrapLeading * (|lines| as real))
  }

  /** The list `.get(key, [])[:n]` iterates over: a list's first `n` items, a string's first `n` characters. */
  function SliceItems(v: Value, n: nat): (r: Result<seq<Value>, Failure>)
    ensures r.Ok? <==> v.Arr? || v.Str?
    ensures r.Ok? ==> |r.value| <= n
    ensures v.Arr? ==> r.Ok? && r.value <= v.items && (|r.value| == n || r.value == v.items)
    ensures v.Str? ==> r.Ok? && |r.value| == if |v.s| < n then |v.s| else n
    ensures v.Str? ==> forall i :: 0 <= i < |r.value| ==> r.value[i] == Str([v.s[i]])
  {
    match v
    case Arr(xs) => Ok(if |xs| <= n then xs else xs[..n])
    case Str(s) =>
      var k := if |s| <= n then |s| else n;
      Ok(seq(k, i requires 0 <= i < k => Str([s[i]])))
    case _ => Err(NotSliceable)
  }

  // ---------------------------------------------------------------------------
  // Overview
  // ---------------------------------------------------------------------------

  /** One wrapped bullet per item, each started on a new page when fewer than 80 points are left. */
  function Bullets(s: Sheet, items: seq<Value>, w: World): (r: Sheet)
    ensures Grows(s.ops, r.ops)
    ensures Sound(s) ==> Sound(r)
    decreases |items|
  {
    if items == [] then s
    else
      var s1 := BreakBelow(s, Margin + 80.0);
      var s2 := Wrapped(s1, "• " + PyStr(items[0], w.repr), Body, w);
      var r := Bullets(s2, items[1..], w);
      GrowsTrans(s.ops, s1.ops, s2.ops);
      GrowsTrans(s.ops, s2.ops, r.ops);
      r
  }

  // ---------------------------------------------------------------------------
  // Concept cards
  // ---------------------------------------------------------------------------

  /** `str(item.get(key, default)).strip()` for an item that is a dict. */
  function Field(item: Value, key: string, default: string, w: World): string
    requires item.Obj?
  {
    Strip(PyStr(Get(item.fields, key, Str(default)), w.repr))
  }

  /** Every item is a dict (`.get` works on each). */
  predicate AllDicts(items: seq<Value>)
    decreases |items|
  {
    items == [] || (items[0].Obj? && AllDicts(items[1..]))
  }

  /**
   * One concept card: a new page when fewer than 120 points are left, the term in bold, the
   * wrapped explanation, and "Why it matters" in oblique when there is one. A card that is
   * not a dict has no `.get` and aborts the run.
   */
  function Card(s: Sheet, card: Value, w: World): (r: Result<Sheet, Failure>)
    ensures r.Err? <==> !card.Obj?
    ensures r.Err? ==> r.error == NotADict
    ensures r.Ok? ==> Grows(s.ops, r.value.ops) && (Sound(s) ==> Sound(r.value))
  {
    if !card.Obj? then Err(NotADict)
    else Ok(CardText(s, Field(card, "term", "", w), Field(card, "explanation", "", w), Field(card, "why_it_matters", "", w), w))
  }

  /** A concept card once its three fields have been read. */
  function CardText(s: Sheet, term: string, expl: string, why: string, w: World): (r: Sheet)
    ensures Grows(s.ops, r.ops) && (Sound(s) ==> Sound(r))
  {
    var s1 := BreakBelow(s, Margin + 120.0);
    var s2 := Put(s1, ItemFont, term, 14.0);
    var s3 := Wrapped(s2, expl, Body, w);
    var s4 := if why != [] then Wrapped(s3, "Why it matters: " + why, WhyFont, w) else s3;
    GrowsTrans(s.ops, s1.ops, s2.ops);
    GrowsTrans(s.ops, s2.ops, s3.ops);
    GrowsTrans(s.ops, s3.ops, s4.ops);
    Down(s4, 6.0)
  }

  function CardsFrom(s: Sheet, cards: seq<Value>, w: World): (r: Result<Sheet, Failure>)
    ensures r.Ok? <==> AllDicts(cards)
    ensures r.Err? ==> r.error == NotADict
    ensures r.Ok? ==> Grows(s.ops, r.value.ops) && (Sound(s) ==> Sound(r.value))
    decreases |cards|
  {
    if cards == [] then Ok(s)
    else if !cards[0].Obj? then Err(NotADict)
    else
      var s1 := Card(s, cards[0], w).value;
      var r := CardsFrom(s1, cards[1..], w);
      if r.Ok? then GrowsTrans(s.ops, s1.ops, r.value.ops); r else r
  }

  /** The "Core Concepts" section, drawn only when there are cards. */
  function Concepts(s: Sheet, cards: seq<Value>, w: World): (r: Result<Sheet, Failure>)
    ensures r.Ok? <==> AllDicts(cards)
    ensures r.Err? ==> r.error == NotADict
    ensures r.Ok? ==> Grows(s.ops, r.value.ops) && (Sound(s) ==> Sound(r.value))
  {
    if cards == [] then Ok(s)
    else
      var s0 := BreakBelow(s, Margin + 140.0);
      var s1 := Put(s0, SectionFont, "Core Concepts", 18.0);
      GrowsTrans(s.ops, s0.ops, s1.ops);
      var r := CardsFrom(s1, cards, w);
      if r.Ok? then GrowsTrans(s.ops, s1.ops, r.value.ops); r else r
  }

  // ---------------------------------------------------------------------------
  // Examples
  // ---------------------------------------------------------------------------

  /** `line[:n]`. */
  function Prefix(line: string, n: nat): (r: string)
    ensures |r| <= n && r <= line
    ensures |line| <= n ==> r == line
  {
    if |line| <= n then line else line[..n]
  }

  /** pdfmaker.py's code block: `draw_code_block` at the left margin, the full text width wide. */
  function CodeBlock(s: Sheet, code: string): (r: Sheet)
    ensures Grows(s.ops, r.ops) && r.y <= s.y
    ensures Placed(s.ops) ==> Placed(r.ops)
  {
    if StripNewlines(code) == [] then s
    else
      var rows := CodeRows(CodeLines(code), MaxChars(MaxW));
      RowsText(rows, Margin, s.y, CodeLeading, Code);
      PlacedText(s.ops, Rows(rows, Margin, s.y, CodeLeading, Code));
      Sheet(s.ops + Rows(rows, Margin, s.y, CodeLeading, Code), Code, s.y - CodeLeading * (|rows| as real))
  }

  /**
   * pdfmaker_ibm.py's code listing: one row per source line, cut to 140 characters, 12 points
   * apart; a line that would start below `margin + 60` goes to a new page, where Courier is
   * set again. Every row starts at or above `margin + 60`.
   */
  function Listing(s: Sheet, lines: seq<string>): (r: Sheet)
    ensures Grows(s.ops, r.ops)
    ensures Sound(s) ==> Sound(r)
    ensures s.font == Code ==> r.font == Code
    ensures forall i :: |s.ops| <= i < |r.ops| && r.ops[i].Text? ==>
      r.ops[i].y >= Margin + 60.0 && |r.ops[i].s| <= MaxCodeLine && (s.font == Code ==> r.ops[i].font == Code)
    decreases |lines|
  {
    if lines == [] then s
    else
      var s1 := if s.y < Margin + 60.0 then Break(s).(font := Code) else s;
      var s2 := Sheet(s1.ops + [Text(Prefix(lines[0], MaxCodeLine), Margin, s1.y, s1.font)], s1.font, s1.y - CodeLeading);
      PlacedText(s1.ops, [Text(Prefix(lines[0], MaxCodeLine), Margin, s1.y, s1.font)]);
      var r := Listing(s2, lines[1..]);
      assert Grows(s.ops, s1.ops) && Grows(s1.ops, s2.ops);
      GrowsTrans(s.ops, s1.ops, s2.ops);
      GrowsTrans(s.ops, s2.ops, r.ops);
      assert forall i :: |s.ops| <= i < |s2.ops| ==> r.ops[i] == s2.ops[i];
      r
  }

  /** An example's SQL below its explanation, as each variant draws it. */
  function Sql(v: Variant, s: Sheet, sql: string): (r: Sheet)
    ensures Grows(s.ops, r.ops) && (Sound(s) ==> Sound(r))
  {
    if v == OpenAi then CodeBlock(Down(s, 4.0), sql) else Listing(Sheet(s.ops, Code, s.y - 10.0), SplitLines(sql))
  }

  /** The extra room an example needs before it is started on the current page. */
  function ExampleRoom(v: Variant): real {
    match v
    case OpenAi => 180.0
    case Watsonx => 160.0
  }

  /**
   * One example: the title in bold (default "Example"), the wrapped explanation, then the SQL:
   * as a hard-wrapped code block in pdfmaker.py, as a listing of truncated lines in
   * pdfmaker_ibm.py. An example that is not a dict aborts the run.
   */
  function Example(v: Variant, s: Sheet, ex: Value, w: World): (r: Result<Sheet, Failure>)
    ensures r.Err? <==> !ex.Obj?
    ensures r.Err? ==> r.error == NotADict
    ensures r.Ok? ==> Grows(s.ops, r.value.ops) && (Sound(s) ==> Sound(r.value))
  {
    if !ex.Obj? then Err(NotADict)
    else Ok(ExampleText(v, s, Field(ex, "title", "Example", w), Field(ex, "sql", "", w), Field(ex, "explanation", "", w), w))
  }

  /** An example once its three fields have been read. */
  function ExampleText(v: Variant, s: Sheet, title: string, sql: string, expl: string, w: World): (r: Sheet)
    ensures Grows(s.ops, r.ops) && (Sound(s) ==> Sound(r))
  {
    var s1 := BreakBelow(s, Margin + ExampleRoom(v));
    var s2 := Put(s1, ItemFont, title, 14.0);
    var s3 := Wrapped(s2, expl, Body, w);
    var s4 := Sql(v, s3, sql);
    GrowsTrans(s.ops, s1.ops, s2.ops);
    GrowsTrans(s.ops, s2.ops, s3.ops);
    GrowsTrans(s.ops, s3.ops, s4.ops);
    Down(s4, 10.0)
  }

  function ExamplesFrom(v: Variant, s: Sheet, exs: seq<Value>, w: World): (r: Result<Sheet, Failure>)
    ensures r.Ok? <==> AllDicts(exs)
    ensures r.Err? ==> r.error == NotADict
    ensures r.Ok? ==> Grows(s.ops, r.value.ops) && (Sound(s) ==> Sound(r.value))
    decreases |exs|
  {
    if exs == [] then Ok(s)
    else
      var s1 := Example(v, s, exs[0], w);
      if s1.Err? then s1
      else
        var r := ExamplesFrom(v, s1.value, exs[1..], w);
        if r.Ok? then GrowsTrans(s.ops, s1.value.ops, r.value.ops); r else r
  }

  /** The "Examples" section, always on a new page, drawn only when there are examples. */
  function Examples(v: Variant, s: Sheet, exs: seq<Value>, w: World): (r: Result<Sheet, Failure>)
    ensures r.Ok? <==> AllDicts(exs)
    ensures r.Err? ==> r.error == NotADict
    ensures r.Ok? ==> Grows(s.ops, r.value.ops) && (Sound(s) ==> Sound(r.value))
  {
    if exs == [] then Ok(s)
    else
      var s0 := Break(s);
      var s1 := Put(s0, PartFont, "Examples", 20.0);
      GrowsTrans(s.ops, s0.ops, s1.ops);
      var r := ExamplesFrom(v, s1, exs, w);
      if r.Ok? then GrowsTrans(s.ops, s1.ops, r.value.ops); r else r
  }

  // ---------------------------------------------------------------------------
  // Screenshots
  // ---------------------------------------------------------------------------

  function Min(a: real, b: real): real {
    if a <= b then a else b
  }

  /** The drawn size of an image: scaled by `min(max_w / iw, max_img_h / ih)`. */
  function Fit(size: Size): (real, real) {
    var iw := size.w as real;
    var ih := size.h as real;
    var scale := Min(MaxW / iw, MaxImgH / ih);
    (iw * scale, ih * scale)
  }

  /**
   * The scaled image fits the text width and the 3.9-inch height, keeps the aspect ratio,
   * and is as large as that allows: it spans the full width or the full height.
   */
  lemma FitInBox(size: Size)
    ensures var (dw, dh) := Fit(size);
      && 0.0 < dw <= MaxW && 0.0 < dh <= MaxImgH
      && dw * (size.h as real) == dh * (size.w as real)
      && (dw == MaxW || dh == MaxImgH)
  {
    var iw := size.w as real;
    var ih := size.h as real;
    var a := MaxW / iw;
    var b := MaxImgH / ih;
    assert iw * a == MaxW && ih * b == MaxImgH;
    if a <= b {
      assert ih * a <= ih * b by {
        assert ih * (b - a) >= 0.0;
      }
    } else {
      assert iw * b <= iw * a by {
        assert iw * (a - b) >= 0.0;
      }
    }
  }

  /** `f"{idx}. {title} ({time})"`. */
  function VisualHeading(k: nat, shot: Visual, w: World): string {
    Digits(k) + ". " + PyStr(shot.title, w.repr) + " (" + shot.time + ")"
  }

  /** The line pdfmaker.py draws in place of an image PIL cannot open. */
  function Placeholder(name: string): string {
    "[Could not render image: " + name + "]"
  }

  /** Whether a screenshot's image can be drawn by the variant: pdfmaker.py copes with any. */
  predicate ImageOk(v: Variant, w: World, name: string) {
    v == OpenAi || w.openImage(name).Some?
  }

  /**
   * The image of one screenshot: drawn below the cursor at its fitted size, then 10 points
   * of space. An image PIL cannot open is replaced by a one-line notice in pdfmaker.py and
   * aborts the run in pdfmaker_ibm.py.
   */
  function ImageStep(v: Variant, w: World, s: Sheet, name: string): (r: Result<Sheet, Failure>)
    ensures r.Ok? <==> ImageOk(v, w, name)
    ensures r.Err? ==> r.error == ImageUnreadable(name)
    ensures r.Ok? ==> Grows(s.ops, r.value.ops)
    ensures r.Ok? && Sound(s) && s.y >= Margin + MaxImgH ==> Sound(r.value)
    ensures w.openImage(name).Some? ==>
      var (dw, dh) := Fit(w.openImage(name).value);
      r == Ok(Sheet(s.ops + [Picture(name, Margin, s.y - dh, dw, dh)], s.font, s.y - dh - 10.0))
    ensures r.Ok? && w.openImage(name).None? ==>
      r.value.ops == s.ops + [Text(Placeholder(name), Margin, s.y, Body)] && r.value.y == s.y - 14.0
  {
    match w.openImage(name)
    case Some(size) =>
      var dw := Fit(size).0;
      var dh := Fit(size).1;
      var pic := Picture(name, Margin, s.y - dh, dw, dh);
      FitInBox(size);
      assert Sound(s) && s.y >= Margin + MaxImgH ==> Placed(s.ops + [pic]) by {
        if Sound(s) && s.y >= Margin + MaxImgH {
          forall i | 0 <= i < |s.ops + [pic]| && (s.ops + [pic])[i].Picture?
            ensures InBox((s.ops + [pic])[i])
          {
            if i < |s.ops| {
              assert (s.ops + [pic])[i] == s.ops[i];
            }
          }
        }
      }
      Ok(Sheet(s.ops + [pic], s.font, s.y - dh - 10.0))
    case None =>
      if v == OpenAi then Ok(Put(s, Body, Placeholder(name), 14.0)) else Err(ImageUnreadable(name))
  }

  /**
   * A caption or explanation as the variant reads it: pdfmaker.py calls `.strip()` on it,
   * which only a string has; pdfmaker_ibm.py first turns a falsy value into "".
   */
  function ShotText(v: Variant, x: Value): (r: Result<string, Failure>)
    ensures r.Err? <==> !x.Str? && (v == OpenAi || Truthy(x))
    ensures r.Err? ==> r.error == NotAString
    ensures x.Str? ==> r == Ok(Strip(x.s))
  {
    if x.Str? then Ok(Strip(x.s))
    else if v == Watsonx && !Truthy(x) then Ok("")
    else
      assert v == OpenAi || Truthy(x) by {
        if v != OpenAi { assert v == Watsonx; }
      }
      Err(NotAString)
  }

  /** The wrapped caption and explanation, each only when not empty, then 10 points of space. */
  function ShotNotes(s: Sheet, cap: string, expl: string, w: World): (r: Sheet)
    ensures Grows(s.ops, r.ops) && (Sound(s) ==> Sound(r))
  {
    var s1 := if cap != [] then Wrapped(s, "Caption: " + cap, Body, w) else s;
    var s2 := if expl != [] then Wrapped(s1, "Explanation: " + expl, Body, w) else s1;
    GrowsTrans(s.ops, s1.ops, s2.ops);
    Down(s2, 10.0)
  }

  /** Whether the variant can draw a screenshot to the end. */
  predicate ShotOk(v: Variant, w: World, shot: Visual) {
    ImageOk(v, w, shot.image) && ShotText(v, shot.caption).Ok? && ShotText(v, shot.explain).Ok?
  }

  predicate AllShotsOk(v: Variant, w: World, shots: seq<Visual>)
    decreases |shots|
  {
    shots == [] || (ShotOk(v, w, shots[0]) && AllShotsOk(v, w, shots[1..]))
  }

  /**
   * Screenshot `k`: a new page unless 3.9 inches plus 150 points are left, the numbered
   * heading, the image, and its texts.
   */
  function Shot(v: Variant, w: World, s: Sheet, k: nat, shot: Visual): (r: Result<Sheet, Failure>)
    ensures r.Ok? <==> ShotOk(v, w, shot)
    ensures r.Err? ==> r.error == NotAString || r.error == ImageUnreadable(shot.image)
    ensures v == OpenAi && r.Err? ==> r.error == NotAString
    ensures r.Ok? ==> Grows(s.ops, r.value.ops) && (Sound(s) ==> Sound(r.value))
  {
    var s1 := BreakBelow(s, ShotRoom);
    var s2 := Put(s1, ItemFont, VisualHeading(k, shot, w), 14.0);
    GrowsTrans(s.ops, s1.ops, s2.ops);
    var s3 := ImageStep(v, w, s2, shot.image);
    if s3.Err? then Err(s3.error)
    else
      var cap := ShotText(v, shot.caption);
      var expl := ShotText(v, shot.explain);
      if cap.Err? then Err(cap.error)
      else if expl.Err? then Err(expl.error)
      else
        var r := ShotNotes(s3.value, cap.value, expl.value, w);
        GrowsTrans(s.ops, s2.ops, s3.value.ops);
        GrowsTrans(s.ops, s3.value.ops, r.ops);
        Ok(r)
  }

  /** The screenshots from number `k` on. */
  function ShotsFrom(v: Variant, w: World, s: Sheet, shots: seq<Visual>, k: nat): (r: Result<Sheet, Failure>)
    ensures r.Ok? <==> AllShotsOk(v, w, shots)
    ensures r.Err? ==> r.error == NotAString || r.error.ImageUnreadable?
    ensures v == OpenAi && r.Err? ==> r.error == NotAString
    ensures r.Ok? ==> Grows(s.ops, r.value.ops) && (Sound(s) ==> Sound(r.value))
    decreases |shots|
  {
    if shots == [] then Ok(s)
    else
      var s1 := Shot(v, w, s, k, shots[0]);
      if s1.Err? then Err(s1.error)
      else
        var r := ShotsFrom(v, w, s1.value, shots[1..], k + 1);
        if r.Ok? then GrowsTrans(s.ops, s1.value.ops, r.value.ops); r else r
  }

  /** The "Important Visuals (Verified)" section, on a new page, drawn only when there are screenshots. */
  function Shots(v: Variant, w: World, s: Sheet, shots: seq<Visual>): (r: Result<Sheet, Failure>)
    ensures r.Ok? <==> AllShotsOk(v, w, shots)
    ensures r.Err? ==> r.error == NotAString || r.error.ImageUnreadable?
    ensures v == OpenAi && r.Err? ==> r.error == NotAString
    ensures r.Ok? ==> Grows(s.ops, r.value.ops) && (Sound(s) ==> Sound(r.value))
  {
    if shots == [] then Ok(s)
    else
      var s0 := Break(s);
      var s1 := Put(s0, PartFont, VisualsTitle, 20.0);
      GrowsTrans(s.ops, s0.ops, s1.ops);
      var r := ShotsFrom(v, w, s1, shots, 1);
      if r.Ok? then GrowsTrans(s.ops, s1.ops, r.value.ops); r else r
  }

  // ---------------------------------------------------------------------------
  // The whole document
  // ---------------------------------------------------------------------------

  /** The first page's title and "Overview" heading, each a line of its own. */
  function Front(notes: seq<(string, Value)>, w: World): (r: Sheet)
    ensures Sound(r)
    ensures r.ops == [Text(PyStr(Get(notes, "title", Str("Video Notes")), w.repr), Margin, Top, TitleFont),
                      Text("Overview", Margin, Top - 26.0, SectionFont)]
    ensures r.font == SectionFont && r.y == Top - 44.0
  {
    var s0 := Sheet([], InitialFont, Top);
    var s1 := Put(s0, TitleFont, PyStr(Get(notes, "title", Str("Video Notes")), w.repr), 26.0);
    Put(s1, SectionFont, "Overview", 18.0)
  }

  /** The title, then the overview: at most 10 wrapped bullets and 8 points of space. */
  function Opening(notes: seq<(string, Value)>, w: World): (r: Result<Sheet, Failure>)
    ensures r.Ok? ==> Sound(r.value)
    ensures r.Err? ==> r.error == NotSliceable
  {
    var overview := SliceItems(Get(notes, "overview", Arr([])), MaxOverview);
    if overview.Err? then Err(overview.error)
    else Ok(Down(Bullets(Front(notes, w), overview.value, w), 8.0))
  }

  /** The concept cards (at most 10) and the examples (at most 4). */
  function Middle(v: Variant, s: Sheet, notes: seq<(string, Value)>, w: World): (r: Result<Sheet, Failure>)
    ensures r.Ok? ==> Grows(s.ops, r.value.ops) && (Sound(s) ==> Sound(r.value))
    ensures r.Err? ==> r.error == NotSliceable || r.error == NotADict
  {
    var cards := SliceItems(Get(notes, "concept_cards", Arr([])), MaxConceptCards);
    if cards.Err? then Err(cards.error)
    else
      var s1 := Concepts(s, cards.value, w);
      if s1.Err? then s1
      else
        var examples := SliceItems(Get(notes, "examples", Arr([])), MaxExamples);
        if examples.Err? then Err(examples.error)
        else
          var r := Examples(v, s1.value, examples.value, w);
          if r.Ok? then GrowsTrans(s.ops, s1.value.ops, r.value.ops); r else r
  }

  /**
   * What `generate_pdf` draws for the notes and screenshots, or the exception that aborts it:
   * the title and overview, the concept cards, the examples, then the screenshots in the
   * order given. Every picture lies inside the margins; pdfmaker.py never fails on an image,
   * pdfmaker_ibm.py only finishes when every image opens.
   */
  function Document(v: Variant, w: World, notes: seq<(string, Value)>, shots: seq<Visual>): (r: Result<seq<Op>, Failure>)
    ensures r.Ok? ==> Placed(r.value)
    ensures v == OpenAi && r.Err? ==> !r.error.ImageUnreadable?
    ensures v == Watsonx && r.Ok? ==> forall i :: 0 <= i < |shots| ==> w.openImage(shots[i].image).Some?
  {
    var s1 := Opening(notes, w);
    if s1.Err? then Err(s1.error)
    else
      var s2 := Middle(v, s1.value, notes, w);
      if s2.Err? then Err(s2.error)
      else
        var s3 := Shots(v, w, s2.value, shots);
        if s3.Err? then Err(s3.error)
        else
          WatsonxImagesOpen(w, shots);
          Ok(s3.value.ops)
  }

  /** In pdfmaker_ibm.py every screenshot that gets drawn had an image PIL could open. */
  lemma {:induction false} WatsonxImagesOpen(w: World, shots: seq<Visual>)
    ensures AllShotsOk(Watsonx, w, shots) ==> forall i :: 0 <= i < |shots| ==> w.openImage(shots[i].image).Some?
    decreases |shots|
  {
    if shots != [] && AllShotsOk(Watsonx, w, shots) {
      WatsonxImagesOpen(w, shots[1..]);
      assert forall i :: 0 < i < |shots| ==> shots[i] == shots[1..][i - 1];
    }
  }

  // ---------------------------------------------------------------------------
  // What the screenshot section shows, in order
  // ---------------------------------------------------------------------------

  /** The strings drawn in font `f`, in drawing order. */
  function TextsIn(ops: seq<Op>, f: Font): seq<string>
    decreases |ops|
  {
    if ops == [] then []
    else (if ops[0].Text? && ops[0].font == f then [ops[0].s] else []) + TextsIn(ops[1..], f)
  }

  /** The images drawn, in drawing order. */
  function PictureNames(ops: seq<Op>): seq<string>
    decreases |ops|
  {
    if ops == [] then []
    else (if ops[0].Picture? then [ops[0].name] else []) + PictureNames(ops[1..])
  }

  /** Operations that are neither pictures nor text in font `f`. */
  predicate Plain(ops: seq<Op>, f: Font) {
    forall i :: 0 <= i < |ops| ==> !ops[i].Picture? && (ops[i].Text? ==> ops[i].font != f)
  }

  lemma {:induction false} OpsConcat(a: seq<Op>, b: seq<Op>, f: Font)
    ensures TextsIn(a + b, f) == TextsIn(a, f) + TextsIn(b, f)
    ensures PictureNames(a + b) == PictureNames(a) + PictureNames(b)
    decreases |a|
  {
    if a != [] {
      assert (a + b)[1..] == a[1..] + b;
      OpsConcat(a[1..], b, f);
    } else {
      assert a + b == b;
    }
  }

  lemma {:induction false} PlainOps(ops: seq<Op>, f: Font)
    requires Plain(ops, f)
    ensures TextsIn(ops, f) == [] && PictureNames(ops) == []
    decreases |ops|
  {
    if ops != [] {
      PlainOps(ops[1..], f);
    }
  }

  /** The operations drawn between two states of the canvas. */
  function Added(a: seq<Op>, b: seq<Op>): seq<Op>
    requires Grows(a, b)
  {
    b[|a|..]
  }

  lemma AddedConcat(a: seq<Op>, b: seq<Op>, c: seq<Op>)
    requires Grows(a, b) && Grows(b, c)
    ensures Grows(a, c) && Added(a, c) == Added(a, b) + Added(b, c)
  {
    GrowsTrans(a, b, c);
    assert c == b + c[|b|..];
    assert b == a + b[|a|..];
  }

  /** Operations that add no text in `ItemFont` and no picture do not change what a section shows. */
  lemma PlainHead(a: seq<Op>, head: seq<Op>, b: seq<Op>)
    requires Grows(a + head, b) && Plain(head, ItemFont)
    ensures Grows(a, b)
    ensures TextsIn(Added(a, b), ItemFont) == TextsIn(Added(a + head, b), ItemFont)
    ensures PictureNames(Added(a, b)) == PictureNames(Added(a + head, b))
  {
    assert Grows(a, a + head);
    AddedConcat(a, a + head, b);
    assert Added(a, a + head) == head;
    PlainOps(head, ItemFont);
    OpsConcat(head, Added(a + head, b), ItemFont);
  }

  lemma PlainConcat(a: seq<Op>, b: seq<Op>, f: Font)
    requires Plain(a, f) && Plain(b, f)
    ensures Plain(a + b, f)
  {
    forall i | 0 <= i < |a + b|
      ensures !(a + b)[i].Picture? && ((a + b)[i].Text? ==> (a + b)[i].font != f)
    {
      if i < |a| {
        assert (a + b)[i] == a[i];
      } else {
        assert (a + b)[i] == b[i - |a|];
      }
    }
  }

  /** Wrapped text in another font than `f` adds only plain operations. */
  lemma WrappedPlain(s: Sheet, text: string, font: Font, w: World, f: Font)
    requires font != f
    ensures Plain(Added(s.ops, Wrapped(s, text, font, w).ops), f)
  {
    var rows := Rows(Wrap(text, MaxW, font, w.stringWidth), Margin, s.y, WrapLeading, font);
    RowsText(Wrap(text, MaxW, font, w.stringWidth), Margin, s.y, WrapLeading, font);
    assert Wrapped(s, text, font, w).ops == s.ops + rows;
    assert Added(s.ops, s.ops + rows) == rows;
  }

  /** A caption and an explanation add body text only. */
  lemma NotesPlain(s: Sheet, cap: string, expl: string, w: World)
    ensures Plain(Added(s.ops, ShotNotes(s, cap, expl, w).ops), ItemFont)
  {
    var s1 := if cap != [] then Wrapped(s, "Caption: " + cap, Body, w) else s;
    var s2 := if expl != [] then Wrapped(s1, "Explanation: " + expl, Body, w) else s1;
    assert ShotNotes(s, cap, expl, w).ops == s2.ops;
    if cap != [] {
      WrappedPlain(s, "Caption: " + cap, Body, w, ItemFont);
    } else {
      assert Added(s.ops, s1.ops) == [];
    }
    if expl != [] {
      WrappedPlain(s1, "Explanation: " + expl, Body, w, ItemFont);
    } else {
      assert Added(s1.ops, s2.ops) == [];
    }
    AddedConcat(s.ops, s1.ops, s2.ops);
    PlainConcat(Added(s.ops, s1.ops), Added(s1.ops, s2.ops), ItemFont);
  }

  /** The numbered heading of a screenshot, after a page break if the page is too full. */
  lemma HeadingShows(s: Sheet, k: nat, shot: Visual, w: World)
    ensures var s2 := Put(BreakBelow(s, ShotRoom), ItemFont, VisualHeading(k, shot, w), 14.0);
      && Grows(s.ops, s2.ops)
      && TextsIn(Added(s.ops, s2.ops), ItemFont) == [VisualHeading(k, shot, w)]
      && PictureNames(Added(s.ops, s2.ops)) == []
  {
    var s1 := BreakBelow(s, ShotRoom);
    var s2 := Put(s1, ItemFont, VisualHeading(k, shot, w), 14.0);
    var a1, a2 := Added(s.ops, s1.ops), Added(s1.ops, s2.ops);
    AddedConcat(s.ops, s1.ops, s2.ops);
    assert a1 == [] || a1 == [NewPage];
    PlainOps(a1, ItemFont);
    assert a2 == [Text(VisualHeading(k, shot, w), Margin, s1.y, ItemFont)];
    assert a2[1..] == [];
    OpsConcat(a1, a2, ItemFont);
  }

  /** The image of a screenshot is drawn exactly when PIL can open it; nothing else in `ItemFont`. */
  lemma ImageShows(v: Variant, w: World, s: Sheet, name: string)
    requires ImageStep(v, w, s, name).Ok?
    ensures var t := ImageStep(v, w, s, name).value;
      && TextsIn(Added(s.ops, t.ops), ItemFont) == []
      && PictureNames(Added(s.ops, t.ops)) == if w.openImage(name).Some? then [name] else []
  {
    var a := Added(s.ops, ImageStep(v, w, s, name).value.ops);
    if w.openImage(name).Some? {
      assert a[0].Picture? && a[0].name == name && a[1..] == [];
    } else {
      assert Plain(a, ItemFont);
      PlainOps(a, ItemFont);
    }
  }

  /**
   * One screenshot adds exactly one bold heading, its numbered title, and draws its image
   * exactly when PIL can open it.
   */
  lemma ShotShows(v: Variant, w: World, s: Sheet, k: nat, shot: Visual)
    requires Shot(v, w, s, k, shot).Ok?
    ensures var t := Shot(v, w, s, k, shot).value;
      && TextsIn(Added(s.ops, t.ops), ItemFont) == [VisualHeading(k, shot, w)]
      && PictureNames(Added(s.ops, t.ops)) == if w.openImage(shot.image).Some? then [shot.image] else []
  {
    var t := Shot(v, w, s, k, shot).value;
    var s2 := Put(BreakBelow(s, ShotRoom), ItemFont, VisualHeading(k, shot, w), 14.0);
    var s3 := ImageStep(v, w, s2, shot.image).value;
    var cap := ShotText(v, shot.caption).value;
    var expl := ShotText(v, shot.explain).value;
    assert t == ShotNotes(s3, cap, expl, w);
    HeadingShows(s, k, shot, w);
    ImageShows(v, w, s2, shot.image);
    NotesPlain(s3, cap, expl, w);
    AddedConcat(s.ops, s2.ops, s3.ops);
    AddedConcat(s.ops, s3.ops, t.ops);
    var a2, a3, a4 := Added(s.ops, s2.ops), Added(s2.ops, s3.ops), Added(s3.ops, t.ops);
    PlainOps(a4, ItemFont);
    OpsConcat(a2, a3, ItemFont);
    OpsConcat(a2 + a3, a4, ItemFont);
  }

  /** `f"{idx}. ..."` for the screenshots from number `k` on. */
  function Headings(shots: seq<Visual>, k: nat, w: World): (r: seq<string>)
    ensures |r| == |shots|
    decreases |shots|
  {
    if shots == [] then [] else [VisualHeading(k, shots[0], w)] + Headings(shots[1..], k + 1, w)
  }

  /** The images PIL can open, in order. */
  function Readable(shots: seq<Visual>, w: World): seq<string>
    decreases |shots|
  {
    if shots == [] then []
    else (if w.openImage(shots[0].image).Some? then [shots[0].image] else []) + Readable(shots[1..], w)
  }

  /**
   * The screenshot section draws the headings numbered from `k` up in the order of the
   * screenshots, one each, and draws exactly the images PIL can open, in the same order.
   */
  lemma {:induction false} ShotsShow(v: Variant, w: World, s: Sheet, shots: seq<Visual>, k: nat)
    requires ShotsFrom(v, w, s, shots, k).Ok?
    ensures var t := ShotsFrom(v, w, s, shots, k).value;
      && TextsIn(Added(s.ops, t.ops), ItemFont) == Headings(shots, k, w)
      && PictureNames(Added(s.ops, t.ops)) == Readable(shots, w)
    decreases |shots|
  {
    if shots == [] {
      assert Added(s.ops, s.ops) == [];
    } else {
      var s1 := Shot(v, w, s, k, shots[0]).value;
      var t := ShotsFrom(v, w, s1, shots[1..], k + 1).value;
      ShotShows(v, w, s, k, shots[0]);
      ShotsShow(v, w, s1, shots[1..], k + 1);
      AddedConcat(s.ops, s1.ops, t.ops);
      OpsConcat(Added(s.ops, s1.ops), Added(s1.ops, t.ops), ItemFont);
    }
  }

  /** A finished document with screenshots has the screenshot section, headed at the top of a page. */
  lemma ShowsVisuals(v: Variant, w: World, notes: seq<(string, Value)>, shots: seq<Visual>)
    requires Document(v, w, notes, shots).Ok? && shots != []
    ensures var ops := Document(v, w, notes, shots).value;
      exists i :: 0 <= i < |ops| && ops[i] == Text(VisualsTitle, Margin, Top, PartFont)
  {
    var ops := Document(v, w, notes, shots).value;
    var s2 := Middle(v, Opening(notes, w).value, notes, w).value;
    var s1 := Put(Break(s2), PartFont, VisualsTitle, 20.0);
    var t := ShotsFrom(v, w, s1, shots, 1).value;
    assert ops == t.ops;
    var i := |s1.ops| - 1;
    assert t.ops[..|s1.ops|] == s1.ops;
    assert ops[i] == s1.ops[i];
  }

  /** The screenshot section shows the numbered headings and the images PIL can open, in order. */
  lemma VisualsInOrder(v: Variant, w: World, s: Sheet, shots: seq<Visual>)
    requires Shots(v, w, s, shots).Ok?
    ensures var t := Shots(v, w, s, shots).value;
      && TextsIn(Added(s.ops, t.ops), ItemFont) == Headings(shots, 1, w)
      && PictureNames(Added(s.ops, t.ops)) == Readable(shots, w)
  {
    if shots == [] {
      assert Added(s.ops, s.ops) == [];
    } else {
      var s1 := Put(Break(s), PartFont, VisualsTitle, 20.0);
      assert Shots(v, w, s, shots) == ShotsFrom(v, w, s1, shots, 1);
      assert s1.ops == s.ops + [NewPage, Text(VisualsTitle, Margin, Top, PartFont)];
      TitledShows(v, w, s.ops, s1, shots);
    }
  }

  /** The section title adds no heading and no image. */
  lemma TitledShows(v: Variant, w: World, ops: seq<Op>, s1: Sheet, shots: seq<Visual>)
    requires s1.ops == ops + [NewPage, Text(VisualsTitle, Margin, Top, PartFont)]
    requires ShotsFrom(v, w, s1, shots, 1).Ok?
    ensures var t := ShotsFrom(v, w, s1, shots, 1).value;
      && Grows(ops, t.ops)
      && TextsIn(Added(ops, t.ops), ItemFont) == Headings(shots, 1, w)
      && PictureNames(Added(ops, t.ops)) == Readable(shots, w)
  {
    var t := ShotsFrom(v, w, s1, shots, 1).value;
    ShotsShow(v, w, s1, shots, 1);
    TitlePlain();
    PlainHead(ops, [NewPage, Text(VisualsTitle, Margin, Top, PartFont)], t.ops);
  }

  lemma TitlePlain()
    ensures Plain([NewPage, Text(VisualsTitle, Margin, Top, PartFont)], ItemFont)
  {
    var head := [NewPage, Text(VisualsTitle, Margin, Top, PartFont)];
    assert head[0] == NewPage && head[1].font == PartFont != ItemFont;
  }

  // ---------------------------------------------------------------------------
  // Drawing on the canvas
  // ---------------------------------------------------------------------------

  /** The canvas and cursor after a step that may have raised `err`. */
  function Drawn(ops: seq<Op>, font: Font, y: real, err: Option<Failure>): Result<Sheet, Failure> {
    if err.Some? then Err(err.value) else Ok(Sheet(ops, font, y))
  }

  method PutText(c: Canvas, y: real, f: Font, text: string, drop: real) returns (y': real)
    requires drop >= 0.0
    modifies c
    ensures Sheet(c.ops, c.font, y') == Put(Sheet(old(c.ops), old(c.font), y), f, text, drop)
  {
    c.SetFont(f);
    c.DrawString(Margin, y, text);
    y' := y - drop;
  }

  /** `new_page()`. */
  method StartPage(c: Canvas) returns (y': real)
    modifies c
    ensures Sheet(c.ops, c.font, y') == Break(Sheet(old(c.ops), old(c.font), y'))
  {
    c.ShowPage();
    y' := Top;
  }

  method BreakIfBelow(c: Canvas, y: real, limit: real) returns (y': real)
    modifies c
    ensures Sheet(c.ops, c.font, y') == BreakBelow(Sheet(old(c.ops), old(c.font), y), limit)
  {
    y' := y;
    if y < limit {
      y' := StartPage(c);
    }
  }

  method WrapAt(c: Canvas, w: World, y: real, text: string, font: Font) returns (y': real)
    requires c.measure == w.stringWidth
    modifies c
    ensures Sheet(c.ops, c.font, y') == Wrapped(Sheet(old(c.ops), old(c.font), y), text, font, w)
  {
    y' := DrawWrapped(c, Margin, y, text, MaxW, font);
  }

  method DrawBullets(c: Canvas, w: World, y: real, items: seq<Value>) returns (y': real)
    requires c.measure == w.stringWidth
    modifies c
    ensures Sheet(c.ops, c.font, y') == Bullets(Sheet(old(c.ops), old(c.font), y), items, w)
  {
    y' := y;
    for i := 0 to |items|
      invariant Bullets(Sheet(old(c.ops), old(c.font), y), items, w) == Bullets(Sheet(c.ops, c.font, y'), items[i..], w)
    {
      assert items[i..][1..] == items[i + 1..];
      y' := BreakIfBelow(c, y', Margin + 80.0);
      y' := WrapAt(c, w, y', "• " + PyStr(items[i], w.repr), Body);
    }
  }

  method DrawCard(c: Canvas, w: World, y: real, card: Value) returns (y': real, err: Option<Failure>)
    requires c.measure == w.stringWidth
    modifies c
    ensures Drawn(c.ops, c.font, y', err) == Card(Sheet(old(c.ops), old(c.font), y), card, w)
  {
    if !card.Obj? {
      return y, Some(NotADict);
    }
    y' := DrawCardText(c, w, y, Field(card, "term", "", w), Field(card, "explanation", "", w), Field(card, "why_it_matters", "", w));
    err := None;
  }

  method DrawCardText(c: Canvas, w: World, y: real, term: string, expl: string, why: string) returns (y': real)
    requires c.measure == w.stringWidth
    modifies c
    ensures Sheet(c.ops, c.font, y') == CardText(Sheet(old(c.ops), old(c.font), y), term, expl, why, w)
  {
    y' := BreakIfBelow(c, y, Margin + 120.0);
    y' := PutText(c, y', ItemFont, term, 14.0);
    y' := WrapAt(c, w, y', expl, Body);
    if why != "" {
      y' := WrapAt(c, w, y', "Why it matters: " + why, WhyFont);
    }
    y' := y' - 6.0;
  }

  method DrawConcepts(c: Canvas, w: World, y: real, cards: seq<Value>) returns (y': real, err: Option<Failure>)
    requires c.measure == w.stringWidth
    modifies c
    ensures Drawn(c.ops, c.font, y', err) == Concepts(Sheet(old(c.ops), old(c.font), y), cards, w)
  {
    y', err := y, None;
    if cards != [] {
      y' := BreakIfBelow(c, y', Margin + 140.0);
      y' := PutText(c, y', SectionFont, "Core Concepts", 18.0);
      y', err := DrawCards(c, w, y', cards);
    }
  }

  method DrawCards(c: Canvas, w: World, y: real, cards: seq<Value>) returns (y': real, err: Option<Failure>)
    requires c.measure == w.stringWidth
    modifies c
    ensures Drawn(c.ops, c.font, y', err) == CardsFrom(Sheet(old(c.ops), old(c.font), y), cards, w)
  {
    y', err := y, None;
    var i := 0;
    while i < |cards|
      invariant 0 <= i <= |cards| && err.None?
      invariant CardsFrom(Sheet(old(c.ops), old(c.font), y), cards, w) == CardsFrom(Sheet(c.ops, c.font, y'), cards[i..], w)
    {
      assert cards[i..][0] == cards[i] && cards[i..][1..] == cards[i + 1..];
      ghost var cur := Sheet(c.ops, c.font, y');
      y', err := DrawCard(c, w, y', cards[i]);
      if err.Some? {
        assert CardsFrom(cur, cards[i..], w) == Err(NotADict);
        return;
      }
      assert CardsFrom(cur, cards[i..], w) == CardsFrom(Sheet(c.ops, c.font, y'), cards[i + 1..], w);
      i := i + 1;
    }
    assert cards[i..] == [];
  }

  method DrawListing(c: Canvas, y: real, lines: seq<string>) returns (y': real)
    modifies c
    ensures Sheet(c.ops, c.font, y') == Listing(Sheet(old(c.ops), old(c.font), y), lines)
  {
    y' := y;
    for i := 0 to |lines|
      invariant Listing(Sheet(old(c.ops), old(c.font), y), lines) == Listing(Sheet(c.ops, c.font, y'), lines[i..])
    {
      assert lines[i..][1..] == lines[i + 1..];
      if y' < Margin + 60.0 {
        y' := StartPage(c);
        c.SetFont(Code);
      }
      c.DrawString(Margin, y', Prefix(lines[i], MaxCodeLine));
      y' := y' - CodeLeading;
    }
  }

  method DrawExample(v: Variant, c: Canvas, w: World, y: real, ex: Value) returns (y': real, err: Option<Failure>)
    requires c.measure == w.stringWidth
    modifies c
    ensures Drawn(c.ops, c.font, y', err) == Example(v, Sheet(old(c.ops), old(c.font), y), ex, w)
  {
    if !ex.Obj? {
      return y, Some(NotADict);
    }
    y' := DrawExampleText(v, c, w, y, Field(ex, "title", "Example", w), Field(ex, "sql", "", w), Field(ex, "explanation", "", w));
    err := None;
  }

  method DrawExampleText(v: Variant, c: Canvas, w: World, y: real, title: string, sql: string, expl: string) returns (y': real)
    requires c.measure == w.stringWidth
    modifies c
    ensures Sheet(c.ops, c.font, y') == ExampleText(v, Sheet(old(c.ops), old(c.font), y), title, sql, expl, w)
  {
    y' := BreakIfBelow(c, y, Margin + ExampleRoom(v));
    y' := PutText(c, y', ItemFont, title, 14.0);
    y' := WrapAt(c, w, y', expl, Body);
    y' := DrawSql(v, c, y', sql);
    y' := y' - 10.0;
  }

  method DrawSql(v: Variant, c: Canvas, y: real, sql: string) returns (y': real)
    modifies c
    ensures Sheet(c.ops, c.font, y') == Sql(v, Sheet(old(c.ops), old(c.font), y), sql)
  {
    if v == OpenAi {
      y' := DrawCodeBlock(c, Margin, y - 4.0, sql, MaxW);
    } else {
      c.SetFont(Code);
      y' := DrawListing(c, y - 10.0, SplitLines(sql));
    }
  }

  method DrawExamples(v: Variant, c: Canvas, w: World, y: real, exs: seq<Value>) returns (y': real, err: Option<Failure>)
    requires c.measure == w.stringWidth
    modifies c
    ensures Drawn(c.ops, c.font, y', err) == Examples(v, Sheet(old(c.ops), old(c.font), y), exs, w)
  {
    y', err := y, None;
    if exs != [] {
      y' := StartPage(c);
      y' := PutText(c, y', PartFont, "Examples", 20.0);
      y', err := DrawExampleList(v, c, w, y', exs);
    }
  }

  method DrawExampleList(v: Variant, c: Canvas, w: World, y: real, exs: seq<Value>) returns (y': real, err: Option<Failure>)
    requires c.measure == w.stringWidth
    modifies c
    ensures Drawn(c.ops, c.font, y', err) == ExamplesFrom(v, Sheet(old(c.ops), old(c.font), y), exs, w)
  {
    y', err := y, None;
    var i := 0;
    while i < |exs|
      invariant 0 <= i <= |exs| && err.None?
      invariant ExamplesFrom(v, Sheet(old(c.ops), old(c.font), y), exs, w) == ExamplesFrom(v, Sheet(c.ops, c.font, y'), exs[i..], w)
    {
      assert exs[i..][0] == exs[i] && exs[i..][1..] == exs[i + 1..];
      ghost var cur := Sheet(c.ops, c.font, y');
      y', err := DrawExample(v, c, w, y', exs[i]);
      if err.Some? {
        assert ExamplesFrom(v, cur, exs[i..], w) == Err(NotADict);
        return;
      }
      assert ExamplesFrom(v, cur, exs[i..], w) == ExamplesFrom(v, Sheet(c.ops, c.font, y'), exs[i + 1..], w);
      i := i + 1;
    }
    assert exs[i..] == [];
  }

  method DrawImage(v: Variant, c: Canvas, w: World, y: real, name: string) returns (y': real, err: Option<Failure>)
    modifies c
    ensures Drawn(c.ops, c.font, y', err) == ImageStep(v, w, Sheet(old(c.ops), old(c.font), y), name)
  {
    var size := w.openImage(name);
    if size.Some? {
      var (dw, dh) := Fit(size.value);
      c.DrawInlineImage(name, Margin, y - dh, dw, dh);
      return y - dh - 10.0, None;
    }
    if v == Watsonx {
      return y, Some(ImageUnreadable(name));
    }
    y' := PutText(c, y, Body, Placeholder(name), 14.0);
    err := None;
  }

  method DrawShotNotes(c: Canvas, w: World, y: real, cap: string, expl: string) returns (y': real)
    requires c.measure == w.stringWidth
    modifies c
    ensures Sheet(c.ops, c.font, y') == ShotNotes(Sheet(old(c.ops), old(c.font), y), cap, expl, w)
  {
    y' := y;
    if cap != "" {
      y' := WrapAt(c, w, y', "Caption: " + cap, Body);
    }
    if expl != "" {
      y' := WrapAt(c, w, y', "Explanation: " + expl, Body);
    }
    y' := y' - 10.0;
  }

  method DrawShot(v: Variant, c: Canvas, w: World, y: real, k: nat, shot: Visual) returns (y': real, err: Option<Failure>)
    requires c.measure == w.stringWidth
    modifies c
    ensures Drawn(c.ops, c.font, y', err) == Shot(v, w, Sheet(old(c.ops), old(c.font), y), k, shot)
  {
    y' := BreakIfBelow(c, y, ShotRoom);
    y' := PutText(c, y', ItemFont, VisualHeading(k, shot, w), 14.0);
    y', err := DrawImage(v, c, w, y', shot.image);
    if err.Some? {
      return;
    }
    var cap := ShotText(v, shot.caption);
    var expl := ShotText(v, shot.explain);
    if cap.Err? {
      return y', Some(cap.error);
    }
    if expl.Err? {
      return y', Some(expl.error);
    }
    y' := DrawShotNotes(c, w, y', cap.value, expl.value);
  }

  method DrawShots(v: Variant, c: Canvas, w: World, y: real, shots: seq<Visual>) returns (y': real, err: Option<Failure>)
    requires c.measure == w.stringWidth
    modifies c
    ensures Drawn(c.ops, c.font, y', err) == Shots(v, w, Sheet(old(c.ops), old(c.font), y), shots)
  {
    y', err := y, None;
    if shots != [] {
      y' := StartPage(c);
      y' := PutText(c, y', PartFont, VisualsTitle, 20.0);
      y', err := DrawShotList(v, c, w, y', shots);
    }
  }

  /** `for idx, s in enumerate(screenshots, start=1)`. */
  method DrawShotList(v: Variant, c: Canvas, w: World, y: real, shots: seq<Visual>) returns (y': real, err: Option<Failure>)
    requires c.measure == w.stringWidth
    modifies c
    ensures Drawn(c.ops, c.font, y', err) == ShotsFrom(v, w, Sheet(old(c.ops), old(c.font), y), shots, 1)
  {
    y', err := y, None;
    var i := 0;
    assert shots[i..] == shots;
    while i < |shots|
      invariant 0 <= i <= |shots| && err.None?
      invariant ShotsFrom(v, w, Sheet(old(c.ops), old(c.font), y), shots, 1) == ShotsFrom(v, w, Sheet(c.ops, c.font, y'), shots[i..], i + 1)
    {
      assert shots[i..][0] == shots[i] && shots[i..][1..] == shots[i + 1..];
      ghost var cur := Sheet(c.ops, c.font, y');
      y', err := DrawShot(v, c, w, y', i + 1, shots[i]);
      if err.Some? {
        assert ShotsFrom(v, w, cur, shots[i..], i + 1) == Err(err.value);
        return;
      }
      assert ShotsFrom(v, w, cur, shots[i..], i + 1) == ShotsFrom(v, w, Sheet(c.ops, c.font, y'), shots[i + 1..], i + 2);
      i := i + 1;
    }
    assert shots[i..] == [];
  }

  /**
   * `generate_pdf`: draws the notes and the screenshots on a fresh canvas and hands back
   * what was drawn, or the exception that stopped it. The PDF file itself is not modelled.
   */
  method GeneratePdf(v: Variant, w: World, notes: seq<(string, Value)>, shots: seq<Visual>) returns (r: Result<seq<Op>, Failure>)
    ensures r == Document(v, w, notes, shots)
  {
    var c := new Canvas(w.stringWidth);
    var y := Top;
    y := PutText(c, y, TitleFont, PyStr(Get(notes, "title", Str("Video Notes")), w.repr), 26.0);
    y := PutText(c, y, SectionFont, "Overview", 18.0);
    assert Sheet(c.ops, c.font, y) == Front(notes, w);
    var overview := SliceItems(Get(notes, "overview", Arr([])), MaxOverview);
    if overview.Err? {
      return Err(overview.error);
    }
    y := DrawBullets(c, w, y, overview.value);
    y := y - 8.0;
    assert Opening(notes, w) == Ok(Sheet(c.ops, c.font, y));
    var err: Option<Failure>;
    y, err := DrawMiddle(v, c, w, y, notes);
    if err.Some? {
      return Err(err.value);
    }
    y, err := DrawShots(v, c, w, y, shots);
    if err.Some? {
      return Err(err.value);
    }
    r := Ok(c.ops);
  }

  method DrawMiddle(v: Variant, c: Canvas, w: World, y: real, notes: seq<(string, Value)>) returns (y': real, err: Option<Failure>)
    requires c.measure == w.stringWidth
    modifies c
    ensures Drawn(c.ops, c.font, y', err) == Middle(v, Sheet(old(c.ops), old(c.font), y), notes, w)
  {
    var cards := SliceItems(Get(notes, "concept_cards", Arr([])), MaxConceptCards);
    if cards.Err? {
      return y, Some(cards.error);
    }
    y', err := DrawConcepts(c, w, y, cards.value);
    if err.Some? {
      return;
    }
    var examples := SliceItems(Get(notes, "examples", Arr([])), MaxExamples);
    if examples.Err? {
      return y', Some(examples.error);
    }
    y', err := DrawExamples(v, c, w, y', examples.value);
  }
}
