/**
 * `draw_red_arrows`: which arrows the model's `arrows` value yields, capped at six, with
 * every coordinate clamped into [0, 1] and scaled to the frame's pixels. The PIL drawing
 * itself (line, arrowhead, label box) is represented by the `Mark` it is drawn from.
 */
module Arrows {
  import opened Wrappers
  import opened PyText
  import opened Json
  import opened Oracles

  /** Both scripts draw at most the first six arrows. */
  const MaxArrows: nat := 6

  /** An arrow as drawn: pixel end points, and the label text when a label box is drawn. */
  datatype Mark = Mark(x1: int, y1: int, x2: int, y2: int, text: Option<string>)

  function Max(a: real, b: real): real { if a >= b then a else b }
  function Min(a: real, b: real): real { if a <= b then a else b }

  /** `clamp(v) = max(0.0, min(1.0, float(v)))`, applied once `float` has succeeded. */
  function Clamp(v: real): (r: real)
    ensures 0.0 <= r <= 1.0
    ensures 0.0 <= v <= 1.0 ==> r == v
    ensures v < 0.0 ==> r == 0.0
    ensures v > 1.0 ==> r == 1.0
  {
    Max(0.0, Min(1.0, v))
  }

  /** `int(clamp(v) * extent)`: Python's `int` truncates, which is the floor for a non-negative product. */
  function ToPixel(v: real, extent: Positive): (p: int)
    ensures 0 <= p <= extent
    ensures p as real <= Clamp(v) * extent as real < p as real + 1.0
  {
    var c := Clamp(v);
    ScaleWithin(c, extent as real);
    (c * extent as real).Floor
  }

  /** A fraction of a positive extent lies between 0 and the extent. */
  lemma ScaleWithin(c: real, e: real)
    requires 0.0 <= c <= 1.0 && e > 0.0
    ensures 0.0 <= c * e <= e
  {
    var d := 1.0 - c;
    assert e - c * e == d * e;
    assert 0.0 <= d * e by {
      if d > 0.0 { assert d * e > 0.0; }
    }
    assert 0.0 <= c * e by {
      if c > 0.0 { assert c * e > 0.0; }
    }
  }

  predicate InFrame(m: Mark, size: Size) {
    0 <= m.x1 <= size.w && 0 <= m.x2 <= size.w && 0 <= m.y1 <= size.h && 0 <= m.y2 <= size.h
  }

  /** `float(point[k])`, or `None` when indexing or converting raises. */
  function Coordinate(w: World, point: Value, k: nat): Option<real> {
    match Index(point, k)
    case None => None
    case Some(c) => PyFloat(c, w.floatOf)
  }

  const DefaultFrom: Value := Arr([Num(0.1), Num(0.1)])
  const DefaultTo: Value := Arr([Num(0.2), Num(0.2)])

  /**
   * One arrow dict: end points from "from" and "to" (defaulting to (0.1, 0.1) and
   * (0.2, 0.2)), label from the stripped `str` of "text". `None` when a coordinate
   * cannot be read or converted.
   */
  function MarkOf(w: World, arrow: seq<(string, Value)>, size: Size): (m: Option<Mark>)
    ensures m.Some? ==> InFrame(m.value, size)
    ensures m.Some? ==>
      var frm := Get(arrow, "from", DefaultFrom);
      var to := Get(arrow, "to", DefaultTo);
      && Coordinate(w, frm, 0).Some? && m.value.x1 == ToPixel(Coordinate(w, frm, 0).value, size.w)
      && Coordinate(w, frm, 1).Some? && m.value.y1 == ToPixel(Coordinate(w, frm, 1).value, size.h)
      && Coordinate(w, to, 0).Some? && m.value.x2 == ToPixel(Coordinate(w, to, 0).value, size.w)
      && Coordinate(w, to, 1).Some? && m.value.y2 == ToPixel(Coordinate(w, to, 1).value, size.h)
  {
    var frm := Get(arrow, "from", DefaultFrom);
    var to := Get(arrow, "to", DefaultTo);
    var text := Strip(PyStr(Get(arrow, "text", Str("")), w.repr));
    var shown := if text != [] then Some(text) else None;
    match (Coordinate(w, frm, 0), Coordinate(w, frm, 1), Coordinate(w, to, 0), Coordinate(w, to, 1))
    case (Some(a), Some(b), Some(c), Some(d)) =>
      Some(Mark(ToPixel(a, size.w), ToPixel(b, size.h), ToPixel(c, size.w), ToPixel(d, size.h), shown))
    case _ => None
  }

  /**
   * An arrow is drawn exactly when its four coordinates convert, and it gets a label box
   * exactly when its stripped text is non-empty, showing that text.
   */
  lemma MarkOfSpec(w: World, arrow: seq<(string, Value)>, size: Size)
    ensures var m := MarkOf(w, arrow, size);
      var frm := Get(arrow, "from", DefaultFrom);
      var to := Get(arrow, "to", DefaultTo);
      var text := Strip(PyStr(Get(arrow, "text", Str("")), w.repr));
      && (m.Some? <==>
            Coordinate(w, frm, 0).Some? && Coordinate(w, frm, 1).Some? && Coordinate(w, to, 0).Some? && Coordinate(w, to, 1).Some?)
      && (m.Some? ==> (m.value.text.Some? <==> text != []) && (m.value.text.Some? ==> m.value.text.value == text))
  {
  }

  /** An arrow that names no end points is drawn from (0.1, 0.1) to (0.2, 0.2) of the frame. */
  lemma DefaultEndPoints(w: World, arrow: seq<(string, Value)>, size: Size)
    requires Lookup(arrow, "from").None? && Lookup(arrow, "to").None?
    ensures MarkOf(w, arrow, size).Some?
    ensures MarkOf(w, arrow, size) ==
      Some(Mark(ToPixel(0.1, size.w), ToPixel(0.1, size.h), ToPixel(0.2, size.w), ToPixel(0.2, size.h), MarkOf(w, arrow, size).value.text))
  {
    assert Get(arrow, "from", DefaultFrom) == DefaultFrom;
    assert Get(arrow, "to", DefaultTo) == DefaultTo;
    assert Coordinate(w, DefaultFrom, 0) == Some(0.1);
    assert Coordinate(w, DefaultFrom, 1) == Some(0.1);
    assert Coordinate(w, DefaultTo, 0) == Some(0.2);
    assert Coordinate(w, DefaultTo, 1) == Some(0.2);
  }

  function Take<T>(xs: seq<T>, n: nat): (r: seq<T>)
    ensures |r| <= n && |r| <= |xs| && r == xs[..|r|]
    ensures |xs| >= n ==> |r| == n
    ensures |xs| <= n ==> r == xs
  {
    if |xs| <= n then xs else xs[..n]
  }

  // ---------------------------------------------------------------------------
  // pdfmaker.py
  // ---------------------------------------------------------------------------

  /** How an arrow's dict is read into a mark, or `None` when its coordinates do not convert. */
  type Reader = seq<(string, Value)> -> Option<Mark>

  function ReaderOf(w: World, size: Size): Reader {
    (arrow: seq<(string, Value)>) => MarkOf(w, arrow, size)
  }

  /** A loop that needs every item to be a dict that `read` accepts, and fails on the first that is not. */
  function MarksEach(read: Reader, arrows: seq<Value>): Result<seq<Mark>, Failure> {
    if arrows == [] then Ok([])
    else if !arrows[0].Obj? then Err(BadArrows)
    else
      match read(arrows[0].fields)
      case None => Err(BadArrows)
      case Some(m) =>
        match MarksEach(read, arrows[1..])
        case Err(e) => Err(e)
        case Ok(ms) => Ok([m] + ms)
  }

  lemma {:induction false} MarksEachOk(read: Reader, arrows: seq<Value>)
    ensures var r := MarksEach(read, arrows);
      && (r.Ok? <==> forall k :: 0 <= k < |arrows| ==> arrows[k].Obj? && read(arrows[k].fields).Some?)
      && (r.Err? ==> r.error == BadArrows)
  {
    if arrows != [] {
      MarksEachOk(read, arrows[1..]);
      assert forall k :: 1 <= k < |arrows| ==> arrows[k] == arrows[1..][k - 1];
    }
  }

  lemma {:induction false} MarksEachSpec(read: Reader, arrows: seq<Value>)
    requires MarksEach(read, arrows).Ok?
    ensures var r := MarksEach(read, arrows).value;
      && |r| == |arrows|
      && forall k :: 0 <= k < |arrows| ==> arrows[k].Obj? && read(arrows[k].fields) == Some(r[k])
  {
    if arrows != [] {
      var m := read(arrows[0].fields).value;
      var rest := MarksEach(read, arrows[1..]).value;
      var r := MarksEach(read, arrows).value;
      assert r == [m] + rest;
      MarksEachSpec(read, arrows[1..]);
      forall k | 0 <= k < |arrows|
        ensures arrows[k].Obj? && read(arrows[k].fields) == Some(r[k])
      {
        if k > 0 {
          assert arrows[k] == arrows[1..][k - 1] && r[k] == rest[k - 1];
        }
      }
    }
  }

  /** The loop of pdfmaker.py over its arrows: every item must be a dict with readable coordinates. */
  function MarksEachOpenAi(w: World, arrows: seq<Value>, size: Size): Result<seq<Mark>, Failure> {
    MarksEach(ReaderOf(w, size), arrows)
  }

  /** pdfmaker.py draws every arrow it is given or aborts: it fails exactly on an item that is not a dict with readable coordinates. */
  lemma MarksEachOpenAiOk(w: World, arrows: seq<Value>, size: Size)
    ensures var r := MarksEachOpenAi(w, arrows, size);
      && (r.Ok? <==> forall k :: 0 <= k < |arrows| ==> arrows[k].Obj? && MarkOf(w, arrows[k].fields, size).Some?)
      && (r.Err? ==> r.error == BadArrows)
  {
    MarksEachOk(ReaderOf(w, size), arrows);
    forall k | 0 <= k < |arrows| && arrows[k].Obj?
      ensures ReaderOf(w, size)(arrows[k].fields) == MarkOf(w, arrows[k].fields, size)
    {
    }
  }

  /** On success there is one mark per item, in order, each the item's own. */
  lemma MarksEachOpenAiSpec(w: World, arrows: seq<Value>, size: Size)
    requires MarksEachOpenAi(w, arrows, size).Ok?
    ensures var r := MarksEachOpenAi(w, arrows, size).value;
      && |r| == |arrows|
      && forall k :: 0 <= k < |arrows| ==> arrows[k].Obj? && MarkOf(w, arrows[k].fields, size) == Some(r[k])
  {
    MarksEachSpec(ReaderOf(w, size), arrows);
    forall k | 0 <= k < |arrows| && arrows[k].Obj?
      ensures ReaderOf(w, size)(arrows[k].fields) == MarkOf(w, arrows[k].fields, size)
    {
    }
  }

  /**
   * `for a in (arrows or [])[:6]` in pdfmaker.py: a falsy value draws nothing, a list
   * draws its first six arrows, and any other value raises.
   */
  function MarksOpenAi(w: World, arrows: Value, size: Size): (r: Result<seq<Mark>, Failure>)
    ensures r.Ok? ==> |r.value| <= MaxArrows && forall k :: 0 <= k < |r.value| ==> InFrame(r.value[k], size)
    ensures arrows.Arr? && r.Ok? ==> |r.value| == |Take(arrows.items, MaxArrows)|
    ensures !Truthy(arrows) ==> r == Ok([])
    ensures Truthy(arrows) && !arrows.Arr? ==> r == Err(BadArrows)
    ensures arrows.Arr? ==> r == MarksEachOpenAi(w, Take(arrows.items, MaxArrows), size)
  {
    if !Truthy(arrows) then Ok([])
    else if arrows.Arr? then
      var r := MarksEachOpenAi(w, Take(arrows.items, MaxArrows), size);
      if r.Ok? then MarksEachOpenAiSpec(w, Take(arrows.items, MaxArrows), size); r else r
    else Err(BadArrows)
  }

  // ---------------------------------------------------------------------------
  // pdfmaker_ibm.py
  // ---------------------------------------------------------------------------

  /** `[v for v in d.values() if isinstance(v, dict)]`. */
  function DictValues(fields: seq<(string, Value)>): (r: seq<Value>)
    ensures |r| <= |fields|
    ensures forall k :: 0 <= k < |r| ==> r[k].Obj?
    ensures forall k :: 0 <= k < |fields| && fields[k].1.Obj? ==> fields[k].1 in r
    ensures forall k :: 0 <= k < |r| ==> exists j :: 0 <= j < |fields| && fields[j].1 == r[k]
  {
    if fields == [] then []
    else
      var rest := DictValues(fields[1..]);
      assert forall k :: 0 <= k < |rest| ==> exists j :: 1 <= j < |fields| && fields[j].1 == rest[k] by {
        forall k | 0 <= k < |rest|
          ensures exists j :: 1 <= j < |fields| && fields[j].1 == rest[k]
        {
          var j :| 0 <= j < |fields| - 1 && fields[1..][j].1 == rest[k];
          assert fields[j + 1].1 == rest[k];
        }
      }
      (if fields[0].1.Obj? then [fields[0].1] else []) + rest
  }

  /**
   * The dict values of two field lists are those of the first, then those of the second:
   * with the one-field case this fixes `DictValues` as the dict values in field order.
   */
  lemma {:induction false} DictValuesAppend(f: seq<(string, Value)>, g: seq<(string, Value)>)
    ensures DictValues(f + g) == DictValues(f) + DictValues(g)
  {
    if f == [] {
      assert f + g == g;
    } else {
      assert (f + g)[0] == f[0] && (f + g)[1..] == f[1..] + g;
      DictValuesAppend(f[1..], g);
    }
  }

  lemma DictValuesOne(key: string, v: Value)
    ensures DictValues([(key, v)]) == if v.Obj? then [v] else []
  {
    assert [(key, v)][1..] == [];
  }

  /**
   * The normalisation in pdfmaker_ibm.py: `None` gives nothing, a list is taken as it is,
   * a dict with both "from" and "to" is one arrow, any other dict contributes its
   * dict-valued values, and every other value gives nothing.
   */
  function NormalizeArrows(arrows: Value): (r: seq<Value>)
    ensures !arrows.Arr? && !arrows.Obj? ==> r == []
    ensures arrows.Arr? ==> r == arrows.items
    ensures arrows.Obj? && Lookup(arrows.fields, "from").Some? && Lookup(arrows.fields, "to").Some? ==> r == [arrows]
    ensures arrows.Obj? && !(Lookup(arrows.fields, "from").Some? && Lookup(arrows.fields, "to").Some?) ==> r == DictValues(arrows.fields)
    ensures arrows.Obj? ==> forall k :: 0 <= k < |r| ==> r[k].Obj?
  {
    match arrows
    case Arr(items) => items
    case Obj(fields) =>
      if Lookup(fields, "from").Some? && Lookup(fields, "to").Some? then [arrows] else DictValues(fields)
    case _ => []
  }

  /**
   * The loop of pdfmaker_ibm.py: a non-dict item raises (its `.get` sits outside the `try`),
   * an arrow whose coordinates cannot be converted is skipped.
   */
  function MarksEachWatsonx(read: Reader, arrows: seq<Value>): Result<seq<Mark>, Failure> {
    if arrows == [] then Ok([])
    else if !arrows[0].Obj? then Err(BadArrows)
    else
      match MarksEachWatsonx(read, arrows[1..])
      case Err(e) => Err(e)
      case Ok(ms) =>
        match read(arrows[0].fields)
        case None => Ok(ms)
        case Some(m) => Ok([m] + ms)
  }

  /**
   * The loop of pdfmaker_ibm.py fails exactly on a non-dict item, and otherwise keeps the
   * marks of the items whose coordinates convert.
   */
  lemma MarksEachWatsonxSpec(read: Reader, arrows: seq<Value>)
    ensures var r := MarksEachWatsonx(read, arrows);
      && (r.Ok? <==> forall k :: 0 <= k < |arrows| ==> arrows[k].Obj?)
      && (r.Err? ==> r.error == BadArrows)
      && (r.Ok? ==> r.value == Converted(read, arrows))
  {
    MarksEachWatsonxOk(read, arrows);
    MarksEachWatsonxKeeps(read, arrows);
  }

  lemma {:induction false} MarksEachWatsonxOk(read: Reader, arrows: seq<Value>)
    ensures var r := MarksEachWatsonx(read, arrows);
      && (r.Ok? <==> forall k :: 0 <= k < |arrows| ==> arrows[k].Obj?)
      && (r.Err? ==> r.error == BadArrows)
  {
    if arrows != [] {
      MarksEachWatsonxOk(read, arrows[1..]);
      assert forall k :: 1 <= k < |arrows| ==> arrows[k] == arrows[1..][k - 1];
    }
  }

  lemma {:induction false} MarksEachWatsonxKeeps(read: Reader, arrows: seq<Value>)
    ensures var r := MarksEachWatsonx(read, arrows);
      r.Ok? ==> r.value == Converted(read, arrows)
  {
    if arrows != [] {
      MarksEachWatsonxKeeps(read, arrows[1..]);
    }
  }

  /** The marks of the dict items whose coordinates convert, in order. */
  function Converted(read: Reader, arrows: seq<Value>): (r: seq<Mark>)
    ensures |r| <= |arrows|
  {
    if arrows == [] then []
    else
      var m := if arrows[0].Obj? then read(arrows[0].fields) else None;
      (if m.Some? then [m.value] else []) + Converted(read, arrows[1..])
  }

  /** Every mark `read` produces lies inside the frame. */
  ghost predicate ReadsInFrame(read: Reader, size: Size) {
    forall arrow :: read(arrow).Some? ==> InFrame(read(arrow).value, size)
  }

  lemma ReaderInFrame(w: World, size: Size)
    ensures ReadsInFrame(ReaderOf(w, size), size)
  {
    forall arrow | ReaderOf(w, size)(arrow).Some?
      ensures InFrame(ReaderOf(w, size)(arrow).value, size)
    {
      assert ReaderOf(w, size)(arrow) == MarkOf(w, arrow, size);
    }
  }

  /** Every converted mark lies inside the frame. */
  lemma {:induction false} ConvertedInFrame(read: Reader, arrows: seq<Value>, size: Size)
    requires ReadsInFrame(read, size)
    ensures forall k :: 0 <= k < |Converted(read, arrows)| ==> InFrame(Converted(read, arrows)[k], size)
  {
    if arrows != [] {
      var m := if arrows[0].Obj? then read(arrows[0].fields) else None;
      var head := if m.Some? then [m.value] else [];
      var rest := Converted(read, arrows[1..]);
      ConvertedInFrame(read, arrows[1..], size);
      assert Converted(read, arrows) == head + rest;
      forall k | 0 <= k < |head + rest|
        ensures InFrame((head + rest)[k], size)
      {
        if k < |head| {
          assert (head + rest)[k] == m.value;
        } else {
          assert (head + rest)[k] == rest[k - |head|];
        }
      }
    }
  }

  /** One dict item: its mark when `read` accepts it, nothing otherwise. */
  lemma ConvertedOne(read: Reader, arrow: seq<(string, Value)>)
    ensures Converted(read, [Obj(arrow)]) == if read(arrow).Some? then [read(arrow).value] else []
  {
    assert [Obj(arrow)][1..] == [];
  }

  function MarksWatsonx(w: World, arrows: Value, size: Size): (r: Result<seq<Mark>, Failure>)
    ensures r == MarksEachWatsonx(ReaderOf(w, size), Take(NormalizeArrows(arrows), MaxArrows))
    ensures var items := Take(NormalizeArrows(arrows), MaxArrows);
      && (r.Ok? <==> forall k :: 0 <= k < |items| ==> items[k].Obj?)
      && (r.Ok? ==> r.value == Converted(ReaderOf(w, size), items))
    ensures r.Ok? ==> |r.value| <= MaxArrows && forall k :: 0 <= k < |r.value| ==> InFrame(r.value[k], size)
  {
    var r := MarksEachWatsonx(ReaderOf(w, size), Take(NormalizeArrows(arrows), MaxArrows));
    MarksEachWatsonxSpec(ReaderOf(w, size), Take(NormalizeArrows(arrows), MaxArrows));
    ReaderInFrame(w, size);
    ConvertedInFrame(ReaderOf(w, size), Take(NormalizeArrows(arrows), MaxArrows), size);
    r
  }

  /** Values that are neither a list nor a dict (a string, a number, `None`) draw nothing in pdfmaker_ibm.py. */
  lemma WatsonxIgnoresScalars(w: World, arrows: Value, size: Size)
    requires !arrows.Arr? && !arrows.Obj?
    ensures MarksWatsonx(w, arrows, size) == Ok([])
  {
  }

  /**
   * A single arrow sent as a bare dict, rather than in a list, aborts pdfmaker.py (slicing a
   * dict raises) but is drawn by pdfmaker_ibm.py.
   */
  lemma BareArrowDict(w: World, arrow: seq<(string, Value)>, size: Size)
    requires Lookup(arrow, "from").Some? && Lookup(arrow, "to").Some?
    requires MarkOf(w, arrow, size).Some?
    ensures MarksOpenAi(w, Obj(arrow), size) == Err(BadArrows)
    ensures MarksWatsonx(w, Obj(arrow), size) == Ok([MarkOf(w, arrow, size).value])
  {
    assert arrow != [];
    BareArrowRejected(w, arrow, size);
    BareArrowDrawn(w, arrow, size);
  }

  lemma BareArrowRejected(w: World, arrow: seq<(string, Value)>, size: Size)
    requires arrow != []
    ensures MarksOpenAi(w, Obj(arrow), size) == Err(BadArrows)
  {
    assert Truthy(Obj(arrow));
  }

  lemma BareArrowDrawn(w: World, arrow: seq<(string, Value)>, size: Size)
    requires Lookup(arrow, "from").Some? && Lookup(arrow, "to").Some?
    requires MarkOf(w, arrow, size).Some?
    ensures MarksWatsonx(w, Obj(arrow), size) == Ok([MarkOf(w, arrow, size).value])
  {
    assert NormalizeArrows(Obj(arrow)) == [Obj(arrow)];
    assert Take([Obj(arrow)], MaxArrows) == [Obj(arrow)];
    MarksEachWatsonxSpec(ReaderOf(w, size), [Obj(arrow)]);
    ConvertedOne(ReaderOf(w, size), arrow);
    assert ReaderOf(w, size)(arrow) == MarkOf(w, arrow, size);
  }

  /** pdfmaker_ibm.py skips an arrow with unreadable coordinates where pdfmaker.py aborts. */
  lemma UnreadableArrow(w: World, good: seq<(string, Value)>, bad: seq<(string, Value)>, size: Size)
    requires MarkOf(w, good, size).Some? && MarkOf(w, bad, size).None?
    ensures MarksOpenAi(w, Arr([Obj(bad), Obj(good)]), size) == Err(BadArrows)
    ensures MarksWatsonx(w, Arr([Obj(bad), Obj(good)]), size) == Ok([MarkOf(w, good, size).value])
  {
    UnreadableRejected(w, good, bad, size);
    UnreadableSkipped(w, good, bad, size);
  }

  lemma UnreadableRejected(w: World, good: seq<(string, Value)>, bad: seq<(string, Value)>, size: Size)
    requires MarkOf(w, bad, size).None?
    ensures MarksOpenAi(w, Arr([Obj(bad), Obj(good)]), size) == Err(BadArrows)
  {
    var xs := [Obj(bad), Obj(good)];
    assert Take(xs, MaxArrows) == xs;
    assert ReaderOf(w, size)(bad) == MarkOf(w, bad, size);
  }

  lemma UnreadableSkipped(w: World, good: seq<(string, Value)>, bad: seq<(string, Value)>, size: Size)
    requires MarkOf(w, good, size).Some? && MarkOf(w, bad, size).None?
    ensures MarksWatsonx(w, Arr([Obj(bad), Obj(good)]), size) == Ok([MarkOf(w, good, size).value])
  {
    var xs := [Obj(bad), Obj(good)];
    var read := ReaderOf(w, size);
    ListOfDicts(w, xs, size);
    assert read(bad) == MarkOf(w, bad, size);
    assert read(good) == MarkOf(w, good, size);
    ConvertedSkips(read, bad, good);
  }

  /** A short enough list of dicts draws the marks of the dicts whose coordinates convert. */
  lemma ListOfDicts(w: World, xs: seq<Value>, size: Size)
    requires |xs| <= MaxArrows && forall k :: 0 <= k < |xs| ==> xs[k].Obj?
    ensures MarksWatsonx(w, Arr(xs), size) == Ok(Converted(ReaderOf(w, size), xs))
  {
    assert Take(xs, MaxArrows) == xs;
    MarksEachWatsonxSpec(ReaderOf(w, size), xs);
  }

  /** An item `read` rejects adds nothing before the next one. */
  lemma ConvertedSkips(read: Reader, bad: seq<(string, Value)>, good: seq<(string, Value)>)
    requires read(bad).None?
    ensures Converted(read, [Obj(bad), Obj(good)]) == Converted(read, [Obj(good)])
    ensures Converted(read, [Obj(good)]) == if read(good).Some? then [read(good).value] else []
  {
    assert [Obj(bad), Obj(good)][1..] == [Obj(good)];
    ConvertedOne(read, good);
  }
}
