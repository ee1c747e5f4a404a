/**
 * Where frames come from: the candidate timestamps spread evenly over the video, the
 * re-extraction of the selected frames at full width, and the `MM:SS` labels of
 * `sec_to_mmss`. The ffmpeg and ffprobe runs themselves are not modelled; a frame is
 * its timestamp, its width and the file name the scripts give it.
 */
module Sampling {
  import opened Wrappers
  import opened PyText
  import opened Json
  import opened Oracles

  /** `CAND_THUMB_WIDTH`: candidates are scaled to 480 pixels wide. */
  const CandThumbWidth: nat := 480
  /** `HIRES_WIDTH`: selected frames are re-extracted 1800 pixels wide. */
  const HiresWidth: nat := 1800

  function NonNeg(n: int): nat { if n > 0 then n else 0 }

  /** The `i`-th candidate time (from 0) of `count`: `dur * (i + 1) / (count + 2)`. */
  function CandidateTime(dur: real, count: nat, i: int): real {
    dur * (i + 1) as real / (count + 2) as real
  }

  /** `[dur * (i + 1) / (count + 2) for i in range(count)]`. */
  function CandidateTimes(dur: real, count: int): (ts: seq<real>)
    ensures |ts| == NonNeg(count)
  {
    if count <= 0 then [] else seq(count, i => CandidateTime(dur, count, i))
  }

  lemma Fraction(a: real, b: real)
    requires 0.0 < a < b
    ensures 0.0 < a / b < 1.0
  {
    var q := a / b;
    assert q * b == a;
    assert (1.0 - q) * b == b - a;
    assert q * b > 0.0;
    PositiveFactor(q, b);
    PositiveFactor(1.0 - q, b);
  }

  lemma PositiveFactor(x: real, b: real)
    requires b > 0.0 && x * b > 0.0
    ensures x > 0.0
  {
  }

  lemma ScaleStrict(dur: real, x: real, y: real)
    requires dur > 0.0 && x < y
    ensures dur * x < dur * y
  {
    assert dur * y - dur * x == dur * (y - x);
  }

  lemma CandidateTimeInside(dur: real, count: nat, i: nat)
    requires dur > 0.0 && i < count
    ensures 0.0 < CandidateTime(dur, count, i) < dur
  {
    var f := (i + 1) as real / (count + 2) as real;
    assert CandidateTime(dur, count, i) == dur * f;
    Fraction((i + 1) as real, (count + 2) as real);
    ScaleStrict(dur, 0.0, f);
    ScaleStrict(dur, f, 1.0);
  }

  lemma CandidateTimeIncreasing(dur: real, count: nat, i: nat, j: nat)
    requires dur > 0.0 && i < j < count
    ensures CandidateTime(dur, count, i) < CandidateTime(dur, count, j)
  {
    var d := (count + 2) as real;
    var fi := (i + 1) as real / d;
    var fj := (j + 1) as real / d;
    assert CandidateTime(dur, count, i) == dur * fi && CandidateTime(dur, count, j) == dur * fj;
    assert fj - fi == (j - i) as real / d;
    Fraction((j - i) as real, d);
    ScaleStrict(dur, fi, fj);
  }

  /**
   * For a positive duration the candidate times are strictly increasing and lie strictly
   * inside the video, leaving out its first and last instants.
   */
  lemma CandidateTimesInside(dur: real, count: int)
    requires dur > 0.0
    ensures var ts := CandidateTimes(dur, count);
      && (forall i :: 0 <= i < |ts| ==> 0.0 < ts[i] < dur)
      && (forall i, j :: 0 <= i < j < |ts| ==> ts[i] < ts[j])
  {
    var ts := CandidateTimes(dur, count);
    forall i | 0 <= i < |ts|
      ensures 0.0 < ts[i] < dur
    {
      CandidateTimeInside(dur, count, i);
    }
    forall i, j | 0 <= i < j < |ts|
      ensures ts[i] < ts[j]
    {
      CandidateTimeIncreasing(dur, count, i, j);
    }
  }

  /** `cand_{i:03d}.jpg`, counting from 1. */
  function CandidateName(i: int): string {
    "cand_" + FormatInt(i, 3) + ".jpg"
  }

  /** `best_raw_{i:02d}.jpg`, counting from 1. */
  function HighResName(i: nat): string {
    "best_raw_" + FormatInt(i, 2) + ".jpg"
  }

  /**
   * `extract_candidate_thumbs`: ffprobe's duration must be readable and positive, otherwise
   * the run aborts before any frame is extracted; then one 480-pixel frame per candidate
   * time, numbered from 1.
   */
  function ExtractCandidateThumbs(w: World, count: int): (r: Result<seq<Image>, Failure>)
    ensures r.Err? <==> w.duration.None? || w.duration.value <= 0.0
    ensures r.Err? ==> r.error == DurationUnreadable
    ensures r.Ok? ==>
      && |r.value| == NonNeg(count)
      && forall i :: 0 <= i < |r.value| ==>
           r.value[i] == Image(CandidateTimes(w.duration.value, count)[i], CandThumbWidth, CandidateName(i + 1))
  {
    match w.duration
    case None => Err(DurationUnreadable)
    case Some(dur) =>
      if dur <= 0.0 then Err(DurationUnreadable)
      else
        if count <= 0 then Ok([])
        else Ok(seq(count, i => Image(CandidateTime(dur, count, i), CandThumbWidth, CandidateName(i + 1))))
  }

  /** `float(item["time"])`: the item must be a dict holding a convertible "time". */
  function SelectedTime(w: World, item: Value): Option<real> {
    if item.Obj? && Lookup(item.fields, "time").Some? then PyFloat(Lookup(item.fields, "time").value, w.floatOf)
    else None
  }

  /** How a selected item is read into a time, or `None` when it has no usable time. */
  type TimeOf = Value -> Option<real>

  function TimeReader(w: World): TimeOf {
    (item: Value) => SelectedTime(w, item)
  }

  /** The re-extraction loop, from the `i`-th selection on, for any way of reading times and naming files. */
  function ExtractFrom(time: TimeOf, name: nat -> string, selected: seq<Value>, i: nat): Result<seq<Image>, Failure>
    decreases |selected|
  {
    if selected == [] then Ok([])
    else
      match time(selected[0])
      case None => Err(BadTime)
      case Some(t) =>
        match ExtractFrom(time, name, selected[1..], i + 1)
        case Err(e) => Err(e)
        case Ok(rest) => Ok([Image(t, HiresWidth, name(i + 1))] + rest)
  }

  lemma {:induction false} ExtractFromOk(time: TimeOf, name: nat -> string, selected: seq<Value>, i: nat)
    ensures var r := ExtractFrom(time, name, selected, i);
      && (r.Ok? <==> forall k :: 0 <= k < |selected| ==> time(selected[k]).Some?)
      && (r.Err? ==> r.error == BadTime)
    decreases |selected|
  {
    if selected != [] {
      ExtractFromOk(time, name, selected[1..], i + 1);
      assert forall k :: 1 <= k < |selected| ==> selected[k] == selected[1..][k - 1];
    }
  }

  lemma {:induction false} ExtractFromSpec(time: TimeOf, name: nat -> string, selected: seq<Value>, i: nat)
    requires ExtractFrom(time, name, selected, i).Ok?
    ensures var r := ExtractFrom(time, name, selected, i).value;
      && |r| == |selected|
      && forall k :: 0 <= k < |selected| ==>
           time(selected[k]).Some? && r[k] == Image(time(selected[k]).value, HiresWidth, name(i + k + 1))
    decreases |selected|
  {
    if selected != [] {
      var t := time(selected[0]).value;
      var rest := ExtractFrom(time, name, selected[1..], i + 1).value;
      ExtractFromSpec(time, name, selected[1..], i + 1);
      var r := ExtractFrom(time, name, selected, i).value;
      assert r == [Image(t, HiresWidth, name(i + 1))] + rest;
      forall k | 0 <= k < |selected|
        ensures time(selected[k]).Some? && r[k] == Image(time(selected[k]).value, HiresWidth, name(i + k + 1))
      {
        if k > 0 {
          assert selected[k] == selected[1..][k - 1] && r[k] == rest[k - 1];
          assert i + 1 + (k - 1) + 1 == i + k + 1;
        }
      }
    }
  }

  /**
   * `extract_high_res_frames`, from the `i`-th selection on: one 1800-pixel frame per selected
   * item, in selection order; the first item without a usable time aborts.
   */
  function ExtractHighResFrom(w: World, selected: seq<Value>, i: nat): Result<seq<Image>, Failure> {
    ExtractFrom(TimeReader(w), HighResName, selected, i)
  }

  /** Re-extraction succeeds exactly when every selected item names a usable time. */
  lemma ExtractHighResFromOk(w: World, selected: seq<Value>, i: nat)
    ensures var r := ExtractHighResFrom(w, selected, i);
      && (r.Ok? <==> forall k :: 0 <= k < |selected| ==> SelectedTime(w, selected[k]).Some?)
      && (r.Err? ==> r.error == BadTime)
  {
    ExtractFromOk(TimeReader(w), HighResName, selected, i);
    forall k | 0 <= k < |selected|
      ensures TimeReader(w)(selected[k]) == SelectedTime(w, selected[k])
    {
    }
  }

  /**
   * A successful re-extraction yields one frame per item at that item's time, numbered on
   * from `i + 1`.
   */
  lemma ExtractHighResFromSpec(w: World, selected: seq<Value>, i: nat)
    requires ExtractHighResFrom(w, selected, i).Ok?
    ensures var r := ExtractHighResFrom(w, selected, i).value;
      && |r| == |selected|
      && forall k :: 0 <= k < |selected| ==>
           SelectedTime(w, selected[k]).Some? &&
           r[k] == Image(SelectedTime(w, selected[k]).value, HiresWidth, HighResName(i + k + 1))
  {
    ExtractFromSpec(TimeReader(w), HighResName, selected, i);
    forall k | 0 <= k < |selected|
      ensures TimeReader(w)(selected[k]) == SelectedTime(w, selected[k])
    {
    }
  }

  function ExtractHighResFrames(w: World, selected: seq<Value>): Result<seq<Image>, Failure> {
    ExtractHighResFrom(w, selected, 0)
  }

  // ---------------------------------------------------------------------------
  // sec_to_mmss
  // ---------------------------------------------------------------------------

  /** Python's `round(x)`: the nearest integer, ties to the even one. */
  function RoundHalfEven(x: real): (n: int)
    ensures -0.5 <= n as real - x <= 0.5
    ensures (n as real - x == 0.5 || x - n as real == 0.5) ==> n % 2 == 0
  {
    var f := x.Floor;
    var frac := x - f as real;
    if frac < 0.5 then f
    else if frac > 0.5 then f + 1
    else if f % 2 == 0 then f else f + 1
  }

  /** `f"{m:02d}:{s:02d}"` with `m = s // 60` and `s = s % 60`. */
  function Mmss(s: int): string {
    FormatInt(s / 60, 2) + ":" + FormatInt(s % 60, 2)
  }

  /** `sec_to_mmss(sec)`: round to whole seconds, then minutes and seconds. */
  function SecToMmss(sec: real): string {
    Mmss(RoundHalfEven(sec))
  }

  /** Reads `MM:SS` back: the digits before the first ':' are minutes, the rest seconds. */
  function ParseMmss(r: string): Option<int> {
    var k := Find(r, ':');
    if k < 0 then None
    else if !AllDigits(r[..k]) || !AllDigits(r[k + 1..]) then None
    else Some(60 * ValueOf(r[..k]) + ValueOf(r[k + 1..]))
  }

  predicate AllDigits(s: string) {
    forall i :: 0 <= i < |s| ==> IsDigit(s[i])
  }

  /**
   * For a non-negative number of seconds the label has a two-digit seconds field below 60
   * and denotes exactly that many seconds.
   */
  lemma MmssRoundTrip(s: nat)
    ensures var r := Mmss(s);
      && |r| >= 5 && r[|r| - 3] == ':' && ValueOf(r[|r| - 2..]) < 60
      && ParseMmss(r) == Some(s)
  {
    var mm := ZeroPad(s / 60, 2);
    var ss := ZeroPad(s % 60, 2);
    assert Mmss(s) == mm + ":" + ss;
    ZeroPadTwoDigits(s % 60);
    ZeroPadRoundTrip(s / 60, 2);
    ZeroPadRoundTrip(s % 60, 2);
    ParseJoined(mm, ss);
    MinutesAndSeconds(s);
  }

  lemma MinutesAndSeconds(s: nat)
    ensures 60 * (s / 60) + s % 60 == s && s % 60 < 60
  {
  }

  /** Two digit fields joined by ':' read back as minutes and seconds. */
  lemma ParseJoined(mm: string, ss: string)
    requires |mm| >= 2 && |ss| == 2
    requires AllDigits(mm) && AllDigits(ss)
    ensures var r := mm + ":" + ss;
      && |r| >= 5 && r[|r| - 3] == ':' && r[|r| - 2..] == ss
      && ParseMmss(r) == Some(60 * ValueOf(mm) + ValueOf(ss))
  {
    var r := mm + ":" + ss;
    ColonAfter(mm, ss);
    assert r[..|mm|] == mm;
    assert r[|mm| + 1..] == ss;
    ParseFields(r, |mm|, mm, ss);
    assert r[|r| - 2..] == ss;
  }

  lemma ParseFields(r: string, k: nat, mm: string, ss: string)
    requires k < |r| && Find(r, ':') == k && r[..k] == mm && r[k + 1..] == ss
    requires AllDigits(mm) && AllDigits(ss)
    ensures ParseMmss(r) == Some(60 * ValueOf(mm) + ValueOf(ss))
  {
  }

  /** The first ':' of a joined label is the one after the minutes. */
  lemma ColonAfter(mm: string, ss: string)
    requires AllDigits(mm)
    ensures Find(mm + ":" + ss, ':') == |mm|
  {
    var r := mm + ":" + ss;
    var k := |mm|;
    assert r[k] == ':';
    FindIsFirst(r, ':', k);
    assert r[..k] == mm;
    assert ':' !in mm by {
      forall i | 0 <= i < k ensures mm[i] != ':' { assert IsDigit(mm[i]); }
    }
  }

  /** Whole seconds survive the rounding: `sec_to_mmss` of `s` seconds reads back as `s`. */
  lemma SecToMmssWholeSeconds(s: nat)
    ensures ParseMmss(SecToMmss(s as real)) == Some(s)
  {
    assert RoundHalfEven(s as real) == s;
    MmssRoundTrip(s);
  }
}
