/**
 * `verify_and_annotate_frames`: ask the model about each re-extracted frame in turn, drop
 * the ones it marks `skip`, annotate and number the others, and stop as soon as
 * `keep_target` frames are kept.
 */
module Verify {
  import opened Wrappers
  import opened PyText
  import opened Json
  import opened Oracles
  import opened TolerantParse
  import opened Sampling
  import opened Arrows

  /**
   * One entry of the screenshot list: `time_sec`, `time`, `image_path` (a file name here),
   * `title`, `caption` and `explain_like_student`, plus the arrows drawn into the image.
   */
  datatype Visual = Visual(timeSec: Option<real>, time: string, image: string,
                           title: Value, caption: Value, explain: Value, marks: seq<Mark>)

  /** The model's answer about one frame, once it has been read. */
  datatype Verdict = Keep(meta: seq<(string, Value)>) | Skip

  function IsSkipped(meta: seq<(string, Value)>): bool {
    Truthy(Get(meta, "skip", Bool(false)))
  }

  /**
   * pdfmaker.py: the reply must be JSON and an object, otherwise the run aborts; an object
   * with a truthy "skip" skips the frame, any other object keeps it with its fields.
   */
  function JudgeOpenAi(w: World, frame: Image): (r: Result<Verdict, Failure>)
    ensures Call(OpenAi, w, VerifyFrame(frame)).Err? ==> r == Err(Call(OpenAi, w, VerifyFrame(frame)).error)
    ensures var reply := Call(OpenAi, w, VerifyFrame(frame));
      && (r == Err(MalformedJson) <==> reply.Ok? && w.jsonLoads(reply.value).None?)
      && (r == Err(NotADict) <==> reply.Ok? && w.jsonLoads(reply.value).Some? && !w.jsonLoads(reply.value).value.Obj?)
      && (r == Ok(Skip) <==> reply.Ok? && w.jsonLoads(reply.value).Some? && w.jsonLoads(reply.value).value.Obj?
                             && IsSkipped(w.jsonLoads(reply.value).value.fields))
      && (r.Ok? && r.value.Keep? <==> reply.Ok? && w.jsonLoads(reply.value).Some? && w.jsonLoads(reply.value).value.Obj?
                                       && !IsSkipped(w.jsonLoads(reply.value).value.fields))
      && (r.Ok? && r.value.Keep? ==> r.value.meta == w.jsonLoads(reply.value).value.fields)
  {
    match Call(OpenAi, w, VerifyFrame(frame))
    case Err(e) => Err(e)
    case Ok(text) =>
      match w.jsonLoads(text)
      case None => Err(MalformedJson)
      case Some(meta) =>
        if !meta.Obj? then Err(NotADict)
        else if IsSkipped(meta.fields) then Ok(Skip)
        else Ok(Keep(meta.fields))
  }

  /**
   * pdfmaker_ibm.py: a failed call or parse aborts, but a reply that is not an object only
   * skips the frame, as does one with a truthy "skip"; any other object keeps the frame.
   */
  function JudgeWatsonx(w: World, frame: Image): (r: Result<Verdict, Failure>)
    ensures Call(Watsonx, w, VerifyFrame(frame)).Err? ==> r == Err(Call(Watsonx, w, VerifyFrame(frame)).error)
    ensures var reply := Call(Watsonx, w, VerifyFrame(frame));
      reply.Ok? ==>
        var parsed := ParseJsonStrict(w, reply.value).result;
        && (parsed.Err? ==> r == Err(parsed.error))
        && (r == Ok(Skip) <==> parsed.Ok? && (!parsed.value.Obj? || IsSkipped(parsed.value.fields)))
        && (r.Ok? && r.value.Keep? <==> parsed.Ok? && parsed.value.Obj? && !IsSkipped(parsed.value.fields))
        && (r.Ok? && r.value.Keep? ==> r.value.meta == parsed.value.fields)
  {
    match Call(Watsonx, w, VerifyFrame(frame))
    case Err(e) => Err(e)
    case Ok(out) =>
      match ParseJsonStrict(w, out).result
      case Err(e) => Err(e)
      case Ok(meta) =>
        if !meta.Obj? then Ok(Skip)
        else if IsSkipped(meta.fields) then Ok(Skip)
        else Ok(Keep(meta.fields))
  }

  function Judge(v: Variant, w: World, frame: Image): Result<Verdict, Failure> {
    match v
    case OpenAi => JudgeOpenAi(w, frame)
    case Watsonx => JudgeWatsonx(w, frame)
  }

  /**
   * A reply that parses to something other than an object aborts pdfmaker.py (`meta.get`
   * raises) and merely skips the frame in pdfmaker_ibm.py.
   */
  lemma NonObjectReply(w: World, frame: Image, text: string, a: Value, b: Value)
    requires Call(OpenAi, w, VerifyFrame(frame)) == Ok(text) && Call(Watsonx, w, VerifyFrame(frame)) == Ok(text)
    requires w.jsonLoads(text) == Some(a) && !a.Obj?
    requires w.jsonLoads(Cleaned(Strip(text))) == Some(b) && !b.Obj?
    ensures JudgeOpenAi(w, frame) == Err(NotADict)
    ensures JudgeWatsonx(w, frame) == Ok(Skip)
  {
    assert ParseJsonStrict(w, text).result == Ok(b);
  }

  /** `best_annot_{n:02d}.jpg`. */
  function AnnotatedName(n: int): string {
    "best_annot_" + FormatInt(n, 2) + ".jpg"
  }

  /**
   * Annotate a kept frame as the `n`-th result: draw its arrows into the frame, then record
   * its time, label and image name; a missing title becomes "Screenshot", a missing caption
   * or explanation the empty string.
   */
  function Annotate(v: Variant, w: World, frame: Image, meta: seq<(string, Value)>, n: nat): (r: Result<Visual, Failure>)
    ensures var arrows := Get(meta, "arrows", Arr([]));
      var marks := if v == OpenAi then MarksOpenAi(w, arrows, w.frameSize(frame)) else MarksWatsonx(w, arrows, w.frameSize(frame));
      && (r.Ok? <==> marks.Ok?)
      && (r.Ok? ==> r.value.marks == marks.value)
      && (r.Err? ==> r.error == marks.error)
    ensures r.Ok? ==> r.value.image == AnnotatedName(n) && r.value.timeSec == Some(frame.time)
    ensures r.Ok? ==> r.value.time == SecToMmss(frame.time) && |r.value.marks| <= MaxArrows
    ensures r.Ok? && Lookup(meta, "title").None? ==> r.value.title == Str("Screenshot")
    ensures r.Ok? && Lookup(meta, "title").Some? ==> r.value.title == Lookup(meta, "title").value
    ensures r.Ok? ==> r.value.caption == (if Lookup(meta, "caption").Some? then Lookup(meta, "caption").value else Str(""))
    ensures r.Ok? ==> r.value.explain == (if Lookup(meta, "explain_like_student").Some? then Lookup(meta, "explain_like_student").value else Str(""))
  {
    var arrows := Get(meta, "arrows", Arr([]));
    var size := w.frameSize(frame);
    var marks := if v == OpenAi then MarksOpenAi(w, arrows, size) else MarksWatsonx(w, arrows, size);
    match marks
    case Err(e) => Err(e)
    case Ok(ms) =>
      Ok(Visual(Some(frame.time), SecToMmss(frame.time), AnnotatedName(n),
                Get(meta, "title", Str("Screenshot")), Get(meta, "caption", Str("")),
                Get(meta, "explain_like_student", Str("")), ms))
  }

  /**
   * One turn of the loop for the `n`-th result to come: `None` when the frame is skipped,
   * the annotated entry when it is kept.
   */
  function FrameStep(v: Variant, w: World, frame: Image, n: nat): (r: Result<Option<Visual>, Failure>)
    ensures r == Ok(None) <==> Judge(v, w, frame) == Ok(Skip)
    ensures Judge(v, w, frame).Err? ==> r == Err(Judge(v, w, frame).error)
    ensures Judge(v, w, frame).Ok? && Judge(v, w, frame).value.Keep? ==>
      var annotated := Annotate(v, w, frame, Judge(v, w, frame).value.meta, n);
      && (annotated.Ok? ==> r == Ok(Some(annotated.value)))
      && (annotated.Err? ==> r == Err(annotated.error))
    ensures r.Ok? && r.value.Some? ==> r.value.value.image == AnnotatedName(n)
  {
    match Judge(v, w, frame)
    case Err(e) => Err(e)
    case Ok(Skip) => Ok(None)
    case Ok(Keep(meta)) =>
      match Annotate(v, w, frame, meta, n)
      case Err(e) => Err(e)
      case Ok(vis) => Ok(Some(vis))
  }

  /** A per-frame step, as the loop below sees it. */
  type Step = (Image, nat) -> Result<Option<Visual>, Failure>

  function Stepper(v: Variant, w: World): Step {
    (frame: Image, n: nat) => FrameStep(v, w, frame, n)
  }

  /** The loop has not stopped yet: nothing kept, or fewer than `keep_target`. */
  predicate Open(acc: seq<Visual>, keep: int) {
    acc == [] || |acc| < keep
  }

  /** The verify loop from some point on, with `acc` kept so far. */
  function VerifyFrom(step: Step, frames: seq<Image>, keep: int, acc: seq<Visual>): Result<seq<Visual>, Failure>
    decreases |frames|
  {
    if frames == [] then Ok(acc)
    else
      match step(frames[0], |acc| + 1)
      case Err(e) => Err(e)
      case Ok(None) => VerifyFrom(step, frames[1..], keep, acc)
      case Ok(Some(vis)) =>
        var acc' := acc + [vis];
        if |acc'| >= keep then Ok(acc') else VerifyFrom(step, frames[1..], keep, acc')
  }

  /** Running the loop over `a + b` is running it over `a` and, unless that stopped, going on over `b`. */
  lemma {:induction false} VerifyFromAppend(step: Step, a: seq<Image>, b: seq<Image>, keep: int, acc: seq<Visual>)
    requires Open(acc, keep)
    ensures VerifyFrom(step, a + b, keep, acc) ==
      match VerifyFrom(step, a, keep, acc)
      case Err(e) => Err(e)
      case Ok(res) => if Open(res, keep) then VerifyFrom(step, b, keep, res) else Ok(res)
    decreases |a|
  {
    if a == [] {
      assert a + b == b;
    } else {
      assert (a + b)[0] == a[0] && (a + b)[1..] == a[1..] + b;
      match step(a[0], |acc| + 1)
      case Err(e) =>
      case Ok(None) =>
        VerifyFromAppend(step, a[1..], b, keep, acc);
      case Ok(Some(vis)) =>
        if |acc + [vis]| < keep {
          VerifyFromAppend(step, a[1..], b, keep, acc + [vis]);
        }
    }
  }

  /** The body of the loop for one frame: ask, read the verdict, annotate a kept frame. */
  method VisitFrame(v: Variant, w: World, frame: Image, n: nat) returns (r: Result<Option<Visual>, Failure>)
    ensures r == FrameStep(v, w, frame, n) == Stepper(v, w)(frame, n)
  {
    var verdict := Judge(v, w, frame);
    if verdict.Err? {
      return Err(verdict.error);
    }
    if verdict.value.Skip? {
      return Ok(None);
    }
    var annotated := Annotate(v, w, frame, verdict.value.meta, n);
    if annotated.Err? {
      return Err(annotated.error);
    }
    return Ok(Some(annotated.value));
  }

  /**
   * `verify_and_annotate_frames`. Besides the list it returns how many frames it asked about:
   * the result depends on those frames only, and it stops before the end only on an error
   * or once `keep_target` frames are kept.
   */
  method VerifyAndAnnotateFrames(v: Variant, w: World, frames: seq<Image>, keep: int) returns (r: Result<seq<Visual>, Failure>, queried: nat)
    ensures r == VerifyFrom(Stepper(v, w), frames, keep, [])
    ensures queried <= |frames| && r == VerifyFrom(Stepper(v, w), frames[..queried], keep, [])
    ensures queried < |frames| ==> r.Err? || !Open(r.value, keep)
  {
    var step := Stepper(v, w);
    var results: seq<Visual> := [];
    var i := 0;
    while i < |frames|
      invariant 0 <= i <= |frames|
      invariant Open(results, keep)
      invariant VerifyFrom(step, frames, keep, []) == VerifyFrom(step, frames[i..], keep, results)
      invariant VerifyFrom(step, frames[..i], keep, []) == Ok(results)
    {
      var frame := frames[i];
      var outcome := VisitFrame(v, w, frame, |results| + 1);
      VerifyOnce(step, frames, i, keep, results, outcome);
      if outcome.Err? {
        return Err(outcome.error), i + 1;
      }
      if outcome.value.None? {
        i := i + 1;
        continue;
      }
      results := results + [outcome.value.value];
      i := i + 1;
      if |results| >= keep {
        return Ok(results), i;
      }
    }
    assert frames[i..] == [] && frames[..i] == frames;
    return Ok(results), i;
  }

  /** One more turn of the loop, seen from the start and from the current frame, for each verdict. */
  lemma VerifyOnce(step: Step, frames: seq<Image>, i: nat, keep: int, results: seq<Visual>, next: Result<Option<Visual>, Failure>)
    requires i < |frames| && Open(results, keep)
    requires VerifyFrom(step, frames[..i], keep, []) == Ok(results)
    requires VerifyFrom(step, frames, keep, []) == VerifyFrom(step, frames[i..], keep, results)
    requires next == step(frames[i], |results| + 1)
    ensures next.Err? ==>
      VerifyFrom(step, frames, keep, []) == Err(next.error) == VerifyFrom(step, frames[..i + 1], keep, [])
    ensures next == Ok(None) ==>
      && VerifyFrom(step, frames[..i + 1], keep, []) == Ok(results)
      && VerifyFrom(step, frames, keep, []) == VerifyFrom(step, frames[i + 1..], keep, results)
    ensures next.Ok? && next.value.Some? ==>
      var acc := results + [next.value.value];
      && VerifyFrom(step, frames[..i + 1], keep, []) == Ok(acc)
      && (|acc| >= keep ==> VerifyFrom(step, frames, keep, []) == Ok(acc))
      && (|acc| < keep ==> VerifyFrom(step, frames, keep, []) == VerifyFrom(step, frames[i + 1..], keep, acc))
  {
    assert frames[..i + 1] == frames[..i] + [frames[i]];
    VerifyFromAppend(step, frames[..i], [frames[i]], keep, []);
    assert frames[i..][0] == frames[i] && frames[i..][1..] == frames[i + 1..];
    assert [frames[i]][1..] == [];
  }

  /** The frames kept with no early exit at all, numbered from `n`. */
  function AllKept(step: Step, frames: seq<Image>, n: nat): Result<seq<Visual>, Failure>
    decreases |frames|
  {
    if frames == [] then Ok([])
    else
      match step(frames[0], n)
      case Err(e) => Err(e)
      case Ok(None) => AllKept(step, frames[1..], n)
      case Ok(Some(vis)) =>
        match AllKept(step, frames[1..], n + 1)
        case Err(e) => Err(e)
        case Ok(rest) => Ok([vis] + rest)
  }

  /** How many frames the loop asks about before it returns. */
  function Queried(step: Step, frames: seq<Image>, keep: int, acc: seq<Visual>): nat
    decreases |frames|
  {
    if frames == [] then 0
    else
      match step(frames[0], |acc| + 1)
      case Err(_) => 1
      case Ok(None) => 1 + Queried(step, frames[1..], keep, acc)
      case Ok(Some(vis)) =>
        if |acc| + 1 >= keep then 1 else 1 + Queried(step, frames[1..], keep, acc + [vis])
  }

  function MaxInt(a: int, b: int): int { if a >= b then a else b }

  lemma ConsPrefix(frames: seq<Image>, q: nat)
    requires frames != [] && q < |frames|
    ensures frames[..q + 1][0] == frames[0] && frames[..q + 1][1..] == frames[1..][..q]
  {
  }

  /**
   * The loop returns exactly the first kept frames, in frame order: over the frames it asked
   * about, the result adds to what was kept before every frame the model kept, with nothing
   * dropped, and it leaves frames unasked only once `keep_target` entries are kept.
   */
  lemma {:induction false} VerifyKeepsFirst(step: Step, frames: seq<Image>, keep: int, acc: seq<Visual>)
    requires Open(acc, keep)
    requires VerifyFrom(step, frames, keep, acc).Ok?
    ensures KeepsFirst(step, frames, keep, acc)
    decreases |frames|
  {
    if frames == [] {
      assert frames[..0] == [];
      assert acc[..|acc|] == acc && acc[|acc|..] == [];
    } else {
      var s := step(frames[0], |acc| + 1);
      if s == Ok(None) {
        VerifyKeepsFirst(step, frames[1..], keep, acc);
        KeepsFirstSkip(step, frames, keep, acc);
      } else if |acc| + 1 >= keep {
        KeepsFirstLast(step, frames, keep, acc);
      } else {
        VerifyKeepsFirst(step, frames[1..], keep, acc + [s.value.value]);
        KeepsFirstKept(step, frames, keep, acc);
      }
    }
  }

  /** The statement of `VerifyKeepsFirst`. */
  predicate KeepsFirst(step: Step, frames: seq<Image>, keep: int, acc: seq<Visual>)
    requires VerifyFrom(step, frames, keep, acc).Ok?
  {
    var res := VerifyFrom(step, frames, keep, acc).value;
    var q := Queried(step, frames, keep, acc);
    && q <= |frames| && |acc| <= |res| && res[..|acc|] == acc
    && AllKept(step, frames[..q], |acc| + 1) == Ok(res[|acc|..])
    && (q < |frames| ==> !Open(res, keep))
  }

  lemma KeepsFirstSkip(step: Step, frames: seq<Image>, keep: int, acc: seq<Visual>)
    requires frames != [] && step(frames[0], |acc| + 1) == Ok(None)
    requires VerifyFrom(step, frames[1..], keep, acc).Ok? && KeepsFirst(step, frames[1..], keep, acc)
    ensures VerifyFrom(step, frames, keep, acc).Ok? && KeepsFirst(step, frames, keep, acc)
  {
    var q := Queried(step, frames[1..], keep, acc);
    ConsPrefix(frames, q);
  }

  lemma KeepsFirstLast(step: Step, frames: seq<Image>, keep: int, acc: seq<Visual>)
    requires frames != [] && |acc| + 1 >= keep
    requires step(frames[0], |acc| + 1).Ok? && step(frames[0], |acc| + 1).value.Some?
    ensures VerifyFrom(step, frames, keep, acc).Ok? && KeepsFirst(step, frames, keep, acc)
  {
    var vis := step(frames[0], |acc| + 1).value.value;
    var res := acc + [vis];
    assert frames[..1] == [frames[0]] && frames[..1][1..] == [];
    assert AllKept(step, frames[..1][1..], |acc| + 2) == Ok([]);
    assert [vis] + [] == [vis];
    assert res[..|acc|] == acc && res[|acc|..] == [vis];
  }

  lemma KeepsFirstKept(step: Step, frames: seq<Image>, keep: int, acc: seq<Visual>)
    requires frames != [] && |acc| + 1 < keep
    requires step(frames[0], |acc| + 1).Ok? && step(frames[0], |acc| + 1).value.Some?
    requires var acc' := acc + [step(frames[0], |acc| + 1).value.value];
      VerifyFrom(step, frames[1..], keep, acc').Ok? && KeepsFirst(step, frames[1..], keep, acc')
    ensures VerifyFrom(step, frames, keep, acc).Ok? && KeepsFirst(step, frames, keep, acc)
  {
    var vis := step(frames[0], |acc| + 1).value.value;
    var acc' := acc + [vis];
    var res := VerifyFrom(step, frames[1..], keep, acc').value;
    var q := Queried(step, frames[1..], keep, acc');
    ConsPrefix(frames, q);
    assert res[..|acc|] == res[..|acc'|][..|acc|];
    assert res[|acc|..] == [vis] + res[|acc'|..];
  }

  /** Every frame a step keeps as the `n`-th result is named `best_annot_{n:02d}.jpg`. */
  ghost predicate NamesKept(step: Step) {
    forall f, n: nat :: step(f, n).Ok? && step(f, n).value.Some? ==> step(f, n).value.value.image == AnnotatedName(n)
  }

  lemma StepperNamesKept(v: Variant, w: World)
    ensures NamesKept(Stepper(v, w))
  {
    forall f, n: nat ensures var s := Stepper(v, w)(f, n); s.Ok? && s.value.Some? ==> s.value.value.image == AnnotatedName(n) {
      assert Stepper(v, w)(f, n) == FrameStep(v, w, f, n);
    }
  }

  /** Entries named `best_annot_01.jpg`, `best_annot_02.jpg`, … in order. */
  predicate Numbered(acc: seq<Visual>) {
    forall i :: 0 <= i < |acc| ==> acc[i].image == AnnotatedName(i + 1)
  }

  lemma NumberedAppend(acc: seq<Visual>, vis: Visual)
    requires Numbered(acc) && vis.image == AnnotatedName(|acc| + 1)
    ensures Numbered(acc + [vis])
  {
  }

  /**
   * For any step that names kept frames by their number, from a numbered list that has not
   * reached the target: at most `keep_target` results (one when the target is below 1), still
   * numbered from 1 in order.
   */
  lemma {:induction false} VerifyNumbered(step: Step, frames: seq<Image>, keep: int, acc: seq<Visual>)
    requires NamesKept(step) && Open(acc, keep) && Numbered(acc)
    requires VerifyFrom(step, frames, keep, acc).Ok?
    ensures var res := VerifyFrom(step, frames, keep, acc).value;
      |res| <= MaxInt(keep, 1) && Numbered(res)
    decreases |frames|
  {
    if frames != [] {
      var s := step(frames[0], |acc| + 1);
      if s == Ok(None) {
        VerifyNumbered(step, frames[1..], keep, acc);
      } else {
        var vis := s.value.value;
        NumberedAppend(acc, vis);
        if |acc| + 1 < keep {
          VerifyNumbered(step, frames[1..], keep, acc + [vis]);
        }
      }
    }
  }

  /**
   * What `verify_and_annotate_frames` promises: at most `keep_target` results (one when the
   * target is below 1), named `best_annot_01.jpg`, `best_annot_02.jpg`, … in order.
   */
  lemma VerifiedSpec(v: Variant, w: World, frames: seq<Image>, keep: int)
    requires VerifyFrom(Stepper(v, w), frames, keep, []).Ok?
    ensures var res := VerifyFrom(Stepper(v, w), frames, keep, []).value;
      && |res| <= MaxInt(keep, 1)
      && forall i :: 0 <= i < |res| ==> res[i].image == AnnotatedName(i + 1)
  {
    StepperNamesKept(v, w);
    VerifyNumbered(Stepper(v, w), frames, keep, []);
  }
}
