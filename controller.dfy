/**
 * `build_verified_screenshots`: try the candidate counts 36, 60 and 90 in turn and return
 * the first tier whose verified list is long enough; and the fallback diagram `main`
 * adds in pdfmaker.py when that list is short.
 */
module Controller {
  import opened Wrappers
  import opened Json
  import opened Oracles
  import opened Sampling
  import opened Selection
  import opened Verify

  /** `CANDIDATE_COUNTS_TRY`. */
  const CandidateCountsTry: seq<int> := [36, 60, 90]
  /** `PICK_REQUEST`. */
  const PickRequest := 18
  /** `FINAL_KEEP_TARGET`. */
  const FinalKeepTarget := 12
  /** `MIN_KEEP_OK`. */
  const MinKeepOk := 4

  /** How one tier ended when nothing raised: no selection at all, or the verified list. */
  datatype TierResult = NoPick | Verified(shots: seq<Visual>)

  /** A `scored` entry of pdfmaker_ibm.py as the dict `extract_high_res_frames` reads. */
  function ScoredAsValue(s: Scored): Value {
    Obj([("time", Num(s.time)), ("hint", Str(s.hint)), ("score", Num(s.score))])
  }

  function ScoredAsValues(picked: seq<Scored>): (r: seq<Value>)
    ensures |r| == |picked| && forall i :: 0 <= i < |r| ==> r[i] == ScoredAsValue(picked[i])
  {
    if picked == [] then [] else [ScoredAsValue(picked[0])] + ScoredAsValues(picked[1..])
  }

  /** The selection step of a tier: the selected items, `[]` meaning none. */
  function Selected(v: Variant, w: World, transcript: string, candidates: seq<Image>): Result<seq<Value>, Failure> {
    match v
    case OpenAi => PickBestFramesOpenAi(w, transcript, candidates, PickRequest)
    case Watsonx => Ok(ScoredAsValues(Picked(w, transcript, candidates, PickRequest)))
  }

  /**
   * One pass of the tier loop with `count` candidates: an error in extraction or selection
   * aborts it, an empty selection ends it with nothing to verify, and a verified list holds at
   * most `FINAL_KEEP_TARGET` screenshots numbered from 1.
   */
  function Tier(v: Variant, w: World, transcript: string, count: int): (r: Result<TierResult, Failure>)
    ensures ExtractCandidateThumbs(w, count).Err? ==> r == Err(ExtractCandidateThumbs(w, count).error)
    ensures ExtractCandidateThumbs(w, count).Ok? ==>
      var selected := Selected(v, w, transcript, ExtractCandidateThumbs(w, count).value);
      && (selected.Err? ==> r == Err(selected.error))
      && (r == Ok(NoPick) <==> selected == Ok([]))
      && (selected.Ok? && selected.value != [] ==>
            var raw := ExtractHighResFrames(w, selected.value);
            && (raw.Err? ==> r == Err(raw.error))
            && (raw.Ok? ==>
                  var verified := VerifyFrom(Stepper(v, w), raw.value, FinalKeepTarget, []);
                  && (verified.Err? ==> r == Err(verified.error))
                  && (verified.Ok? ==> r == Ok(Verified(verified.value)))))
    ensures r.Ok? && r.value.Verified? ==>
      && |r.value.shots| <= FinalKeepTarget
      && forall i :: 0 <= i < |r.value.shots| ==> r.value.shots[i].image == AnnotatedName(i + 1)
  {
    match ExtractCandidateThumbs(w, count)
    case Err(e) => Err(e)
    case Ok(candidates) =>
      match Selected(v, w, transcript, candidates)
      case Err(e) => Err(e)
      case Ok(picked) =>
        if picked == [] then Ok(NoPick)
        else
          match ExtractHighResFrames(w, picked)
          case Err(e) => Err(e)
          case Ok(raw) =>
            match VerifyFrom(Stepper(v, w), raw, FinalKeepTarget, [])
            case Err(e) => Err(e)
            case Ok(verified) =>
              VerifiedSpec(v, w, raw, FinalKeepTarget);
              Ok(Verified(verified))
  }

  /** A tier that ended without raising and without enough verified screenshots. */
  predicate Insufficient(t: Result<TierResult, Failure>) {
    t == Ok(NoPick) || (t.Ok? && t.value.Verified? && |t.value.shots| < MinKeepOk)
  }

  /** A tier as the loop sees it: candidate count to outcome. */
  type TierRun = int -> Result<TierResult, Failure>

  function TierOf(v: Variant, w: World, transcript: string): TierRun {
    (count: int) => Tier(v, w, transcript, count)
  }

  /** The tier loop over `counts`: the first sufficient tier wins, an error aborts, and none gives `[]`. */
  function Tiers(tier: TierRun, counts: seq<int>): Result<seq<Visual>, Failure>
    decreases |counts|
  {
    if counts == [] then Ok([])
    else
      var t := tier(counts[0]);
      if t.Err? then Err(t.error)
      else if Insufficient(t) then Tiers(tier, counts[1..])
      else Ok(t.value.shots)
  }

  /**
   * The tier loop returns the list of the first tier, in the order given, that verified at
   * least `MIN_KEEP_OK` screenshots, after every earlier tier fell short; when every tier falls
   * short it returns `[]`, not the last partial list; an error in a tier aborts it.
   */
  lemma {:induction false} TiersSpec(tier: TierRun, counts: seq<int>)
    ensures var r := Tiers(tier, counts);
      r.Ok? && r.value != [] ==>
        && |r.value| >= MinKeepOk
        && exists k :: 0 <= k < |counts| && tier(counts[k]) == Ok(Verified(r.value))
             && forall j :: 0 <= j < k ==> Insufficient(tier(counts[j]))
    ensures Tiers(tier, counts) == Ok([]) <==> forall j :: 0 <= j < |counts| ==> Insufficient(tier(counts[j]))
    ensures var r := Tiers(tier, counts);
      r.Err? ==> exists k :: 0 <= k < |counts| && tier(counts[k]) == Err(r.error)
    decreases |counts|
  {
    if counts != [] {
      TiersSpec(tier, counts[1..]);
      var r := Tiers(tier, counts);
      var t := tier(counts[0]);
      assert forall j :: 0 <= j < |counts| - 1 ==> counts[1..][j] == counts[j + 1];
      if t.Err? || !Insufficient(t) {
        assert !Insufficient(tier(counts[0]));
        if t.Ok? {
          assert t.value.Verified? && r == Ok(t.value.shots);
          assert tier(counts[0]) == Ok(Verified(r.value));
        }
      } else {
        assert (forall j :: 0 <= j < |counts| ==> Insufficient(tier(counts[j])))
          <==> (forall j :: 0 <= j < |counts| - 1 ==> Insufficient(tier(counts[1..][j])));
      }
      if t.Ok? && Insufficient(t) && r.Ok? && r.value != [] {
        var k :| 0 <= k < |counts| - 1 && tier(counts[1..][k]) == Ok(Verified(r.value))
                 && forall j :: 0 <= j < k ==> Insufficient(tier(counts[1..][j]));
        assert tier(counts[k + 1]) == Ok(Verified(r.value));
        forall j | 0 <= j < k + 1
          ensures Insufficient(tier(counts[j]))
        {
          if j > 0 {
            assert counts[j] == counts[1..][j - 1];
          }
        }
      }
      if t.Ok? && Insufficient(t) && r.Err? {
        var k :| 0 <= k < |counts| - 1 && tier(counts[1..][k]) == Err(r.error);
        assert tier(counts[k + 1]) == Err(r.error);
      }
    }
  }

  /** The body of the tier loop: extract, select, and re-extract and verify when something was selected. */
  method RunTier(v: Variant, w: World, transcript: string, count: int) returns (r: Result<TierResult, Failure>)
    ensures r == Tier(v, w, transcript, count)
  {
    var candidates := ExtractCandidateThumbs(w, count);
    if candidates.Err? {
      return Err(candidates.error);
    }
    var picked: seq<Value>;
    if v == OpenAi {
      var selection := PickBestFramesOpenAi(w, transcript, candidates.value, PickRequest);
      if selection.Err? {
        return Err(selection.error);
      }
      picked := selection.value;
    } else {
      var scored := PickBestFramesWatsonx(w, transcript, candidates.value, PickRequest);
      picked := ScoredAsValues(scored);
    }
    if picked == [] {
      return Ok(NoPick);
    }
    var raw := ExtractHighResFrames(w, picked);
    if raw.Err? {
      return Err(raw.error);
    }
    var verified, _ := VerifyAndAnnotateFrames(v, w, raw.value, FinalKeepTarget);
    if verified.Err? {
      return Err(verified.error);
    }
    return Ok(Verified(verified.value));
  }

  /** `build_verified_screenshots`. */
  method BuildVerifiedScreenshots(v: Variant, w: World, transcript: string) returns (r: Result<seq<Visual>, Failure>)
    ensures r == Tiers(TierOf(v, w, transcript), CandidateCountsTry)
    ensures r.Ok? ==> r.value == [] || |r.value| >= MinKeepOk
  {
    var tier := TierOf(v, w, transcript);
    TiersSpec(tier, CandidateCountsTry);
    var counts := CandidateCountsTry;
    var i := 0;
    while i < |counts|
      invariant 0 <= i <= |counts|
      invariant Tiers(tier, counts) == Tiers(tier, counts[i..])
    {
      var t := RunTier(v, w, transcript, counts[i]);
      assert tier(counts[i]) == t;
      assert counts[i..][0] == counts[i] && counts[i..][1..] == counts[i + 1..];
      if t.Err? {
        return Err(t.error);
      }
      if t.value.Verified? && |t.value.shots| >= MinKeepOk {
        return Ok(t.value.shots);
      }
      i := i + 1;
    }
    return Ok([]);
  }

  const FallbackTitle: string := "ERD Example: Customers → Orders"
  const FallbackCaption: string := "A simple ER diagram showing a one-to-many relationship."
  const FallbackExplain: string := "A primary key (PK) uniquely identifies rows in a table. A foreign key (FK) stores the PK from another table to create a relationship."

  /** The one generated ERD diagram of `make_fallback_diagrams`, as its returned metadata. */
  function FallbackDiagrams(): (r: seq<Visual>)
    ensures |r| == 1 && r[0].timeSec.None? && r[0].time == "N/A" && r[0].marks == []
  {
    [Visual(None, "N/A", "fallback_erd.jpg", Str(FallbackTitle), Str(FallbackCaption), Str(FallbackExplain), [])]
  }

  /** The screenshot list `main` hands to the PDF: pdfmaker.py extends a short list with the fallback, pdfmaker_ibm.py never does. */
  method WithFallback(v: Variant, shots: seq<Visual>) returns (r: seq<Visual>)
    ensures v == OpenAi && |shots| < MinKeepOk ==> r == shots + FallbackDiagrams()
    ensures v == Watsonx || |shots| >= MinKeepOk ==> r == shots
  {
    r := shots;
    if v == OpenAi && |r| < MinKeepOk {
      r := r + FallbackDiagrams();
    }
  }

  /**
   * What the PDF receives from a run that did not abort: in pdfmaker.py either a verified list
   * of at least four screenshots or the fallback diagram alone; in pdfmaker_ibm.py either such
   * a list or nothing at all.
   */
  lemma ScreenshotsForPdf(v: Variant, w: World, transcript: string, shots: seq<Visual>)
    requires Tiers(TierOf(v, w, transcript), CandidateCountsTry) == Ok(shots)
    ensures v == OpenAi ==> |shots| >= MinKeepOk || shots + FallbackDiagrams() == FallbackDiagrams()
    ensures v == Watsonx ==> |shots| >= MinKeepOk || shots == []
  {
    TiersSpec(TierOf(v, w, transcript), CandidateCountsTry);
  }
}
