/**
 * `main`: check the tools and the inputs, build the verified screenshots, add the fallback
 * diagram where pdfmaker.py does, write the notes, and lay out the PDF. The transcript text
 * is what `read_text` returns; the directories `ensure_dirs` creates are not modelled.
 */
module Pipeline {
  import opened Wrappers
  import opened Json
  import opened Oracles
  import opened Verify
  import opened Notes
  import opened Controller
  import opened Layout
  import opened Pdf

  /** The screenshots `main` passes to `generate_pdf`. */
  function Screenshots(v: Variant, w: World, transcript: string): (r: Result<seq<Visual>, Failure>)
    ensures r.Ok? && v == OpenAi ==> |r.value| >= MinKeepOk || r.value == FallbackDiagrams()
    ensures r.Ok? && v == Watsonx ==> |r.value| >= MinKeepOk || r.value == []
  {
    var shots := Tiers(TierOf(v, w, transcript), CandidateCountsTry);
    if shots.Err? then shots
    else
      ScreenshotsForPdf(v, w, transcript, shots.value);
      if v == OpenAi && |shots.value| < MinKeepOk then Ok(shots.value + FallbackDiagrams()) else shots
  }

  /** The notes dict `generate_text_notes` returns, once its defaults are filled in. */
  function TextNotes(v: Variant, w: World, transcript: string): Result<seq<(string, Value)>, Failure> {
    var reply := Call(v, w, NotesRequest(transcript));
    if reply.Err? then Err(reply.error)
    else
      var fields := ReadNotes(v, w, reply.value);
      if fields.Err? then fields else Ok(fields.value + Missing(NoteDefaults(v), fields.value))
  }

  /** What a run draws, or the exception it ends with. */
  function Run(v: Variant, w: World, transcript: string): (r: Result<seq<Op>, Failure>)
    ensures !w.toolsOnPath ==> r == Err(ToolMissing)
    ensures w.toolsOnPath && !(w.videoExists && w.transcriptExists) ==> r == Err(InputMissing)
    ensures r.Ok? ==> Placed(r.value)
  {
    if !w.toolsOnPath then Err(ToolMissing)
    else if !w.videoExists || !w.transcriptExists then Err(InputMissing)
    else
      var shots := Screenshots(v, w, transcript);
      if shots.Err? then Err(shots.error)
      else
        var notes := TextNotes(v, w, transcript);
        if notes.Err? then Err(notes.error)
        else Document(v, w, notes.value, shots.value)
  }

  /**
   * A run of pdfmaker.py that finishes always has a screenshot section: either at least four
   * verified screenshots or the fallback diagram.
   */
  lemma OpenAiShowsVisuals(w: World, transcript: string)
    requires Run(OpenAi, w, transcript).Ok?
    ensures var ops := Run(OpenAi, w, transcript).value;
      exists i :: 0 <= i < |ops| && ops[i] == Text(VisualsTitle, Margin, Top, PartFont)
  {
    var shots := Screenshots(OpenAi, w, transcript).value;
    var notes := TextNotes(OpenAi, w, transcript).value;
    assert shots != [];
    ShowsVisuals(OpenAi, w, notes, shots);
  }

  /** `main`. */
  method MakePdf(v: Variant, w: World, transcript: string) returns (r: Result<seq<Op>, Failure>)
    ensures r == Run(v, w, transcript)
  {
    if !w.toolsOnPath {
      return Err(ToolMissing);
    }
    if !w.videoExists || !w.transcriptExists {
      return Err(InputMissing);
    }
    var built := BuildVerifiedScreenshots(v, w, transcript);
    if built.Err? {
      return Err(built.error);
    }
    var shots := WithFallback(v, built.value);
    assert Screenshots(v, w, transcript) == Ok(shots);
    var notes := GenerateTextNotes(v, w, transcript);
    assert notes == TextNotes(v, w, transcript);
    if notes.Err? {
      return Err(notes.error);
    }
    r := GeneratePdf(v, w, notes.value, shots);
  }

}
