/**
 * Everything the two scripts consult outside themselves, gathered in one `World` value
 * so that the pipeline is deterministic once the world is fixed: ffprobe, the inference
 * backend, Python's JSON and literal parsers, `float()`, `str()`, PIL's image sizes and
 * reportlab's font metrics.
 */
module Oracles {
  import opened Wrappers
  import opened Json
  import opened Retry

  /** The two scripts: pdfmaker.py talks to OpenAI, project_test/pdfmaker_ibm.py to watsonx. */
  datatype Variant = OpenAi | Watsonx

  /** The frame ffmpeg extracts at `time` seconds, scaled to `width` pixels wide, saved under `name`. */
  datatype Image = Image(time: real, width: nat, name: string)

  /**
   * A backend request, by purpose and by the parts that vary between calls; the fixed
   * instruction text of each prompt is not modelled. `context` is the transcript excerpt.
   */
  datatype Request =
    | SelectFrames(context: string, times: seq<real>, pickN: int, images: seq<Image>)
    | ScoreFrame(context: string, image: Image)
    | VerifyFrame(image: Image)
    | WriteNotes(context: string)
    | RepairJson(original: string)

  type Positive = n: int | n >= 1 witness 1

  /** A raster size as PIL reports it (never zero). */
  datatype Size = Size(w: Positive, h: Positive)

  datatype Font = Font(face: string, size: real)

  datatype World = World(
    toolsOnPath: bool,
    videoExists: bool,
    transcriptExists: bool,
    /** what `float(ffprobe output)` gives, or `None` when ffprobe or the conversion fails */
    duration: Option<real>,
    /** the outcome of the i-th attempt of a request, as the backend client returns or raises it */
    backend: Request -> nat -> Outcome<string>,
    jsonLoads: string -> Option<Value>,
    literalEval: string -> Option<Value>,
    floatOf: string -> Option<real>,
    repr: Value -> string,
    /** the size of an extracted frame */
    frameSize: Image -> Size,
    /** PIL's `Image.open(path).size` for a file name, or `None` when it raises */
    openImage: string -> Option<Size>,
    /** reportlab's `stringWidth(text, font, size)` */
    stringWidth: (string, Font) -> real)

  /** The exceptions that escape a step and abort the run. */
  datatype Failure =
    | ToolMissing
    | InputMissing
    | DurationUnreadable
    | CallFailed(cause: CallFailure)
    | MalformedJson
    | NotADict
    | BadTime
    | BadArrows
    | NotAString
    | ImageUnreadable(name: string)
    | NotSliceable

  function PolicyOf(v: Variant): Policy {
    match v
    case OpenAi => OpenAiPolicy
    case Watsonx => WatsonxPolicy
  }

  /** One backend call through `call_with_retries` with the default `max_retries`. */
  function Call(v: Variant, w: World, req: Request): Result<string, Failure> {
    match Retried(PolicyOf(v), w.backend(req), MaxRetries)
    case Ok(text) => Ok(text)
    case Err(e) => Err(CallFailed(e))
  }
}
