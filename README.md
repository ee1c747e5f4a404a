# vid2note study-notes pipeline in Dafny

vid2note turns an SQL lecture video and its transcript into a PDF of study notes. Two
scripts do this end to end:

- `pdfmaker.py` talks to OpenAI.
- `project_test/pdfmaker_ibm.py` talks to IBM watsonx.

Both scripts run the same steps:

1. Check that ffmpeg and ffprobe are on the PATH and that both input files exist.
2. Build the verified screenshots, in up to three tiers of 36, 60 and 90 candidates. Each tier:
   - samples candidate thumbnails evenly across the video (`dur * (i+1) / (count+2)`);
   - picks the best 18 of them with the model;
   - re-extracts those frames at 1800 px;
   - asks the model to verify each frame, drawing red arrows into the kept ones, until 12 are kept.

   A tier ends the search once it keeps at least 4 frames.
3. Add the fallback ERD diagram when fewer than 4 screenshots were kept. Only `pdfmaker.py` does this.
4. Ask the model for the text notes and fill in the missing keys with defaults.
5. Lay out the PDF with reportlab on letter pages, in this order:
   - the title;
   - the overview bullets;
   - the concept cards;
   - the examples with their SQL;
   - the screenshot section.

The model covers both scripts. A `Variant` (`OpenAi`, `Watsonx`) selects the behaviour wherever they differ.

Everything the scripts consult outside themselves is gathered in one `World` value (`oracles.dfy`):

- ffprobe's duration;
- the backend's outcome for each attempt of each request;
- `json.loads` and `ast.literal_eval`;
- `float()` and `str()`;
- PIL's image sizes;
- reportlab's `stringWidth`.

Once the world is fixed, a run is a function. Exceptions that escape a step become `Failure` values, and a run that ends in one aborts.

Where the source works by mutating state, the model does too:

- `call_with_retries`, the verification loop, the watsonx scoring loop and the tier loop are methods with loop invariants.
- The note defaults are a straight run of `setdefault` calls. Each call is a call of the method `Notes.Default`, which updates the notes dict.
- reportlab's canvas is a `class Canvas` whose `ops` trace the drawing calls.
- `draw_wrapped` and `draw_code_block` are methods on that canvas.
- `generate_pdf` draws on the canvas and is proved to produce exactly the trace of the value-level `Document`.

The specification functions carry the properties:

- every picture lies inside the page margins;
- wrapped text keeps every word, and every line of two or more words fits the width (a single word wider than the width stands alone on its line);
- code lines are cut into chunks that rebuild the line;
- the verified screenshots are numbered from 1 and are the first kept frames, and each tier's verified list is the verification loop's result on that tier's picked frames;
- the watsonx picks are the best-scored survivors, in a stable order;
- `sec_to_mmss` round-trips;
- the retry delays follow `min(2 * 1.8^k, cap)`.

Behaviour of the code worth knowing:

- Only a tier that picks nothing (`if not picked: continue`) or keeps fewer than 4 frames moves on to the next tier. An exception from any step inside `build_verified_screenshots` escapes and aborts the run (`Controller.TiersSpec`, `Controller.Tier`).
- When no tier keeps 4 frames, `build_verified_screenshots` returns `[]`; a shorter list from a tier is discarded (pdfmaker.py:624-626).
- `pick_best_frames_with_gpt` returns the model's "selected" list untouched. The times it names are used as they are, with no matching against the candidates (`Selection.BatchSelectionUnchecked`).
- `pdfmaker.py`'s `verify_and_annotate_frames` computes a trimmed transcript (pdfmaker.py:290-292) and never uses it. The verification request therefore carries only the frame.

## Model

| member | source | states |
|---|---|---|
| PyText.Strip | pdfmaker.py:533-535 | the result is no longer than the input and neither starts nor ends with white space |
| PyText.Split | pdfmaker.py:462 | every piece is a non-empty run of non-space characters |
| PyText.SplitLines | pdfmaker.py:484 | no line contains a line break |
| PyText.StripNewlines | pdfmaker.py:478 | the result is no longer than the input and neither starts nor ends with a newline |
| PyText.StripSpec | pdfmaker.py:533-535 | `s.strip()` is a slice of `s` with only white space before and after it |
| PyText.StripNewlinesSpec | pdfmaker.py:478 | `s.strip("\n")` is a slice of `s` with only newlines before and after it |
| PyText.SplitBlank | pdfmaker.py:462 | white space alone splits into no words |
| PyText.SplitWord | pdfmaker.py:462 | leading white space, a word and then a space or the end: the word is the first piece and the rest splits on its own |
| PyText.SplitLinesLast | pdfmaker.py:484 | a non-empty text without line breaks is one line |
| PyText.SplitLinesBreak | pdfmaker.py:484 | a line ended by one line-break character is the first line and the rest splits on its own |
| PyText.SplitLinesCrLf | pdfmaker.py:484 | a line ended by "\r\n" is the first line and the rest splits on its own |
| PyText.Find | project_test/pdfmaker_ibm.py:202 | -1 exactly when the character is absent, otherwise the index of its first occurrence |
| PyText.RFind | project_test/pdfmaker_ibm.py:203 | -1 exactly when the character is absent, otherwise the index of its last occurrence |
| PyText.DigitsRoundTrip | pdfmaker.py:144 | reading back the decimal digits of n gives n |
| PyText.ZeroPadRoundTrip | pdfmaker.py:144 | zero-padding to any width keeps the value the digits denote |
| PyText.ZeroPadTwoDigits | pdfmaker.py:144 | a number below 100 is padded to exactly two digits |
| PyText.Excerpt | pdfmaker.py:178-180 | the stripped transcript, cut to the limit and marked as trimmed when it is longer |
| Json.Lookup | pdfmaker.py:328 | finds a value exactly when some entry has the key, and the value found belongs to that key |
| Json.LookupAppend | pdfmaker.py:389 | appending an entry changes a lookup only for a key that was absent and equals the appended key |
| Json.SetDefault | pdfmaker.py:389-395 | afterwards the key maps to its old value or the default; other keys are unchanged; a present key leaves the dict as it was |
| Retry.DelayClosedForm | pdfmaker.py:90-96 | the k-th sleep is min(2.0 * 1.8^k, cap) and never exceeds the cap |
| Retry.OpenAiBackoffSchedule | pdfmaker.py:90-96 | in exact arithmetic the OpenAI sleeps are 2, 3.6, 6.48, 11.664, 20.9952, then 30 seconds (Python's float rounding is not tracked) |
| Retry.CallWithRetries | pdfmaker.py:89-97 | result, number of calls and sleep schedule all agree with `Retried`; every sleep follows a retryable failure; at most max_retries calls; a success or a non-retryable error ends the loop at once; exhaustion reports the last error |
| TolerantParse.ExtractBraces | project_test/pdfmaker_ibm.py:201-204 | never longer than the input |
| TolerantParse.ExtractBracesSpan | project_test/pdfmaker_ibm.py:201-204 | when a '{' precedes a '}', the result runs from the first '{' to the last '}' |
| TolerantParse.ExtractBracesNoPair | project_test/pdfmaker_ibm.py:204 | without a '{' before a '}', the text is kept whole |
| TolerantParse.ExtractBracesWhole | project_test/pdfmaker_ibm.py:201-204 | a text already framed by braces is unchanged |
| TolerantParse.ExtractBracesIdempotent | project_test/pdfmaker_ibm.py:201-204 | extracting twice is the same as extracting once |
| TolerantParse.StripTrailingCommas | project_test/pdfmaker_ibm.py:207 | never longer than the input |
| TolerantParse.StripTrailingCommasKeepsSignificant | project_test/pdfmaker_ibm.py:207 | only commas and white space are ever removed |
| TolerantParse.StripTrailingCommasNoComma | project_test/pdfmaker_ibm.py:207 | a text without commas is unchanged |
| TolerantParse.StripTrailingCommasConcat | project_test/pdfmaker_ibm.py:207 | the substitution distributes over a concatenation whose first part does not end in an open comma |
| TolerantParse.StripTrailingCommasRemovesComma | project_test/pdfmaker_ibm.py:207 | at any position after a part not ending in an open comma, a comma followed by white space and '}' or ']' is removed together with that white space, and the rest is cleaned on its own |
| TolerantParse.StripTrailingCommasKeptComma | project_test/pdfmaker_ibm.py:207 | at any position, a comma not followed by white space and a closing bracket is kept, and the parts on either side are cleaned on their own |
| TolerantParse.StripTrailingCommasNotIdempotent | project_test/pdfmaker_ibm.py:207 | a single pass leaves ",}" behind in ",,}"; a second pass would remove it |
| TolerantParse.ParseJsonStrict | project_test/pdfmaker_ibm.py:191-236 | strict JSON first, then a Python literal; the repair request is made exactly when both fail, and its answer must then parse as JSON |
| TolerantParse.TrailingCommaTolerated | project_test/pdfmaker_ibm.py:201-211 | an object with a trailing comma before its closing brace is cleaned to the same text as the object without it; when that text parses, both parse to the same value and no repair request is made |
| TolerantParse.TrailingCommaExample | project_test/pdfmaker_ibm.py:201-207 | the text `{"a":1,"b":[2,3],}` is cleaned to `{"a":1,"b":[2,3]}` |
| Sampling.CandidateTimes | pdfmaker.py:158 | one time per requested candidate, and none for a non-positive count |
| Sampling.CandidateTimeIncreasing | pdfmaker.py:158 | candidate times strictly increase with the index |
| Sampling.CandidateTimesInside | pdfmaker.py:158 | every candidate time lies strictly inside the video, and the times are strictly increasing |
| Sampling.ExtractCandidateThumbs | pdfmaker.py:151-174 | fails exactly when the duration is unreadable or not positive; otherwise frame i is taken at the i-th candidate time, 480 px wide, named `cand_{i:03d}` |
| Sampling.ExtractFromOk | pdfmaker.py:223-240 | succeeds exactly when every selected item has a readable time |
| Sampling.ExtractFromSpec | pdfmaker.py:223-240 | frame k is taken at item k's time, 1800 px wide, under the k-th name |
| Sampling.ExtractHighResFromOk | pdfmaker.py:223-240 | `extract_high_res_frames` fails with BadTime exactly when some item's `float(item["time"])` fails |
| Sampling.ExtractHighResFromSpec | pdfmaker.py:223-240 | one 1800-px frame per selected item, at its time, named `best_raw_{i:02d}` |
| Sampling.RoundHalfEven | pdfmaker.py:141 | the nearest integer, with ties going to the even one |
| Sampling.MmssRoundTrip | pdfmaker.py:140-144 | "MM:SS" has a colon before two second digits below 60, and parsing it back gives the seconds |
| Sampling.SecToMmssWholeSeconds | pdfmaker.py:140-144 | for whole seconds, `sec_to_mmss` loses nothing |
| Arrows.Clamp | pdfmaker.py:257-258 | the value is clamped to [0, 1], and values already inside are kept |
| Arrows.ToPixel | pdfmaker.py:265-268 | `int(clamp(v) * extent)`: the largest integer not above the clamped value times the extent, between 0 and the extent |
| Arrows.MarkOf | pdfmaker.py:261-268 | a mark that is read lies inside the frame, and its four pixels are the pixel conversions of "from"[0], "from"[1], "to"[0] and "to"[1] (or their defaults) |
| Arrows.MarkOfSpec | pdfmaker.py:261-278 | an arrow is read exactly when its four coordinates are; it carries a label exactly when the stripped text is non-empty |
| Arrows.DefaultEndPoints | pdfmaker.py:261-262 | any arrow dict without "from" and "to" is drawn, from the pixels of (0.1, 0.1) to those of (0.2, 0.2) |
| Arrows.Take | pdfmaker.py:260 | a prefix of at most n elements, all of them when there are fewer |
| Arrows.MarksEachOpenAiOk | pdfmaker.py:260-268 | every arrow is drawn, or the call aborts because some arrow is not a dict or has an unreadable coordinate |
| Arrows.MarksEachOpenAiSpec | pdfmaker.py:260-268 | mark k is the reading of arrow k |
| Arrows.MarksOpenAi | pdfmaker.py:260-268 | at most 6 marks, all inside the frame; a falsy value draws nothing; a truthy non-list aborts; a list is read from its first 6 entries |
| Arrows.NormalizeArrows | project_test/pdfmaker_ibm.py:356-368 | a list is kept, a dict with "from" and "to" is one arrow, another dict yields exactly its dict values in order, anything else nothing |
| Arrows.DictValues | project_test/pdfmaker_ibm.py:366 | keeps every dict value of the mapping and nothing else |
| Arrows.DictValuesAppend | project_test/pdfmaker_ibm.py:366 | the dict values of two concatenated mappings are those of the first followed by those of the second, so the order of the mapping is kept |
| Arrows.MarksEachWatsonxSpec | project_test/pdfmaker_ibm.py:373-384 | aborts exactly when some entry is not a dict; otherwise an arrow whose coordinates cannot be read is skipped and the rest are drawn in order |
| Arrows.ConvertedInFrame | project_test/pdfmaker_ibm.py:373-386 | every drawn arrow lies inside the frame |
| Arrows.MarksWatsonx | project_test/pdfmaker_ibm.py:356-386 | the first 6 normalised arrows are read one by one; aborts exactly when one of them is not a dict, otherwise yields the readable ones in order, at most 6 and all inside the frame |
| Arrows.WatsonxIgnoresScalars | project_test/pdfmaker_ibm.py:367-368 | an arrows value that is neither a list nor a dict draws nothing |
| Arrows.BareArrowDict | project_test/pdfmaker_ibm.py:363-364 | a single arrow dict aborts pdfmaker.py but is drawn by pdfmaker_ibm.py |
| Arrows.UnreadableArrow | project_test/pdfmaker_ibm.py:378-384 | an arrow with an unreadable coordinate aborts pdfmaker.py, while pdfmaker_ibm.py skips it and draws the next one |
| Selection.PickBestFramesOpenAi | pdfmaker.py:177-220 | a failed call aborts; an unreadable reply is MalformedJson and a non-dict reply NotADict; a missing, non-list or empty "selected" gives []; a non-empty result is exactly the reply's "selected" list |
| Selection.BatchSelectionUnchecked | pdfmaker.py:216-220 | any non-empty "selected" list comes back as it stands, with no check against the candidates |
| Selection.ScoreOf | project_test/pdfmaker_ibm.py:300-316 | no score exactly when the call fails, the reply does not parse to a dict, `float(score)` fails or the reply rejects the frame; otherwise the candidate's time, the float of "score" (default 0) and the stripped "reason" |
| Selection.Survivors | project_test/pdfmaker_ibm.py:280-316 | each survivor is the score of some candidate, and there are no more survivors than candidates |
| Selection.SurvivorsInOrder | project_test/pdfmaker_ibm.py:280-316 | the survivors are exactly the candidates' scores that exist, in candidate order |
| Selection.SurvivorsComplete | project_test/pdfmaker_ibm.py:300-316 | every candidate that is scored and not rejected survives |
| Selection.SortByScoreDescSpec | project_test/pdfmaker_ibm.py:318 | the sort is in descending score order, is a permutation, and is stable (equal scores keep their order) |
| Selection.SliceTo | project_test/pdfmaker_ibm.py:319 | Python's `[:n]`, including a negative n |
| Selection.PickBestFramesWatsonx | project_test/pdfmaker_ibm.py:269-319 | the scoring loop returns exactly `Picked` |
| Selection.PickedAreBest | project_test/pdfmaker_ibm.py:318-319 | pick_n survivors (or all of them), sorted, drawn from the survivors, and none left out scores higher than one picked |
| Selection.PickedFromCandidates | project_test/pdfmaker_ibm.py:280-319 | every pick is the score of some candidate |
| Verify.JudgeOpenAi | pdfmaker.py:315-329 | a failed call aborts; MalformedJson exactly when `json.loads` fails and NotADict exactly when the reply is not a dict; skip exactly when the dict's "skip" is truthy; otherwise kept with the dict's fields |
| Verify.JudgeWatsonx | project_test/pdfmaker_ibm.py:427-435 | a failed call or a failed `parse_json_strict` aborts; skip exactly when the parsed value is not a dict or its "skip" is truthy; otherwise kept with the dict's fields |
| Verify.NonObjectReply | project_test/pdfmaker_ibm.py:430-432 | a reply that is not an object aborts pdfmaker.py but only skips the frame in pdfmaker_ibm.py |
| Verify.Annotate | pdfmaker.py:331-341 | succeeds exactly when the script's arrow reading of `meta.get("arrows", [])` does, carrying its marks or its error; the entry holds the frame's time and its MM:SS, the n-th annotated name, and the title, caption and explanation from the reply or their defaults "Screenshot", "" and "" |
| Verify.FrameStep | pdfmaker.py:297-341 | no entry exactly when the model says skip; a judging error aborts; a kept frame becomes the annotated entry named after its number, or the annotation's error |
| Verify.VisitFrame | pdfmaker.py:315-341 | one loop iteration: skip gives nothing, a judging or annotation error aborts, a kept frame gives its annotated entry (the contract is `FrameStep`'s) |
| Verify.VerifyAndAnnotateFrames | pdfmaker.py:289-346 | the loop returns the specification's result, and it stops early only on an error or once keep_target frames are kept |
| Verify.VerifyFromAppend | pdfmaker.py:297-344 | verifying a + b is verifying a, then b from where a stopped |
| Verify.VerifyKeepsFirst | pdfmaker.py:297-344 | of the frames the loop asks about, the result is exactly the entries of the kept ones, in frame order and with nothing dropped, after what was kept before; frames are left unasked only once keep_target entries are kept |
| Verify.VerifyNumbered | pdfmaker.py:331-344 | for any step that names a kept frame by its number, the results stay numbered from 1 and never exceed keep_target (1 when keep_target is below 1) |
| Verify.VerifiedSpec | pdfmaker.py:331-344 | any successful run has at most keep_target entries (at least 1), numbered `best_annot_01`, `best_annot_02`, … in order |
| Notes.Default | pdfmaker.py:389-395 | one `setdefault` adds the next default key exactly when it is missing |
| Notes.OpenAiDefaults | pdfmaker.py:389-395 | the seven OpenAI defaults are added exactly where missing |
| Notes.WatsonxDefaults | project_test/pdfmaker_ibm.py:492-495 | the four watsonx defaults are added exactly where missing |
| Notes.ApplyDefaults | pdfmaker.py:389-395 | every default key is present afterwards, with the model's value when it gave one |
| Notes.DefaultedByMissing | pdfmaker.py:389-395 | appending the missing defaults leaves present keys alone and gives every absent default key its default |
| Notes.SetDefaultStep | pdfmaker.py:389-395 | one more `setdefault` call extends the appended defaults by that key |
| Notes.ReadNotes | project_test/pdfmaker_ibm.py:486-490 | OpenAI needs a JSON object and reads its fields; watsonx accepts anything `parse_json_strict` returns, reads a dict's fields and replaces a non-dict with {} |
| Notes.GenerateTextNotes | pdfmaker.py:353-396 | a failed call or an unreadable reply aborts; otherwise the reply's fields plus the missing defaults |
| Notes.NonObjectNotes | project_test/pdfmaker_ibm.py:489-495 | a non-dict reply yields exactly the watsonx defaults |
| Controller.ScoredAsValues | project_test/pdfmaker_ibm.py:312-316 | each pick becomes a dict with its time, hint and score, in order |
| Controller.TiersSpec | pdfmaker.py:615-626 | a non-empty result comes from the first tier that keeps at least 4 frames; [] exactly when every tier falls short; an error comes from some tier |
| Controller.Tier | pdfmaker.py:616-624 | a failing thumbnail extraction or selection aborts with its error; the tier picks nothing exactly when the selection is empty; otherwise the picked frames are re-extracted at 1800 px, a failure there aborts, and the tier's list is exactly the verification loop's result on those frames (or its error), with at most 12 entries numbered `best_annot_01`, `best_annot_02`, … |
| Controller.RunTier | pdfmaker.py:616-624 | one tier: a failing thumbnail extraction or selection aborts, an empty pick moves on, and a verified list has at most 12 entries numbered from 1 (the contract is `Tier`'s) |
| Controller.BuildVerifiedScreenshots | pdfmaker.py:611-626 | the loop computes the tier search, whose result is [] or at least 4 screenshots |
| Controller.FallbackDiagrams | pdfmaker.py:403-453 | one untimed diagram, "N/A", with no arrows |
| Controller.WithFallback | pdfmaker.py:644-645 | pdfmaker.py appends the diagram below 4 screenshots; pdfmaker_ibm.py never does |
| Controller.ScreenshotsForPdf | pdfmaker.py:641-645 | what reaches the PDF is at least 4 screenshots, or else the diagram alone (pdfmaker.py) or nothing (pdfmaker_ibm.py) |
| Layout.Canvas.constructor | pdfmaker.py:495 | a fresh canvas has drawn nothing and uses the default font |
| Layout.Canvas.SetFont | pdfmaker.py:508 | changes the font and draws nothing |
| Layout.Canvas.DrawString | pdfmaker.py:509 | appends the string at (x, y) in the current font |
| Layout.Canvas.DrawInlineImage | pdfmaker.py:589 | appends the picture with its box |
| Layout.Canvas.ShowPage | pdfmaker.py:504 | ends the page and resets the font |
| Layout.RowsAppend | pdfmaker.py:469-474 | one more line lands one leading below the previous line |
| Layout.DrawRow | pdfmaker.py:469-470 | draws one line and moves down one leading, keeping the trace equal to the rows drawn so far |
| Layout.JoinWord | pdfmaker.py:465 | `f"{line} {w}".strip()` is the line with the word added |
| Layout.PlaceWord | pdfmaker.py:464-471 | one word either extends the line or flushes it and starts a new one, and the lines still to come are unchanged |
| Layout.DrawWrapped | pdfmaker.py:460-475 | draws exactly the wrapped lines, one leading apart from y, and returns y less one leading per line |
| Layout.WrapKeepsWords | pdfmaker.py:460-475 | the non-blank lines, joined, give back the text's words in order |
| Layout.WrapFits | pdfmaker.py:466-467 | every line that holds two or more words measures within the width; a single word wider than the width is put on a line of its own and may exceed it |
| Layout.WrapBlankFirst | pdfmaker.py:464-471 | only the first line can be blank, and it is blank exactly when the first word alone is wider than the width |
| Layout.MaxChars | pdfmaker.py:482-483 | at least 20, and otherwise the width divided by the Courier character width, rounded down |
| Layout.ChunksSpec | pdfmaker.py:486-490 | the chunks of a line rebuild it, are at most max_chars long, and all but the last are full |
| Layout.CodeRowsAppend | pdfmaker.py:484-491 | the rows of one more code line are its chunks, appended |
| Layout.DrawLine | pdfmaker.py:485-491 | draws a code line's chunks one leading apart in Courier |
| Layout.DrawCodeBlock | pdfmaker.py:477-492 | blank code draws nothing; otherwise every chunk of every line, 12 points apart in Courier |
| Layout.CodeBlockSpec | pdfmaker.py:483-491 | every code line is drawn whole, in chunks of at most max_chars (at least 20) |
| Pdf.Put | pdfmaker.py:508-510 | a heading extends the trace, sets its font and moves the cursor down |
| Pdf.Break | pdfmaker.py:502-505 | `new_page` extends the trace and puts the cursor at the top |
| Pdf.BreakBelow | pdfmaker.py:517-518 | starts a page only when the cursor is below the limit; afterwards the cursor is at least at the limit |
| Pdf.Wrapped | pdfmaker.py:519 | wrapped text extends the trace, sets the font and never moves the cursor up |
| Pdf.SliceItems | pdfmaker.py:516 | `[:n]` of a list is a prefix of at most n items; of a string, its first characters; anything else aborts |
| Pdf.Bullets | pdfmaker.py:516-519 | the overview keeps the page invariant |
| Pdf.Card | pdfmaker.py:530-542 | a card that is not a dict aborts; otherwise the page invariant is kept |
| Pdf.CardsFrom | pdfmaker.py:530-542 | all cards are drawn exactly when all are dicts |
| Pdf.Concepts | pdfmaker.py:523-543 | the concepts section aborts exactly when a card is not a dict, and otherwise keeps the page invariant |
| Pdf.Prefix | project_test/pdfmaker_ibm.py:589 | `line[:140]` is a prefix of at most 140 characters |
| Pdf.Listing | project_test/pdfmaker_ibm.py:584-590 | every code line is drawn above margin + 60, at most 140 characters long, in Courier when the block starts in Courier |
| Pdf.CodeBlock | pdfmaker.py:562 | a code block keeps every picture in place and never moves the cursor up |
| Pdf.Sql | pdfmaker.py:562 | the SQL of an example keeps the page invariant in both scripts |
| Pdf.Example | pdfmaker.py:551-563 | an example that is not a dict aborts; otherwise the page invariant is kept |
| Pdf.Examples | pdfmaker.py:545-563 | the examples section aborts exactly when an example is not a dict |
| Pdf.FitInBox | pdfmaker.py:586-588 | the scaled image keeps its aspect ratio, fits in 504 × 280.8 and touches one of the two limits |
| Pdf.ImageStep | pdfmaker.py:584-594 | a readable image is drawn at its fitted size at the cursor and the cursor moves below it by 10 more points; an unreadable one prints the placeholder line and moves down 14 points in pdfmaker.py and aborts in pdfmaker_ibm.py; with room, the picture stays inside the margins |
| Pdf.ShotText | pdfmaker.py:596-597 | the caption must be a string in pdfmaker.py; pdfmaker_ibm.py also accepts a falsy value; strings are stripped |
| Pdf.Shot | pdfmaker.py:573-602 | one screenshot keeps the page invariant and fails only on a non-string caption or an unreadable image (the latter never in pdfmaker.py) |
| Pdf.Shots | pdfmaker.py:566-603 | the section succeeds exactly when every screenshot does, and keeps the page invariant |
| Pdf.Front | pdfmaker.py:507-515 | exactly two operations: the title (default "Video Notes") at the top in the title font, then "Overview" 26 points lower; the cursor ends 44 points below the top in the section font |
| Pdf.Opening | pdfmaker.py:507-520 | the title and overview keep the page invariant, and a non-sliceable overview aborts |
| Pdf.Middle | pdfmaker.py:512-563 | the overview, concepts and examples keep the page invariant, failing only on an unsliceable value or a non-dict entry |
| Pdf.Document | pdfmaker.py:494-604 | every picture lies inside the margins; pdfmaker.py never fails on an image; a watsonx document means every screenshot opened |
| Pdf.WatsonxImagesOpen | project_test/pdfmaker_ibm.py:608-613 | a watsonx screenshot section that succeeds opened every image |
| Pdf.HeadingShows | pdfmaker.py:574-582 | each screenshot adds its numbered "idx. title (time)" heading and no picture |
| Pdf.ImageShows | pdfmaker.py:584-594 | a readable image adds exactly its picture, and an unreadable one none |
| Pdf.ShotShows | pdfmaker.py:573-602 | one screenshot adds exactly its heading and, when readable, its picture |
| Pdf.VisualsInOrder | pdfmaker.py:573-602 | the screenshot section shows the headings 1, 2, … and the readable pictures in list order |
| Pdf.ShowsVisuals | pdfmaker.py:566-569 | a document with screenshots has the "Important Visuals (Verified)" heading at the top of a page |
| Pdf.PutText | pdfmaker.py:508-510 | the canvas steps draw exactly `Put` |
| Pdf.BreakIfBelow | pdfmaker.py:517-518 | the canvas steps draw exactly `BreakBelow` |
| Pdf.DrawBullets | pdfmaker.py:516-519 | the overview loop draws exactly `Bullets` |
| Pdf.DrawConcepts | pdfmaker.py:523-543 | the concepts code draws exactly `Concepts` |
| Pdf.DrawListing | project_test/pdfmaker_ibm.py:584-590 | the listing loop draws exactly `Listing` |
| Pdf.DrawExamples | pdfmaker.py:545-563 | the examples code draws exactly `Examples` |
| Pdf.DrawImage | pdfmaker.py:584-594 | the image step draws exactly `ImageStep` |
| Pdf.DrawShots | pdfmaker.py:566-603 | the screenshot loop draws exactly `Shots` |
| Pdf.GeneratePdf | pdfmaker.py:494-604 | the canvas trace is exactly `Document`, whose pictures lie inside the margins |
| Pipeline.Screenshots | pdfmaker.py:641-645 | the PDF gets at least 4 screenshots, or else the fallback diagram (pdfmaker.py) or none (pdfmaker_ibm.py) |
| Pipeline.Run | pdfmaker.py:629-649 | a missing tool aborts first, then a missing input file; a finished run keeps every picture inside the margins |
| Pipeline.OpenAiShowsVisuals | pdfmaker.py:641-649 | every finished pdfmaker.py run has a screenshot section |
| Pipeline.MakePdf | pdfmaker.py:629-649 | `main` computes exactly `Run` |

## Left out

- Python floats are modelled as exact reals, and their rounding is not tracked. For example, the fourth sleep, reached by repeated `delay * 1.8` from 2.0, is 11.664000000000001 in floating point, while `Retry.OpenAiBackoffSchedule` states 11.664. Times, scores, clamped coordinates and layout positions are exact in the same way.
- Files, ffmpeg, ffprobe and PIL: frames are values named like the files the scripts write.
- The PDF file and `c.save` are not modelled.
- `ensure_dirs`, `clear_dir_jpgs` and `read_text` are not modelled. The transcript is a parameter.
- Loading the API key and creating the client at module level (pdfmaker.py:73-82, project_test/pdfmaker_ibm.py:80-101) is not modelled.
- The final `print` is not modelled.
- The network: each backend call is an oracle outcome in `World`.
- The fixed instruction text of each prompt is not modelled. So is the response envelope (`resp.output_text`, `resp["choices"][0]["message"]["content"]`). A request is identified by its purpose and its variable parts.
- The `round(ts, 2)` of the batch prompt's time list is not modelled, because prompt text is not modelled.
- `time.sleep` is not performed. `Retry.CallWithRetries` returns the sleep schedule instead.
- `Json.Value` has a single number case `Num(real)`, so a reply's `1` and `1.0` are the same value. The `World.repr` oracle, which gives `str()` of a numeric title, caption or arrow text, therefore cannot tell them apart.
- `ast.literal_eval` results that hold tuples, sets or non-string dict keys have no `Json.Value` form. The `literalEval` oracle returns only `Json.Value`s, so such results are not modelled.
- `json.loads`, `ast.literal_eval`, `float()` and `str()` of non-strings are oracles. NaN and infinities are not modelled, and duplicate keys in a reply are not resolved.
- The arrow geometry of `draw_red_arrows` is not modelled: the arrowhead's `atan2`, the text box and the pixel drawing. The model keeps each arrow's clamped endpoints and label.
- The fallback ERD drawing in `make_fallback_diagrams` (pdfmaker.py:409-443) is not modelled; the model keeps the entry it returns.
- Layout.DrawCodeBlock: the Courier character width is the constant 5.4 points, reportlab's width of "M" at 9 points, rather than a query to reportlab.
- Layout.DrawCodeBlock: `raw_line.rstrip("\n")` is not modelled. It cannot change a line that `splitlines` produced.
- Layout.Canvas.ShowPage: resets the font to the canvas default, as reportlab does. Other graphics state reset at a page break is not modelled.
- TolerantParse.TrailingCommaTolerated: stated for an object whose text before the trailing comma does not itself end in a comma. A doubled comma such as `,,}` is cleaned only once, as `TolerantParse.StripTrailingCommasNotIdempotent` shows.
- Pdf.Front: a non-string title is drawn as the `World.repr` oracle renders it. reportlab's own conversion is not modelled.
- Pdf.Document: every picture is proved to lie inside the margins. Text is not proved to stay on the page, because the scripts check the room before a block but not inside one, so long wrapped text can run below the margin.
