/**
 * `generate_text_notes`: ask for study notes as one JSON object, then fill in the keys the
 * PDF reads with `setdefault`.
 */
module Notes {
  import opened Wrappers
  import opened PyText
  import opened Json
  import opened Oracles
  import opened TolerantParse

  /** The transcript excerpt sent for notes is at most this long, plus the trim marker. */
  const NotesExcerpt := 8000

  function NotesRequest(transcript: string): Request {
    WriteNotes(Excerpt(transcript, NotesExcerpt))
  }

  /** The keys each script fills in, with their defaults, in the order of its `setdefault` calls. */
  function NoteDefaults(v: Variant): seq<(string, Value)> {
    match v
    case OpenAi =>
      [("title", Str("Video Notes")), ("overview", Arr([])), ("concept_cards", Arr([])), ("chapters", Arr([])),
       ("examples", Arr([])), ("key_timestamps", Arr([])), ("practice_questions", Arr([]))]
    case Watsonx =>
      [("title", Str("Video Notes")), ("overview", Arr([])), ("concept_cards", Arr([])), ("examples", Arr([]))]
  }

  function Keys(defaults: seq<(string, Value)>): set<string> {
    set i | 0 <= i < |defaults| :: defaults[i].0
  }

  /**
   * `after` is `before` with the defaults applied: every defaulted key is bound, to its old
   * value when it had one; every other key is as before; old entries keep their place and
   * new ones come after them.
   */
  ghost predicate Defaulted(defaults: seq<(string, Value)>, before: seq<(string, Value)>, after: seq<(string, Value)>) {
    && (forall i :: 0 <= i < |defaults| ==> Lookup(after, defaults[i].0) == Some(Get(before, defaults[i].0, defaults[i].1)))
    && (forall k :: k !in Keys(defaults) ==> Lookup(after, k) == Lookup(before, k))
    && |before| <= |after| && after[..|before|] == before
  }

  /** The defaults whose key `fields` lacks, in order: what the `setdefault` calls append. */
  function Missing(defaults: seq<(string, Value)>, fields: seq<(string, Value)>): seq<(string, Value)>
    decreases |defaults|
  {
    if defaults == [] then []
    else (if Lookup(fields, defaults[0].0).Some? then [] else [defaults[0]]) + Missing(defaults[1..], fields)
  }

  /** No key is listed twice. */
  predicate DistinctKeys(defaults: seq<(string, Value)>) {
    forall i, j :: 0 <= i < j < |defaults| ==> defaults[i].0 != defaults[j].0
  }

  lemma {:induction false} LookupConcat(a: seq<(string, Value)>, b: seq<(string, Value)>, k: string)
    ensures Lookup(a + b, k) == if Lookup(a, k).Some? then Lookup(a, k) else Lookup(b, k)
    decreases |a|
  {
    if a != [] {
      assert (a + b)[1..] == a[1..] + b;
      LookupConcat(a[1..], b, k);
    } else {
      assert a + b == b;
    }
  }

  /** A key the dict lacks is found among the appended defaults exactly as among all defaults. */
  lemma {:induction false} LookupMissing(defaults: seq<(string, Value)>, fields: seq<(string, Value)>, k: string)
    requires Lookup(fields, k).None?
    ensures Lookup(Missing(defaults, fields), k) == Lookup(defaults, k)
    decreases |defaults|
  {
    if defaults != [] {
      var head := if Lookup(fields, defaults[0].0).Some? then [] else [defaults[0]];
      LookupMissing(defaults[1..], fields, k);
      LookupConcat(head, Missing(defaults[1..], fields), k);
    }
  }

  lemma {:induction false} LookupDistinct(defaults: seq<(string, Value)>, i: nat)
    requires DistinctKeys(defaults) && i < |defaults|
    ensures Lookup(defaults, defaults[i].0) == Some(defaults[i].1)
    decreases i
  {
    if i > 0 {
      assert defaults[1..][i - 1] == defaults[i];
      LookupDistinct(defaults[1..], i - 1);
    }
  }

  /** Appending the missing defaults is what `setdefault` promises, key by key. */
  lemma DefaultedByMissing(defaults: seq<(string, Value)>, fields: seq<(string, Value)>)
    requires DistinctKeys(defaults)
    ensures Defaulted(defaults, fields, fields + Missing(defaults, fields))
  {
    var after := fields + Missing(defaults, fields);
    forall i | 0 <= i < |defaults|
      ensures Lookup(after, defaults[i].0) == Some(Get(fields, defaults[i].0, defaults[i].1))
    {
      var k := defaults[i].0;
      LookupConcat(fields, Missing(defaults, fields), k);
      if Lookup(fields, k).None? {
        LookupMissing(defaults, fields, k);
        LookupDistinct(defaults, i);
      }
    }
    forall k | k !in Keys(defaults)
      ensures Lookup(after, k) == Lookup(fields, k)
    {
      LookupConcat(fields, Missing(defaults, fields), k);
      if Lookup(fields, k).None? {
        LookupMissing(defaults, fields, k);
      }
    }
    assert after[..|fields|] == fields;
  }

  lemma NoteDefaultsDistinct(v: Variant)
    ensures DistinctKeys(NoteDefaults(v))
  {
  }

  lemma {:induction false} MissingAppend(done: seq<(string, Value)>, next: (string, Value), fields: seq<(string, Value)>)
    ensures Missing(done + [next], fields) == Missing(done, fields) + Missing([next], fields)
    decreases |done|
  {
    if done == [] {
      assert done + [next] == [next];
    } else {
      var all := done + [next];
      assert all[0] == done[0] && all[1..] == done[1..] + [next];
      MissingAppend(done[1..], next, fields);
      var h := if Lookup(fields, done[0].0).Some? then [] else [done[0]];
      calc {
        Missing(all, fields);
        h + Missing(done[1..] + [next], fields);
        h + (Missing(done[1..], fields) + Missing([next], fields));
        (h + Missing(done[1..], fields)) + Missing([next], fields);
        Missing(done, fields) + Missing([next], fields);
      }
    }
  }

  /** One more `setdefault`, for a key not defaulted yet, appends that key's default when it is missing. */
  lemma SetDefaultStep(fields: seq<(string, Value)>, done: seq<(string, Value)>, key: string, default: Value)
    requires forall i :: 0 <= i < |done| ==> done[i].0 != key
    ensures SetDefault(fields + Missing(done, fields), key, default) == fields + Missing(done + [(key, default)], fields)
  {
    LookupConcat(fields, Missing(done, fields), key);
    if Lookup(fields, key).None? {
      LookupMissing(done, fields, key);
    }
    MissingAppend(done, (key, default), fields);
  }

  /**
   * `notes.setdefault(key, default)` for the `j`-th default of the variant, on a dict that so
   * far has had the defaults before it applied.
   */
  method Default(v: Variant, fields: seq<(string, Value)>, ghost j: nat, notes: seq<(string, Value)>, key: string, default: Value)
    returns (r: seq<(string, Value)>)
    requires DistinctKeys(NoteDefaults(v)) && j < |NoteDefaults(v)| && NoteDefaults(v)[j] == (key, default)
    requires notes == fields + Missing(NoteDefaults(v)[..j], fields)
    ensures r == fields + Missing(NoteDefaults(v)[..j + 1], fields)
  {
    ghost var done := NoteDefaults(v)[..j];
    assert NoteDefaults(v)[..j + 1] == done + [(key, default)];
    SetDefaultStep(fields, done, key, default);
    r := SetDefault(notes, key, default);
  }

  lemma WholePrefix<T>(s: seq<T>)
    ensures s[..|s|] == s
  {
  }

  /** The seven `setdefault` calls at the end of pdfmaker.py's `generate_text_notes`. */
  method OpenAiDefaults(fields: seq<(string, Value)>) returns (notes: seq<(string, Value)>)
    ensures notes == fields + Missing(NoteDefaults(OpenAi), fields)
  {
    NoteDefaultsDistinct(OpenAi);
    notes := fields;
    assert NoteDefaults(OpenAi)[..0] == [];
    notes := Default(OpenAi, fields, 0, notes, "title", Str("Video Notes"));
    notes := Default(OpenAi, fields, 1, notes, "overview", Arr([]));
    notes := Default(OpenAi, fields, 2, notes, "concept_cards", Arr([]));
    notes := Default(OpenAi, fields, 3, notes, "chapters", Arr([]));
    notes := Default(OpenAi, fields, 4, notes, "examples", Arr([]));
    notes := Default(OpenAi, fields, 5, notes, "key_timestamps", Arr([]));
    notes := Default(OpenAi, fields, 6, notes, "practice_questions", Arr([]));
    WholePrefix(NoteDefaults(OpenAi));
  }

  /** The four `setdefault` calls at the end of pdfmaker_ibm.py's `generate_text_notes`. */
  method WatsonxDefaults(fields: seq<(string, Value)>) returns (notes: seq<(string, Value)>)
    ensures notes == fields + Missing(NoteDefaults(Watsonx), fields)
  {
    NoteDefaultsDistinct(Watsonx);
    notes := fields;
    assert NoteDefaults(Watsonx)[..0] == [];
    notes := Default(Watsonx, fields, 0, notes, "title", Str("Video Notes"));
    notes := Default(Watsonx, fields, 1, notes, "overview", Arr([]));
    notes := Default(Watsonx, fields, 2, notes, "concept_cards", Arr([]));
    notes := Default(Watsonx, fields, 3, notes, "examples", Arr([]));
    WholePrefix(NoteDefaults(Watsonx));
  }

  /** The `setdefault` calls: they append the missing defaults, which is what `setdefault` promises. */
  method ApplyDefaults(v: Variant, fields: seq<(string, Value)>) returns (notes: seq<(string, Value)>)
    ensures notes == fields + Missing(NoteDefaults(v), fields)
    ensures Defaulted(NoteDefaults(v), fields, notes)
  {
    if v == OpenAi {
      notes := OpenAiDefaults(fields);
    } else {
      notes := WatsonxDefaults(fields);
    }
    NoteDefaultsDistinct(v);
    DefaultedByMissing(NoteDefaults(v), fields);
  }

  /**
   * The dict the notes reply is read into, before defaults. pdfmaker.py needs the reply to
   * be a JSON object (anything else raises); pdfmaker_ibm.py reads it with the tolerant
   * parser, lets its failure escape, and replaces a non-object by an empty dict.
   */
  function ReadNotes(v: Variant, w: World, reply: string): (r: Result<seq<(string, Value)>, Failure>)
    ensures v == OpenAi ==> (r.Ok? <==> w.jsonLoads(reply).Some? && w.jsonLoads(reply).value.Obj?)
    ensures v == OpenAi && r.Ok? ==> r.value == w.jsonLoads(reply).value.fields
    ensures v == Watsonx ==> (r.Ok? <==> ParseJsonStrict(w, reply).result.Ok?)
    ensures v == Watsonx && r.Ok? && !ParseJsonStrict(w, reply).result.value.Obj? ==> r.value == []
    ensures v == Watsonx && r.Ok? && ParseJsonStrict(w, reply).result.value.Obj? ==>
      r.value == ParseJsonStrict(w, reply).result.value.fields
  {
    if v == OpenAi then
      match w.jsonLoads(reply)
      case None => Err(MalformedJson)
      case Some(notes) => if notes.Obj? then Ok(notes.fields) else Err(NotADict)
    else
      match ParseJsonStrict(w, reply).result
      case Err(e) => Err(e)
      case Ok(notes) => Ok(if notes.Obj? then notes.fields else [])
  }

  /**
   * `generate_text_notes`: a failed call or an unreadable reply aborts; otherwise the result
   * is the reply's dict with the missing defaults appended, which binds every default key,
   * keeps every value the reply had, and changes nothing else.
   */
  method GenerateTextNotes(v: Variant, w: World, transcript: string) returns (r: Result<seq<(string, Value)>, Failure>)
    ensures var reply := Call(v, w, NotesRequest(transcript));
      reply.Err? ==> r == Err(reply.error)
    ensures var reply := Call(v, w, NotesRequest(transcript));
      reply.Ok? && ReadNotes(v, w, reply.value).Err? ==> r == ReadNotes(v, w, reply.value)
    ensures var reply := Call(v, w, NotesRequest(transcript));
      reply.Ok? && ReadNotes(v, w, reply.value).Ok? ==>
        var fields := ReadNotes(v, w, reply.value).value;
        r == Ok(fields + Missing(NoteDefaults(v), fields)) && Defaulted(NoteDefaults(v), fields, r.value)
  {
    var reply := Call(v, w, NotesRequest(transcript));
    if reply.Err? {
      return Err(reply.error);
    }
    var fields: seq<(string, Value)>;
    if v == OpenAi {
      var loaded := w.jsonLoads(reply.value);
      if loaded.None? {
        return Err(MalformedJson);
      }
      if !loaded.value.Obj? {
        return Err(NotADict);
      }
      fields := loaded.value.fields;
    } else {
      var parsed := ParseJsonStrict(w, reply.value).result;
      if parsed.Err? {
        return Err(parsed.error);
      }
      fields := if parsed.value.Obj? then parsed.value.fields else [];
    }
    var notes := ApplyDefaults(v, fields);
    return Ok(notes);
  }

  /** pdfmaker_ibm.py turns a reply that is not an object into exactly the four default entries. */
  lemma NonObjectNotes(w: World, reply: string)
    requires ParseJsonStrict(w, reply).result.Ok? && !ParseJsonStrict(w, reply).result.value.Obj?
    ensures var fields := ReadNotes(Watsonx, w, reply).value;
      fields + Missing(NoteDefaults(Watsonx), fields) == NoteDefaults(Watsonx)
  {
    var fields := ReadNotes(Watsonx, w, reply).value;
    assert fields == [];
    MissingFromEmpty(NoteDefaults(Watsonx));
    assert fields + NoteDefaults(Watsonx) == NoteDefaults(Watsonx);
  }

  /** Every default is missing from an empty dict. */
  lemma {:induction false} MissingFromEmpty(defaults: seq<(string, Value)>)
    ensures Missing(defaults, []) == defaults
    decreases |defaults|
  {
    if defaults != [] {
      MissingFromEmpty(defaults[1..]);
      assert [defaults[0]] + defaults[1..] == defaults;
    }
  }
}
