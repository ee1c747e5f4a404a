/**
 * `parse_json_strict` of pdfmaker_ibm.py: cut the model's reply down to its outermost
 * braces, delete trailing commas, then try strict JSON, a Python-literal parse and, last,
 * one repair round-trip through the text model.
 */
module TolerantParse {
  import opened Wrappers
  import opened PyText
  import opened Json
  import opened Oracles

  /** `raw_all[first:last+1]` when a '{' occurs before the last '}', otherwise the text itself. */
  function ExtractBraces(s: string): (r: string)
    ensures |r| <= |s|
  {
    var first := Find(s, '{');
    var last := RFind(s, '}');
    if first != -1 && last != -1 && last > first then s[first..last + 1] else s
  }

  /** When some '{' precedes some '}', the span runs from the first '{' to the last '}'. */
  lemma ExtractBracesSpan(s: string, i: nat, j: nat)
    requires i < j < |s| && s[i] == '{' && s[j] == '}'
    ensures exists first, last :: 0 <= first <= i && j <= last < |s| && ExtractBraces(s) == s[first..last + 1]
              && s[first] == '{' && '{' !in s[..first] && s[last] == '}' && '}' !in s[last + 1..]
  {
    FindIsFirst(s, '{', i);
    RFindIsLast(s, '}', j);
    var first := Find(s, '{');
    var last := RFind(s, '}');
    assert first != -1 && last != -1 && last > first;
    assert ExtractBraces(s) == s[first..last + 1];
  }

  /** When no '{' precedes a '}', the text is passed on whole. */
  lemma ExtractBracesNoPair(s: string)
    requires forall i, j :: 0 <= i < j < |s| && s[i] == '{' ==> s[j] != '}'
    ensures ExtractBraces(s) == s
  {
    var first := Find(s, '{');
    var last := RFind(s, '}');
    assert !(first != -1 && last != -1 && last > first);
  }

  /** A text that already starts with '{' and ends with '}' is kept whole. */
  lemma ExtractBracesWhole(s: string)
    requires |s| >= 2 && s[0] == '{' && s[|s| - 1] == '}'
    ensures ExtractBraces(s) == s
  {
    assert Find(s, '{') == 0;
    assert RFind(s, '}') == |s| - 1;
    assert s[0..|s|] == s;
  }

  /** Extracting twice is extracting once: a span already starts at its only candidate '{' and ends at its last '}'. */
  lemma ExtractBracesIdempotent(s: string)
    ensures ExtractBraces(ExtractBraces(s)) == ExtractBraces(s)
  {
    var first := Find(s, '{');
    var last := RFind(s, '}');
    if first != -1 && last != -1 && last > first {
      var t := s[first..last + 1];
      assert t[0] == s[first] && t[|t| - 1] == s[last];
      ExtractBracesWhole(t);
    }
  }

  /** Whether a comma followed by `rest` starts a match of the regex `,\s*([}\]])`. */
  predicate ClosesAfterSpace(rest: string) {
    var t := TrimStart(rest);
    t != [] && (t[0] == '}' || t[0] == ']')
  }

  /**
   * `re.sub(r",\s*([}\]])", r"\1", raw)`: scanning left to right, a comma whose following
   * whitespace run ends at '}' or ']' is deleted together with that whitespace.
   */
  function StripTrailingCommas(s: string): (r: string)
    ensures |r| <= |s|
    decreases |s|
  {
    if s == [] then []
    else if s[0] == ',' && ClosesAfterSpace(s[1..]) then
      var t := TrimStart(s[1..]);
      [t[0]] + StripTrailingCommas(t[1..])
    else
      [s[0]] + StripTrailingCommas(s[1..])
  }

  /** The characters of `s` that are neither commas nor whitespace, in order. */
  function Significant(s: string): string {
    if s == [] then []
    else (if s[0] == ',' || IsSpace(s[0]) then [] else [s[0]]) + Significant(s[1..])
  }

  lemma {:induction false} SignificantTrimStart(s: string)
    ensures Significant(TrimStart(s)) == Significant(s)
  {
    if s != [] && IsSpace(s[0]) {
      SignificantTrimStart(s[1..]);
    }
  }

  /** Comma stripping deletes only commas and whitespace: every other character survives, in order. */
  lemma {:induction false} StripTrailingCommasKeepsSignificant(s: string)
    ensures Significant(StripTrailingCommas(s)) == Significant(s)
    decreases |s|
  {
    if s == [] {
    } else if s[0] == ',' && ClosesAfterSpace(s[1..]) {
      var t := TrimStart(s[1..]);
      StripTrailingCommasKeepsSignificant(t[1..]);
      assert StripTrailingCommas(s) == [t[0]] + StripTrailingCommas(t[1..]);
      SignificantCons(t[0], StripTrailingCommas(t[1..]));
      SignificantTrimStart(s[1..]);
      assert t[0] == '}' || t[0] == ']';
      assert Significant(t) == [t[0]] + Significant(t[1..]);
    } else {
      StripTrailingCommasKeepsSignificant(s[1..]);
      assert StripTrailingCommas(s) == [s[0]] + StripTrailingCommas(s[1..]);
      SignificantCons(s[0], StripTrailingCommas(s[1..]));
    }
  }

  lemma SignificantCons(c: char, rest: string)
    ensures Significant([c] + rest) == (if c == ',' || IsSpace(c) then [] else [c]) + Significant(rest)
  {
    assert ([c] + rest)[0] == c && ([c] + rest)[1..] == rest;
  }

  /** Text without commas is left alone. */
  lemma {:induction false} StripTrailingCommasNoComma(s: string)
    requires ',' !in s
    ensures StripTrailingCommas(s) == s
  {
    if s != [] {
      assert s == [s[0]] + s[1..];
      StripTrailingCommasNoComma(s[1..]);
    }
  }

  /**
   * Whether `p` ends in a comma followed by whitespace only: the one shape whose comma a
   * closing bracket at the head of the following text can still remove.
   */
  predicate EndsOpen(p: string) {
    var t := TrimEnd(p);
    t != [] && t[|t| - 1] == ','
  }

  lemma {:induction false} TrimStartConcat(x: string, q: string)
    requires TrimStart(x) != []
    ensures TrimStart(x + q) == TrimStart(x) + q
  {
    assert x != [];
    assert (x + q)[0] == x[0];
    if IsSpace(x[0]) {
      assert (x + q)[1..] == x[1..] + q;
      TrimStartConcat(x[1..], q);
    }
  }

  lemma {:induction false} TrimEndConcat(pre: string, x: string)
    requires TrimEnd(x) != []
    ensures TrimEnd(pre + x) == pre + TrimEnd(x)
    decreases |x|
  {
    assert x != [];
    var s := pre + x;
    assert s[|s| - 1] == x[|x| - 1];
    if IsSpace(x[|x| - 1]) {
      assert s[..|s| - 1] == pre + x[..|x| - 1];
      TrimEndConcat(pre, x[..|x| - 1]);
    }
  }

  /** A text ending open keeps ending open whatever precedes it. */
  lemma EndsOpenSuffix(pre: string, x: string)
    requires EndsOpen(x)
    ensures EndsOpen(pre + x)
  {
    TrimEndConcat(pre, x);
  }

  /** A comma with only whitespace after it ends open. */
  lemma CommaThenSpace(p: string)
    requires p != [] && p[0] == ',' && AllSpace(p[1..])
    ensures EndsOpen(p)
  {
    var t := TrimEnd(p);
    assert !IsSpace(',');
    assert forall k :: 1 <= k < |p| ==> IsSpace(p[k]) by {
      assert forall k :: 1 <= k < |p| ==> p[k] == p[1..][k - 1];
    }
    assert |t| == 1;
  }

  /** In text that does not end open, a comma is followed by something other than whitespace. */
  lemma CommaNotLast(p: string)
    requires p != [] && p[0] == ',' && !EndsOpen(p)
    ensures TrimStart(p[1..]) != []
  {
    if TrimStart(p[1..]) == [] {
      CommaThenSpace(p);
      assert false;
    }
  }

  /** A character that does not start a removed comma is copied. */
  lemma StripTrailingCommasCons(c: char, x: string)
    requires c != ',' || !ClosesAfterSpace(x)
    ensures StripTrailingCommas([c] + x) == [c] + StripTrailingCommas(x)
  {
    assert ([c] + x)[0] == c && ([c] + x)[1..] == x;
  }

  /** The first of the two texts does not end open when the longer one does not. */
  lemma NotOpenSuffix(pre: string, x: string)
    requires !EndsOpen(pre + x)
    ensures !EndsOpen(x)
  {
    if EndsOpen(x) {
      EndsOpenSuffix(pre, x);
      assert false;
    }
  }

  /**
   * The regex substitution works piecewise: cut the text anywhere that does not leave a comma
   * and trailing whitespace at the end of the first piece, and the pieces are cleaned apart.
   */
  lemma {:induction false} StripTrailingCommasConcat(p: string, q: string)
    requires !EndsOpen(p)
    ensures StripTrailingCommas(p + q) == StripTrailingCommas(p) + StripTrailingCommas(q)
    decreases |p|, 1
  {
    if p == [] {
      assert p + q == q;
    } else if p[0] == ',' && ClosesAfterSpace(p[1..]) {
      ConcatClosing(p, q);
    } else {
      ConcatCopied(p, q);
    }
  }

  /** `StripTrailingCommasConcat` when `p` starts with a removed comma. */
  lemma {:induction false} ConcatClosing(p: string, q: string)
    requires !EndsOpen(p) && p != [] && p[0] == ',' && ClosesAfterSpace(p[1..])
    ensures StripTrailingCommas(p + q) == StripTrailingCommas(p) + StripTrailingCommas(q)
    decreases |p|, 0
  {
    var t := TrimStart(p[1..]);
    var rest := t[1..];
    ClosingHead(p, q);
    NotOpenTail(p, |p| - |rest|);
    StripTrailingCommasConcat(rest, q);
    Assoc3([t[0]], StripTrailingCommas(rest), StripTrailingCommas(q));
  }

  lemma ClosingHead(p: string, q: string)
    requires !EndsOpen(p) && p != [] && p[0] == ',' && ClosesAfterSpace(p[1..])
    ensures var t := TrimStart(p[1..]);
      && t[1..] == p[|p| - |t| + 1..]
      && StripTrailingCommas(p) == [t[0]] + StripTrailingCommas(t[1..])
      && StripTrailingCommas(p + q) == [t[0]] + StripTrailingCommas(t[1..] + q)
  {
    TrimmedTail(p);
    assert p == [','] + p[1..];
    StripTrailingCommasClosing(p[1..]);
    ClosingJoined(p, q);
  }

  lemma ClosingJoined(p: string, q: string)
    requires !EndsOpen(p) && p != [] && p[0] == ',' && ClosesAfterSpace(p[1..])
    ensures var t := TrimStart(p[1..]);
      StripTrailingCommas(p + q) == [t[0]] + StripTrailingCommas(t[1..] + q)
  {
    var x := p[1..];
    var t := TrimStart(x);
    HeadConcat(p, q);
    CommaNotLast(p);
    TrimStartConcat(x, q);
    HeadConcat(t, q);
    StripTrailingCommasClosing(x + q);
  }

  lemma HeadConcat(p: string, q: string)
    requires p != []
    ensures (p + q)[0] == p[0] && (p + q)[1..] == p[1..] + q
    ensures p + q == [p[0]] + (p[1..] + q)
  {
  }

  lemma TrimmedTail(p: string)
    requires p != [] && TrimStart(p[1..]) != []
    ensures var t := TrimStart(p[1..]); t[1..] == p[|p| - |t| + 1..]
  {
    var t := TrimStart(p[1..]);
    assert t == p[1..][|p| - 1 - |t|..];
  }

  lemma NotOpenTail(p: string, k: nat)
    requires k <= |p| && !EndsOpen(p)
    ensures !EndsOpen(p[k..])
  {
    assert p == p[..k] + p[k..];
    NotOpenSuffix(p[..k], p[k..]);
  }

  /** `StripTrailingCommasConcat` when the first character of `p` is copied. */
  lemma {:induction false} ConcatCopied(p: string, q: string)
    requires !EndsOpen(p) && p != [] && !(p[0] == ',' && ClosesAfterSpace(p[1..]))
    ensures StripTrailingCommas(p + q) == StripTrailingCommas(p) + StripTrailingCommas(q)
    decreases |p|, 0
  {
    CopiedHead(p, q);
    NotOpenSuffix([p[0]], p[1..]);
    StripTrailingCommasConcat(p[1..], q);
    Assoc3([p[0]], StripTrailingCommas(p[1..]), StripTrailingCommas(q));
  }

  lemma CopiedHead(p: string, q: string)
    requires !EndsOpen(p) && p != [] && !(p[0] == ',' && ClosesAfterSpace(p[1..]))
    ensures p == [p[0]] + p[1..]
    ensures StripTrailingCommas(p) == [p[0]] + StripTrailingCommas(p[1..])
    ensures StripTrailingCommas(p + q) == [p[0]] + StripTrailingCommas(p[1..] + q)
  {
    assert p == [p[0]] + p[1..];
    StripTrailingCommasCons(p[0], p[1..]);
    CopiedJoined(p, q);
  }

  lemma CopiedJoined(p: string, q: string)
    requires !EndsOpen(p) && p != [] && !(p[0] == ',' && ClosesAfterSpace(p[1..]))
    ensures StripTrailingCommas(p + q) == [p[0]] + StripTrailingCommas(p[1..] + q)
  {
    HeadConcat(p, q);
    if p[0] == ',' {
      CommaNotLast(p);
      TrimStartConcat(p[1..], q);
    }
    StripTrailingCommasCons(p[0], p[1..] + q);
  }

  /** A comma that no closing bracket follows after whitespace survives. */
  lemma StripTrailingCommasKeptComma(a: string, b: string)
    requires !EndsOpen(a) && !ClosesAfterSpace(b)
    ensures StripTrailingCommas(a + [','] + b) == StripTrailingCommas(a) + [','] + StripTrailingCommas(b)
  {
    assert a + [','] + b == a + ([','] + b);
    StripTrailingCommasConcat(a, [','] + b);
    assert ([','] + b)[1..] == b;
  }

  lemma StripTrailingCommasClosing(rest: string)
    requires ClosesAfterSpace(rest)
    ensures StripTrailingCommas([','] + rest) == [TrimStart(rest)[0]] + StripTrailingCommas(TrimStart(rest)[1..])
  {
    var cr := [','] + rest;
    assert cr[0] == ',' && cr[1..] == rest;
  }

  lemma SpacesThenBracket(ws: string, c: char, b: string)
    requires AllSpace(ws)
    requires c == '}' || c == ']'
    ensures TrimStart(ws + ([c] + b)) == [c] + b
  {
    TrimStartSpaces(ws, [c] + b);
    assert ([c] + b)[0] == c && !IsSpace(c);
  }

  lemma Assoc3(p: string, q: string, r: string)
    ensures p + q + r == p + (q + r)
  {
  }

  lemma ConcatAssoc(p: string, q: string, r: string, s: string, t: string)
    ensures p + q + r + s + t == p + (q + (r + (s + t)))
  {
  }

  /** A comma, then only whitespace, then '}' or ']': comma and whitespace go, the bracket stays. */
  lemma StripTrailingCommasRemovesComma(a: string, ws: string, c: char, b: string)
    requires !EndsOpen(a) && AllSpace(ws)
    requires c == '}' || c == ']'
    ensures StripTrailingCommas(a + [','] + ws + [c] + b) == StripTrailingCommas(a) + [c] + StripTrailingCommas(b)
  {
    var rest := ws + ([c] + b);
    assert StripTrailingCommas([','] + rest) == [c] + StripTrailingCommas(b) by {
      SpacesThenBracket(ws, c, b);
      assert ([c] + b)[1..] == b;
      StripTrailingCommasClosing(rest);
    }
    StripTrailingCommasConcat(a, [','] + rest);
    ConcatAssoc(a, [','], ws, [c], b);
    Assoc3(StripTrailingCommas(a), [c], StripTrailingCommas(b));
  }

  lemma CommaBeforeBracket(c: char)
    requires c == '}' || c == ']'
    ensures StripTrailingCommas([',', c]) == [c]
  {
    assert !IsSpace(c);
    var s := [',', c];
    assert s[1..] == [c];
    assert TrimStart([c]) == [c];
    assert ClosesAfterSpace(s[1..]);
    assert [c][1..] == [];
  }

  /** Of a doubled comma before a closing bracket only the second comma goes, so a second pass changes the text again. */
  lemma StripTrailingCommasNotIdempotent(c: char)
    requires c == '}' || c == ']'
    ensures StripTrailingCommas([',', ',', c]) == [',', c]
    ensures StripTrailingCommas(StripTrailingCommas([',', ',', c])) == [c]
  {
    CommaBeforeBracket(c);
    assert !IsSpace(',');
    var s := [',', ',', c];
    assert s[1..] == [',', c];
    assert TrimStart([',', c]) == [',', c];
    assert !ClosesAfterSpace(s[1..]);
    assert [','] + [c] == [',', c];
  }

  /** The text the strict parse is given: braces extracted, then trailing commas removed. */
  function Cleaned(text: string): string {
    StripTrailingCommas(ExtractBraces(text))
  }

  /** What one call of `parse_json_strict` did: its result and the repair request it sent, if any. */
  datatype ParseRun = ParseRun(result: Result<Value, Failure>, repair: Option<Request>)

  /**
   * `parse_json_strict(s)`. The literal parse is tried only when strict JSON fails; the
   * repair request is sent only when both fail and it carries the stripped original text,
   * not the extracted span; the repaired reply gets one more extraction, comma strip and
   * strict parse, and its failure escapes.
   */
  function ParseJsonStrict(w: World, s: string): (run: ParseRun)
    ensures var raw := Cleaned(Strip(s));
      && (run.repair.Some? <==> w.jsonLoads(raw).None? && w.literalEval(raw).None?)
      && (run.repair.Some? ==> run.repair.value == RepairJson(Strip(s)))
      && (w.jsonLoads(raw).Some? ==> run.result == Ok(w.jsonLoads(raw).value))
      && (w.jsonLoads(raw).None? && w.literalEval(raw).Some? ==> run.result == Ok(w.literalEval(raw).value))
      && (run.repair.Some? ==>
            match Call(Watsonx, w, run.repair.value)
            case Err(e) => run.result == Err(e)
            case Ok(text) =>
              run.result == (if w.jsonLoads(Cleaned(Strip(text))).Some? then Ok(w.jsonLoads(Cleaned(Strip(text))).value)
                             else Err(MalformedJson)))
  {
    var rawAll := Strip(s);
    var raw := Cleaned(rawAll);
    match w.jsonLoads(raw)
    case Some(v) => ParseRun(Ok(v), None)
    case None =>
      match w.literalEval(raw)
      case Some(v) => ParseRun(Ok(v), None)
      case None =>
        var req := RepairJson(rawAll);
        match Call(Watsonx, w, req)
        case Err(e) => ParseRun(Err(e), Some(req))
        case Ok(text) =>
          match w.jsonLoads(Cleaned(Strip(text)))
          case Some(v) => ParseRun(Ok(v), Some(req))
          case None => ParseRun(Err(MalformedJson), Some(req))
  }

  /**
   * A trailing comma costs nothing: an object's text with a comma and whitespace before its
   * closing brace reaches the strict and literal parsers exactly as the text without them, so
   * once either parser accepts that text both replies give the same value and no repair call.
   * The object may have any number of members, commas between them included.
   */
  lemma TrailingCommaTolerated(w: World, a: string, ws: string)
    requires a != [] && a[0] == '{' && !EndsOpen(a) && AllSpace(ws)
    ensures Cleaned(Strip(a + [','] + ws + ['}'])) == Cleaned(Strip(a + ['}']))
    ensures var raw := Cleaned(Strip(a + ['}']));
      w.jsonLoads(raw).Some? || w.literalEval(raw).Some? ==>
        && ParseJsonStrict(w, a + [','] + ws + ['}']).result == ParseJsonStrict(w, a + ['}']).result
        && ParseJsonStrict(w, a + [','] + ws + ['}']).repair.None?
  {
    var with := a + [','] + ws + ['}'];
    var without := a + ['}'];
    CleanedWithComma(a, ws);
    CleanedWithoutComma(a);
    var raw := Cleaned(Strip(without));
    if w.jsonLoads(raw).Some? || w.literalEval(raw).Some? {
      ParseAccepted(w, with);
      ParseAccepted(w, without);
    }
  }

  /** Once the cleaned text parses, the reply is that value and no repair is asked for. */
  lemma ParseAccepted(w: World, s: string)
    requires w.jsonLoads(Cleaned(Strip(s))).Some? || w.literalEval(Cleaned(Strip(s))).Some?
    ensures var raw := Cleaned(Strip(s));
      && ParseJsonStrict(w, s).repair.None?
      && ParseJsonStrict(w, s).result == Ok(if w.jsonLoads(raw).Some? then w.jsonLoads(raw).value else w.literalEval(raw).value)
  {
  }

  lemma CleanedWithComma(a: string, ws: string)
    requires a != [] && a[0] == '{' && !EndsOpen(a) && AllSpace(ws)
    ensures Cleaned(Strip(a + [','] + ws + ['}'])) == StripTrailingCommas(a) + ['}']
  {
    var with := a + [','] + ws + ['}'];
    Braced(a, [','] + ws);
    assert with == a + ([','] + ws) + ['}'];
    StripUnpadded(with);
    ExtractBracesWhole(with);
    RemovesFinalComma(a, ws, '}');
  }

  lemma Braced(a: string, mid: string)
    requires a != [] && a[0] == '{'
    ensures var t := a + mid + ['}'];
      |t| >= 2 && t[0] == '{' && t[|t| - 1] == '}' && !IsSpace(t[0]) && !IsSpace(t[|t| - 1])
  {
  }

  lemma RemovesFinalComma(a: string, ws: string, c: char)
    requires !EndsOpen(a) && AllSpace(ws)
    requires c == '}' || c == ']'
    ensures StripTrailingCommas(a + [','] + ws + [c]) == StripTrailingCommas(a) + [c]
  {
    StripTrailingCommasRemovesComma(a, ws, c, []);
    assert a + [','] + ws + [c] + [] == a + [','] + ws + [c];
    assert StripTrailingCommas([]) == [];
    assert StripTrailingCommas(a) + [c] + [] == StripTrailingCommas(a) + [c];
  }

  lemma CleanedWithoutComma(a: string)
    requires a != [] && a[0] == '{' && !EndsOpen(a)
    ensures Cleaned(Strip(a + ['}'])) == StripTrailingCommas(a) + ['}']
  {
    var without := a + ['}'];
    Braced(a, []);
    assert a + [] + ['}'] == without;
    StripUnpadded(without);
    ExtractBracesWhole(without);
    AppendsClosing(a, '}');
  }

  lemma AppendsClosing(a: string, c: char)
    requires !EndsOpen(a) && c != ','
    ensures StripTrailingCommas(a + [c]) == StripTrailingCommas(a) + [c]
  {
    StripTrailingCommasConcat(a, [c]);
    StripTrailingCommasNoComma([c]);
  }

  /** A comma followed by a character that is neither whitespace nor a closing bracket stays. */
  lemma CommaBeforeValue(a: string, b: string)
    requires !EndsOpen(a) && b != [] && !IsSpace(b[0]) && b[0] != '}' && b[0] != ']'
    ensures StripTrailingCommas(a + [','] + b) == StripTrailingCommas(a) + [','] + StripTrailingCommas(b)
  {
    assert TrimStart(b) == b;
    StripTrailingCommasKeptComma(a, b);
  }

  /** Text whose last character is neither whitespace nor a comma does not end open. */
  lemma ClosedEnd(a: string)
    requires a != [] && !IsSpace(a[|a| - 1]) && a[|a| - 1] != ','
    ensures !EndsOpen(a)
  {
  }

  /** The reply `{"a":1,"b":[2,3],}` reaches the parsers as `{"a":1,"b":[2,3]}`. */
  lemma TrailingCommaExample()
    ensures var obj := "{\"a\":1" + "," + "\"b\":[2" + "," + "3]";
      Cleaned(Strip(obj + "," + "}")) == obj + "}"
  {
    var obj := "{\"a\":1" + "," + "\"b\":[2" + "," + "3]";
    ExampleObject();
    CleanedWithComma(obj, []);
    assert obj + "," + [] + "}" == obj + "," + "}";
  }

  /** The commas inside `{"a":1,"b":[2,3]` all stay. */
  lemma ExampleObject()
    ensures var obj := "{\"a\":1" + "," + "\"b\":[2" + "," + "3]";
      StripTrailingCommas(obj) == obj && obj[0] == '{' && !EndsOpen(obj)
  {
    var p1, p2, p3 := "{\"a\":1", "\"b\":[2", "3]";
    var obj := p1 + "," + p2 + "," + p3;
    ClosedEnd(p1);
    StripTrailingCommasNoComma(p1);
    ExampleInner();
    assert obj == p1 + "," + (p2 + "," + p3);
    CommaBeforeValue(p1, p2 + "," + p3);
    ClosedEnd(obj);
  }

  lemma ExampleInner()
    ensures StripTrailingCommas("\"b\":[2" + "," + "3]") == "\"b\":[2" + "," + "3]"
  {
    var p2, p3 := "\"b\":[2", "3]";
    ClosedEnd(p2);
    StripTrailingCommasNoComma(p2);
    StripTrailingCommasNoComma(p3);
    CommaBeforeValue(p2, p3);
  }
}
