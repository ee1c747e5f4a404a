/**
 * Choosing the frames worth keeping. pdfmaker.py sends all candidate thumbnails in one
 * request and takes the "selected" list of the reply as it is; pdfmaker_ibm.py scores
 * each candidate on its own, drops rejections and errors, sorts the survivors by score
 * (stably, best first) and keeps the first `pick_n`.
 */
module Selection {
  import opened Wrappers
  import opened PyText
  import opened Json
  import opened Oracles
  import opened TolerantParse

  /** Both selection prompts carry at most 2000 characters of transcript. */
  const SelectionExcerpt: nat := 2000

  function Times(candidates: seq<Image>): (ts: seq<real>)
    ensures |ts| == |candidates| && forall i :: 0 <= i < |ts| ==> ts[i] == candidates[i].time
  {
    seq(|candidates|, i requires 0 <= i < |candidates| => candidates[i].time)
  }

  // ---------------------------------------------------------------------------
  // pdfmaker.py: one batch request
  // ---------------------------------------------------------------------------

  function SelectRequest(transcript: string, candidates: seq<Image>, pickN: int): Request {
    SelectFrames(Excerpt(transcript, SelectionExcerpt), Times(candidates), pickN, candidates)
  }

  /**
   * `pick_best_frames_with_gpt`: a failed call or an unparsable reply aborts, a reply that is
   * not an object aborts (`.get` raises), and a "selected" value that is missing, not a list
   * or empty gives no selection; otherwise that list is returned untouched.
   */
  function PickBestFramesOpenAi(w: World, transcript: string, candidates: seq<Image>, pickN: int): (r: Result<seq<Value>, Failure>)
    ensures Call(OpenAi, w, SelectRequest(transcript, candidates, pickN)).Err? ==>
      r == Err(Call(OpenAi, w, SelectRequest(transcript, candidates, pickN)).error)
    ensures r.Ok? && r.value != [] ==>
      var text := Call(OpenAi, w, SelectRequest(transcript, candidates, pickN)).value;
      w.jsonLoads(text).Some? && w.jsonLoads(text).value.Obj?
      && Lookup(w.jsonLoads(text).value.fields, "selected") == Some(Arr(r.value))
    ensures var reply := Call(OpenAi, w, SelectRequest(transcript, candidates, pickN));
      reply.Ok? ==>
        var data := w.jsonLoads(reply.value);
        && (data.None? ==> r == Err(MalformedJson))
        && (data.Some? && !data.value.Obj? ==> r == Err(NotADict))
        && (data.Some? && data.value.Obj? ==>
              var selected := Lookup(data.value.fields, "selected");
              (selected.None? || !selected.value.Arr? || selected.value.items == []) ==> r == Ok([]))
  {
    match Call(OpenAi, w, SelectRequest(transcript, candidates, pickN))
    case Err(e) => Err(e)
    case Ok(text) =>
      match w.jsonLoads(text)
      case None => Err(MalformedJson)
      case Some(data) =>
        if !data.Obj? then Err(NotADict)
        else
          var selected := Get(data.fields, "selected", Arr([]));
          if selected.Arr? && |selected.items| > 0 then Ok(selected.items) else Ok([])
  }

  /**
   * The batch reply is trusted as it stands: whatever non-empty list comes back is the
   * selection, however long it is and whatever times it names.
   */
  lemma BatchSelectionUnchecked(w: World, transcript: string, candidates: seq<Image>, pickN: int, text: string, items: seq<Value>)
    requires Call(OpenAi, w, SelectRequest(transcript, candidates, pickN)) == Ok(text)
    requires w.jsonLoads(text) == Some(Obj([("selected", Arr(items))]))
    ensures PickBestFramesOpenAi(w, transcript, candidates, pickN) == if items == [] then Ok([]) else Ok(items)
  {
    assert Get([("selected", Arr(items))], "selected", Arr([])) == Arr(items);
  }

  // ---------------------------------------------------------------------------
  // pdfmaker_ibm.py: score every candidate
  // ---------------------------------------------------------------------------

  /** An entry of `scored`: `{"time": ..., "hint": ..., "score": ...}`. */
  datatype Scored = Scored(time: real, hint: string, score: real)

  /**
   * The body of the `try` for one candidate: `None` when the candidate is rejected, either
   * by the model or because the call, the parse, `.get` or `float` raised.
   */
  function ScoreOf(w: World, context: string, c: Image): (s: Option<Scored>)
    ensures s.Some? ==> s.value.time == c.time
    ensures var reply := Call(Watsonx, w, ScoreFrame(context, c));
      s.None? <==>
        || reply.Err?
        || ParseJsonStrict(w, reply.value).result.Err?
        || !ParseJsonStrict(w, reply.value).result.value.Obj?
        || (var fields := ParseJsonStrict(w, reply.value).result.value.fields;
            || PyFloat(Get(fields, "score", Num(0.0)), w.floatOf).None?
            || Truthy(Get(fields, "reject", Bool(false))))
    ensures s.Some? ==>
      var fields := ParseJsonStrict(w, Call(Watsonx, w, ScoreFrame(context, c)).value).result.value.fields;
      && s.value.score == PyFloat(Get(fields, "score", Num(0.0)), w.floatOf).value
      && s.value.hint == Strip(PyStr(Get(fields, "reason", Str("")), w.repr))
  {
    match Call(Watsonx, w, ScoreFrame(context, c))
    case Err(_) => None
    case Ok(out) =>
      match ParseJsonStrict(w, out).result
      case Err(_) => None
      case Ok(data) =>
        if !data.Obj? then None
        else
          match PyFloat(Get(data.fields, "score", Num(0.0)), w.floatOf)
          case None => None
          case Some(score) =>
            var reject := Truthy(Get(data.fields, "reject", Bool(false)));
            var reason := Strip(PyStr(Get(data.fields, "reason", Str("")), w.repr));
            if reject then None else Some(Scored(c.time, reason, score))
  }

  /** The `scored` list after the loop: the accepted candidates' entries, in candidate order. */
  function Survivors(w: World, context: string, candidates: seq<Image>): (r: seq<Scored>)
    ensures |r| <= |candidates|
    ensures forall k :: 0 <= k < |r| ==> exists i :: 0 <= i < |candidates| && ScoreOf(w, context, candidates[i]) == Some(r[k])
  {
    if candidates == [] then []
    else
      var init := Survivors(w, context, candidates[..|candidates| - 1]);
      var last := ScoreOf(w, context, candidates[|candidates| - 1]);
      assert forall i :: 0 <= i < |candidates| - 1 ==> candidates[..|candidates| - 1][i] == candidates[i];
      init + (if last.Some? then [last.value] else [])
  }

  /** The verdicts on the candidates, one per candidate, in order. */
  function Scores(w: World, context: string, candidates: seq<Image>): (r: seq<Option<Scored>>)
    ensures |r| == |candidates|
  {
    seq(|candidates|, i requires 0 <= i < |candidates| => ScoreOf(w, context, candidates[i]))
  }

  /** The values of the `Some` entries, in order. */
  function Somes<T>(xs: seq<Option<T>>): seq<T> {
    if xs == [] then [] else (if xs[0].Some? then [xs[0].value] else []) + Somes(xs[1..])
  }

  lemma {:induction false} SomesSnoc<T>(xs: seq<Option<T>>, x: Option<T>)
    ensures Somes(xs + [x]) == Somes(xs) + (if x.Some? then [x.value] else [])
  {
    if xs == [] {
      assert [] + [x] == [x] && [x][1..] == [];
    } else {
      assert (xs + [x])[0] == xs[0] && (xs + [x])[1..] == xs[1..] + [x];
      SomesSnoc(xs[1..], x);
    }
  }

  /**
   * The scoring loop keeps exactly the accepted verdicts, in candidate order: every
   * candidate scored without error or rejection has its entry, and nothing else does.
   */
  lemma {:induction false} SurvivorsInOrder(w: World, context: string, candidates: seq<Image>)
    ensures Survivors(w, context, candidates) == Somes(Scores(w, context, candidates))
    decreases |candidates|
  {
    if candidates != [] {
      var init := candidates[..|candidates| - 1];
      var last := ScoreOf(w, context, candidates[|candidates| - 1]);
      SurvivorsInOrder(w, context, init);
      ScoresSnoc(w, context, candidates);
      SomesSnoc(Scores(w, context, init), last);
      assert Survivors(w, context, candidates) == Survivors(w, context, init) + (if last.Some? then [last.value] else []);
    }
  }

  lemma ScoresSnoc(w: World, context: string, candidates: seq<Image>)
    requires candidates != []
    ensures Scores(w, context, candidates)
      == Scores(w, context, candidates[..|candidates| - 1]) + [ScoreOf(w, context, candidates[|candidates| - 1])]
  {
  }

  /** No accepted candidate is missing from `scored`. */
  lemma {:induction false} SurvivorsComplete(w: World, context: string, candidates: seq<Image>, i: nat)
    requires i < |candidates| && ScoreOf(w, context, candidates[i]).Some?
    ensures ScoreOf(w, context, candidates[i]).value in Survivors(w, context, candidates)
    decreases |candidates|
  {
    var init := candidates[..|candidates| - 1];
    if i < |candidates| - 1 {
      assert init[i] == candidates[i];
      SurvivorsComplete(w, context, init, i);
    }
  }

  predicate SortedDesc(s: seq<Scored>) {
    forall i, j :: 0 <= i < j < |s| ==> s[i].score >= s[j].score
  }

  /** The entries of `s` with score `x`, in order: what a stable sort must not reorder. */
  function WithScore(s: seq<Scored>, x: real): seq<Scored> {
    if s == [] then [] else WithScore(s[..|s| - 1], x) + (if s[|s| - 1].score == x then [s[|s| - 1]] else [])
  }

  /** Insert `e` behind every entry scoring at least as much. */
  function Insert(sorted: seq<Scored>, e: Scored): (r: seq<Scored>)
    ensures |r| == |sorted| + 1
  {
    if sorted == [] || sorted[|sorted| - 1].score >= e.score then sorted + [e]
    else Insert(sorted[..|sorted| - 1], e) + [sorted[|sorted| - 1]]
  }

  /** Inserting adds `e` and nothing else. */
  lemma {:induction false} InsertPerm(sorted: seq<Scored>, e: Scored)
    ensures multiset(Insert(sorted, e)) == multiset(sorted) + multiset{e}
    decreases |sorted|
  {
    if sorted != [] && sorted[|sorted| - 1].score < e.score {
      var init := sorted[..|sorted| - 1];
      InsertPerm(init, e);
      SplitLast(sorted);
    }
  }

  /** `scored.sort(key=lambda x: x["score"], reverse=True)`: Python's sort is stable, also in reverse. */
  function SortByScoreDesc(s: seq<Scored>): (r: seq<Scored>)
    ensures |r| == |s|
  {
    if s == [] then [] else Insert(SortByScoreDesc(s[..|s| - 1]), s[|s| - 1])
  }

  /** The sort loses and invents nothing. */
  lemma {:induction false} SortPerm(s: seq<Scored>)
    ensures multiset(SortByScoreDesc(s)) == multiset(s)
    decreases |s|
  {
    if s != [] {
      SortPerm(s[..|s| - 1]);
      InsertPerm(SortByScoreDesc(s[..|s| - 1]), s[|s| - 1]);
      SplitLast(s);
    }
  }

  lemma {:induction false} WithScoreAppend(a: seq<Scored>, b: seq<Scored>, x: real)
    ensures WithScore(a + b, x) == WithScore(a, x) + WithScore(b, x)
    decreases |b|
  {
    if b == [] {
      assert a + b == a;
    } else {
      assert (a + b)[..|a + b| - 1] == a + b[..|b| - 1];
      WithScoreAppend(a, b[..|b| - 1], x);
    }
  }

  lemma {:induction false} InsertSorted(sorted: seq<Scored>, e: Scored)
    requires SortedDesc(sorted)
    ensures SortedDesc(Insert(sorted, e))
    decreases |sorted|
  {
    if sorted != [] && sorted[|sorted| - 1].score < e.score {
      var init := sorted[..|sorted| - 1];
      var last := sorted[|sorted| - 1];
      InsertSorted(init, e);
      var r := Insert(init, e);
      InsertPerm(init, e);
      assert Insert(sorted, e) == r + [last];
      forall z | z in r ensures z.score >= last.score {
        assert z in multiset(r);
        assert z in multiset(init) || z == e;
      }
      SnocSorted(r, last);
    } else {
      forall z | z in sorted ensures z.score >= e.score {
        var i :| 0 <= i < |sorted| && sorted[i] == z;
        assert sorted[i].score >= sorted[|sorted| - 1].score;
      }
      SnocSorted(sorted, e);
    }
  }

  /** An entry no higher than everything before it keeps the list sorted. */
  lemma SnocSorted(a: seq<Scored>, x: Scored)
    requires SortedDesc(a)
    requires forall z :: z in a ==> z.score >= x.score
    ensures SortedDesc(a + [x])
  {
    forall i, j | 0 <= i < j < |a| + 1 ensures (a + [x])[i].score >= (a + [x])[j].score {
      if j == |a| {
        assert (a + [x])[i] in a;
      } else {
        assert (a + [x])[i] == a[i] && (a + [x])[j] == a[j];
      }
    }
  }

  lemma WithScoreSnoc(a: seq<Scored>, e: Scored, x: real)
    ensures WithScore(a + [e], x) == WithScore(a, x) + (if e.score == x then [e] else [])
  {
    assert (a + [e])[..|a|] == a;
  }

  lemma SplitLast(s: seq<Scored>)
    requires s != []
    ensures s == s[..|s| - 1] + [s[|s| - 1]]
  {
  }

  lemma SwapEmpty(a: seq<Scored>, b: seq<Scored>, c: seq<Scored>)
    requires b == [] || c == []
    ensures a + b + c == a + c + b
  {
    if b == [] {
      assert a + b == a && a + c + b == a + c;
    } else {
      assert a + c == a && a + b + c == a + b;
    }
  }

  lemma {:induction false} InsertStable(sorted: seq<Scored>, e: Scored, x: real)
    ensures WithScore(Insert(sorted, e), x) == WithScore(sorted + [e], x)
    decreases |sorted|
  {
    if sorted == [] || sorted[|sorted| - 1].score >= e.score {
      assert Insert(sorted, e) == sorted + [e];
    } else {
      var init := sorted[..|sorted| - 1];
      var last := sorted[|sorted| - 1];
      var r := Insert(init, e);
      var keepLast := if last.score == x then [last] else [];
      var keepE := if e.score == x then [e] else [];
      assert Insert(sorted, e) == r + [last];
      SplitLast(sorted);
      InsertStable(init, e, x);
      WithScoreSnoc(r, last, x);
      WithScoreSnoc(init, e, x);
      WithScoreSnoc(init, last, x);
      WithScoreSnoc(sorted, e, x);
      SwapEmpty(WithScore(init, x), keepE, keepLast);
      calc {
        WithScore(Insert(sorted, e), x);
        WithScore(r, x) + keepLast;
        WithScore(init, x) + keepE + keepLast;
        WithScore(init, x) + keepLast + keepE;
        WithScore(sorted, x) + keepE;
        WithScore(sorted + [e], x);
      }
    }
  }

  /** The sort puts the best score first. */
  lemma {:induction false} SortSorted(s: seq<Scored>)
    ensures SortedDesc(SortByScoreDesc(s))
  {
    if s != [] {
      SortSorted(s[..|s| - 1]);
      InsertSorted(SortByScoreDesc(s[..|s| - 1]), s[|s| - 1]);
    }
  }

  /** The sort keeps the entries with score `x` in their candidate order. */
  lemma {:induction false} SortStable(s: seq<Scored>, x: real)
    ensures WithScore(SortByScoreDesc(s), x) == WithScore(s, x)
  {
    if s != [] {
      var init := s[..|s| - 1];
      var e := s[|s| - 1];
      var sorted := SortByScoreDesc(init);
      assert SortByScoreDesc(s) == Insert(sorted, e);
      SortStable(init, x);
      InsertStable(sorted, e, x);
      WithScoreSnoc(sorted, e, x);
      WithScoreSnoc(init, e, x);
      SplitLast(s);
    }
  }

  /**
   * The sort puts the best score first, loses and invents nothing, and keeps entries with
   * equal scores in their candidate order.
   */
  lemma SortByScoreDescSpec(s: seq<Scored>)
    ensures SortedDesc(SortByScoreDesc(s))
    ensures multiset(SortByScoreDesc(s)) == multiset(s)
    ensures forall x :: WithScore(SortByScoreDesc(s), x) == WithScore(s, x)
  {
    SortSorted(s);
    SortPerm(s);
    forall x ensures WithScore(SortByScoreDesc(s), x) == WithScore(s, x) {
      SortStable(s, x);
    }
  }

  /** Python's `s[:n]`: a negative `n` counts from the end. */
  function SliceTo<T>(s: seq<T>, n: int): (r: seq<T>)
    ensures |r| <= |s| && r == s[..|r|]
    ensures n >= 0 ==> |r| == if n <= |s| then n else |s|
    ensures n < 0 ==> |r| == if -n <= |s| then |s| + n else 0
  {
    if n >= 0 then (if n <= |s| then s[..n] else s)
    else if -n <= |s| then s[..|s| + n] else []
  }

  /** The whole of `pick_best_frames_with_watsonx` as a function of its inputs. */
  function Picked(w: World, transcript: string, candidates: seq<Image>, pickN: int): seq<Scored> {
    SliceTo(SortByScoreDesc(Survivors(w, Excerpt(transcript, SelectionExcerpt), candidates)), pickN)
  }

  /** `pick_best_frames_with_watsonx`: score every candidate, then sort and cut. */
  method PickBestFramesWatsonx(w: World, transcript: string, candidates: seq<Image>, pickN: int) returns (picked: seq<Scored>)
    ensures picked == Picked(w, transcript, candidates, pickN)
  {
    var context := Excerpt(transcript, SelectionExcerpt);
    var scored: seq<Scored> := [];
    for i := 0 to |candidates|
      invariant scored == Survivors(w, context, candidates[..i])
    {
      assert candidates[..i + 1][..i] == candidates[..i];
      var s := ScoreOf(w, context, candidates[i]);
      if s.None? {
        continue;
      }
      scored := scored + [s.value];
    }
    assert candidates[..|candidates|] == candidates;
    scored := SortByScoreDesc(scored);
    picked := SliceTo(scored, pickN);
  }

  /** Cutting a sorted list keeps its best entries: nothing left behind beats anything kept. */
  lemma SortedPrefixIsBest(sorted: seq<Scored>, n: nat)
    requires SortedDesc(sorted) && n <= |sorted|
    ensures forall p, q :: p in sorted[..n] && q in multiset(sorted) - multiset(sorted[..n]) ==> q.score <= p.score
  {
    var kept := sorted[..n];
    var rest := sorted[n..];
    assert sorted == kept + rest;
    forall p, q | p in kept && q in multiset(sorted) - multiset(kept)
      ensures q.score <= p.score
    {
      assert q in multiset(rest);
      var a :| 0 <= a < |kept| && kept[a] == p;
      var b :| 0 <= b < |rest| && rest[b] == q;
      assert sorted[a] == p && sorted[n + b] == q;
    }
  }

  /** A cut keeps a sub-multiset. */
  lemma SliceSub(s: seq<Scored>, n: int)
    ensures multiset(SliceTo(s, n)) <= multiset(s)
  {
    var picked := SliceTo(s, n);
    assert s == picked + s[|picked|..];
  }

  /** Sorting and then cutting any list of entries keeps at most `n` of its best ones. */
  lemma TopEntries(survivors: seq<Scored>, n: int)
    ensures var picked := SliceTo(SortByScoreDesc(survivors), n);
      && (n >= 0 ==> |picked| == if n <= |survivors| then n else |survivors|)
      && SortedDesc(picked)
      && multiset(picked) <= multiset(survivors)
      && (forall p, q :: p in picked && q in multiset(survivors) - multiset(picked) ==> q.score <= p.score)
  {
    var sorted := SortByScoreDesc(survivors);
    SortSorted(survivors);
    SortPerm(survivors);
    var picked := SliceTo(sorted, n);
    assert picked == sorted[..|picked|];
    SortedPrefixIsBest(sorted, |picked|);
    SliceSub(sorted, n);
  }

  /**
   * What the watsonx selection returns: at most `pick_n` entries, best score first, and no
   * accepted candidate left out scores higher than one that was kept.
   */
  lemma PickedAreBest(w: World, transcript: string, candidates: seq<Image>, pickN: int)
    ensures var picked := Picked(w, transcript, candidates, pickN);
      var survivors := Survivors(w, Excerpt(transcript, SelectionExcerpt), candidates);
      && (pickN >= 0 ==> |picked| == if pickN <= |survivors| then pickN else |survivors|)
      && SortedDesc(picked)
      && multiset(picked) <= multiset(survivors)
      && (forall p, q :: p in picked && q in multiset(survivors) - multiset(picked) ==> q.score <= p.score)
  {
    TopEntries(Survivors(w, Excerpt(transcript, SelectionExcerpt), candidates), pickN);
  }

  /** Every selected entry is the accepted verdict on some candidate, so its time is that candidate's. */
  lemma PickedFromCandidates(w: World, transcript: string, candidates: seq<Image>, pickN: int)
    ensures var picked := Picked(w, transcript, candidates, pickN);
      forall k :: 0 <= k < |picked| ==>
        exists i :: 0 <= i < |candidates| && ScoreOf(w, Excerpt(transcript, SelectionExcerpt), candidates[i]) == Some(picked[k])
  {
    var context := Excerpt(transcript, SelectionExcerpt);
    var survivors := Survivors(w, context, candidates);
    SliceSub(SortByScoreDesc(survivors), pickN);
    SortPerm(survivors);
    var picked := SliceTo(SortByScoreDesc(survivors), pickN);
    forall k | 0 <= k < |picked|
      ensures exists i :: 0 <= i < |candidates| && ScoreOf(w, context, candidates[i]) == Some(picked[k])
    {
      assert picked[k] in multiset(picked);
      FromSurvivor(w, context, candidates, picked[k]);
    }
  }

  lemma FromSurvivor(w: World, context: string, candidates: seq<Image>, p: Scored)
    requires p in multiset(Survivors(w, context, candidates))
    ensures exists i :: 0 <= i < |candidates| && ScoreOf(w, context, candidates[i]) == Some(p)
  {
    var survivors := Survivors(w, context, candidates);
    var j :| 0 <= j < |survivors| && survivors[j] == p;
  }
}
