/** What a worker's state must be for a hop to continue where the single-process model would. */
module SessionState {
  import opened Wrappers
  import opened Ids
  import opened Decoder
  import opened SpanServer

  /** For layers [key.start, end), the worker has seen exactly the tokens `t` under `key`: its cache
      holds what those layers of the single-process model would. A dropped session is not claimed
      to be anything. */
  ghost predicate Has(w: WorkerState, span: DecoderSpan, key: Key, end: nat, t: Tokens)
    requires t.Aligned()
  {
    key in w.dropped ||
    match Lookup(w, key)
    case None => t == NO_TOKENS
    case Some(e) =>
      && e.end == end && e.length == |t.hidden|
      && CacheHolds(span.model, span.start, key.start, end, e.layers, t)
  }

  lemma HasWhenSpared(w: WorkerState, w': WorkerState, live: set<Sid>, span: DecoderSpan, key: Key, end: nat, t: Tokens)
    requires t.Aligned() && Has(w, span, key, end, t)
    requires w.Spares(live, w') && key.sid in live && Owned(w)
    ensures Has(w', span, key, end, t)
  {
    hide CacheHolds, Lookup;
    if key !in w'.dropped {
      LookupWhenSpared(w, w', live, key);
    }
  }

  lemma BlankHolds(m: Model, base: nat, l: nat, end: nat, size: nat)
    requires base <= l && end <= base + size
    ensures CacheHolds(m, base, l, end, seq(size, i => []), NO_TOKENS)
  {
    forall k: nat | l <= k < end
      ensures Keys(m, k, At(m, k, NO_TOKENS)) == []
    {
    }
  }

  /** One forward, answered: the answer is the next layers' rows of the single-process model, and
      the worker has seen the chunk as well. */
  lemma AnsweredAdvances(w: WorkerState, w': WorkerState, span: DecoderSpan, key: Key, end: nat, past: Tokens,
                         chunk: Tokens,
                         out: seq<Hidden>)
    requires past.Aligned() && chunk.Aligned() && key.start <= end
    requires Answered(w, w', span, key, ChunkAt(span.model, key.start, past, chunk), end, out)
    requires Has(w, span, key, end, past)
    ensures out == ChunkAt(span.model, end, past, chunk).hidden
    ensures Has(w', span, key, end, past.Append(chunk))
  {
    hide CacheHolds, At, ChunkAt, RunLayers, CausalMask, Lookup;
    var e := EntryOr(w, key, end, span.Size());
    if Lookup(w, key).None? {
      BlankHolds(span.model, span.start, key.start, end, span.Size());
    }
    RunLayersIsMonolith(span.model, span.start, key.start, end, past, chunk, e.layers, end - key.start);
  }

  /* ---------- Why a session must not be forgotten, and no forward repeated ---------- */

  /** A model whose only layer tells how many tokens it saw. */
  const COUNTING := Model(
    1,
    (_: nat, _: Hidden, _: int) => KeyValue([], []),
    (_: nat, _: Hidden, _: int, keys: seq<KeyValue>) => Tally(|keys|))

  const COUNTING_SPAN := DecoderSpan(COUNTING, 0, 1)

  function Tally(n: nat): Hidden {
    Hidden(seq(n, _ => 0.0))
  }

  function Tallies(from: nat, count: nat): seq<Hidden> {
    seq(count, i requires 0 <= i < count => Tally(from + i + 1))
  }

  lemma TalliesDiffer(a: nat, b: nat, count: nat)
    requires count > 0
    ensures Tallies(a, count) == Tallies(b, count) <==> a == b
  {
    assert Tallies(a, count)[0] == Tally(a + 1) && Tallies(b, count)[0] == Tally(b + 1);
    assert |Tally(a + 1).vector| == a + 1 && |Tally(b + 1).vector| == b + 1;
  }

  lemma CountingRight(past: Tokens, chunk: Tokens)
    requires past.Aligned() && chunk.Aligned()
    ensures ChunkAt(COUNTING, 1, past, chunk).hidden == Tallies(|past.hidden|, |chunk.hidden|)
  {
    AtNext(COUNTING, 0, past.Append(chunk));
  }

  lemma CountingAnswer(cache: seq<KeyValue>, length: nat, chunk: Tokens)
    requires chunk.Aligned()
    ensures COUNTING_SPAN.Complete(chunk, [cache], length, 0, 1).result ==
              if |chunk.hidden| == 1 || length == |cache| then Ok(Tallies(|cache|, |chunk.hidden|)) else Err(MaskShape)
  {
    var q := |chunk.hidden|;
    var mask, keys := CausalMask(q, length), cache + Keys(COUNTING, 0, chunk);
    var once := RunLayers(COUNTING, 0, 0, 1, mask, chunk, [cache], 1);
    assert COUNTING_SPAN.Complete(chunk, [cache], length, 0, 1) == once;
    assert [cache][0] == cache;
    if Fits(mask, q, |keys|) {
      var out := LayerOutput(COUNTING, 0, mask, chunk, keys);
      assert once.result == Ok(out);
      forall i | 0 <= i < q
        ensures out[i] == Tally(|cache| + i + 1)
      {
        if length == |cache| {
          CausalMaskShowsPrefix(keys, q, length, i);
        }
        assert |Visible(keys, mask, q, i)| == |cache| + i + 1;
      }
      assert out == Tallies(|cache|, q);
    }
  }

  /** A worker whose cache holds `cache` and which believes it has seen `length` tokens answers a chunk
      that follows `past` in two cases: a single token, which needs no mask, and a length that agrees
      with the cache. The answer is right exactly when the cache holds as many tokens as came before.
      So after a session was forgotten, and when a single token is sent again after a forward that
      ran but did not commit, an answer may be wrong. */
  lemma OnlyWholeCachesAnswerRight(cache: seq<KeyValue>, length: nat, past: Tokens, chunk: Tokens)
    requires past.Aligned() && chunk.Aligned() && chunk.hidden != []
    ensures var result := COUNTING_SPAN.Complete(chunk, [cache], length, 0, 1).result;
            && (result.Ok? <==> |chunk.hidden| == 1 || length == |cache|)
            && (result.Ok? ==> (result.value == ChunkAt(COUNTING, 1, past, chunk).hidden <==> |cache| == |past.hidden|))
  {
    CountingAnswer(cache, length, chunk);
    CountingRight(past, chunk);
    TalliesDiffer(|cache|, |past.hidden|, |chunk.hidden|);
  }

  /** What a run over a cache that holds `cache` leaves there. */
  lemma CountingKeeps(cache: seq<KeyValue>, length: nat, chunk: Tokens)
    requires chunk.Aligned()
    ensures COUNTING_SPAN.Complete(chunk, [cache], length, 0, 1).layers == [cache + Keys(COUNTING, 0, chunk)]
  {
    var q := |chunk.hidden|;
    var mask, keys := CausalMask(q, length), cache + Keys(COUNTING, 0, chunk);
    assert COUNTING_SPAN.Complete(chunk, [cache], length, 0, 1)
        == RunLayers(COUNTING, 0, 0, 1, mask, chunk, [cache], 1);
    assert [cache][0] == cache && [cache][0 := keys] == [keys];
  }

  /** A run of a single token cannot fail, unless a layer raises. */
  lemma CountingRuns(layers: seq<seq<KeyValue>>, past: nat, x: Tokens)
    requires |layers| == 1 && x.Aligned() && |x.hidden| == 1
    ensures COUNTING_SPAN.Run(x, layers, past, 0, 1, 1).result.Ok?
  {
    hide RunLayers, CausalMask;
    assert layers == [layers[0]];
    CountingAnswer(layers[0], past, x);
  }

  /** The first part of a forward that finds its session, or room for it. */
  method Begins(w: SpanWorker, key: Key, x: Tokens) returns (j: nat)
    requires w.Valid() && w.span == COUNTING_SPAN && key.start == 0 && x.Aligned()
    requires if key in w.sessions then w.sessions[key].end == 1 else |w.sessions| < w.maxSessions
    modifies w, w.caches
    ensures w.Valid() && w.Others(key.sid) && (key in w.dropped <==> key in old(w.dropped))
    ensures BegunFrom(old(w.State()), w.State(), j, key, x, 1, 1) && w.handlers.Keys == old(w.handlers).Keys + {j}
    ensures j in w.handlers && w.handlers[j] == Waiting(key, w.handlers[j].cache, x, w.handlers[j].past, 1)
  {
    hide SpanWorker.Others, RowFor, HandlersOwned;
    assert key in w.sessions ==> w.sessions[key].start == 0;
    assert |w.sessions| < w.maxSessions ==> w.Kept(w.sessions, 0) == w.sessions;
    ghost var w0 := w.State();
    var begun := w.Begin(key, x, 1, 0);
    j := begun.value;
  }

  /** The executor's turn, in which no layer raises. */
  method Runs(w: SpanWorker, j: nat)
    requires w.Valid() && w.span == COUNTING_SPAN && j in w.handlers && w.handlers[j].Waiting?
    requires var h := w.handlers[j]; h.key.start == 0 && h.end == 1 && |h.x.hidden| == 1
    modifies w`handlers, w.handlers[j].cache
    ensures w.Valid() && w.Others(old(w.handlers)[j].key.sid) && w.dropped == old(w.dropped)
    ensures RanFrom(old(w.State()), w.State(), j, COUNTING_SPAN)
  {
    HandlerOwned(w.handlers, w.caches, w.nextHandler, j);
    hide SpanWorker.Others, RowsOwned, HandlersOwned, DecoderSpan.Run, DecoderSpan.Complete;
    var h := w.handlers[j];
    CountingRuns(h.cache.layers, h.past, h.x);
    var ran := w.Run(j, 1);
  }

  /** The rest of the forward, in one go. */
  method RunsAndCommits(w: SpanWorker, j: nat) returns (out: seq<Hidden>, ghost w2: WorkerState)
    requires w.Valid() && w.span == COUNTING_SPAN && j in w.handlers && w.handlers[j].Waiting?
    requires var h := w.handlers[j]; h.key.start == 0 && h.end == 1 && |h.x.hidden| == 1
    modifies w, w.handlers[j].cache
    ensures w.Valid() && w.Others(old(w.handlers)[j].key.sid) && w.dropped == old(w.dropped)
    ensures RanFrom(old(w.State()), w2, j, COUNTING_SPAN) && CommittedFrom(w2, w.State(), j)
    ensures j in w2.handlers && out == w2.handlers[j].out && w.handlers == old(w.handlers) - {j}
  {
    hide Table.KeptBut, HandlersKept, RowsOwned, HandlersOwned, RanFrom;
    ghost var t1, sid := Table(w.sessions, w.dropped), w.handlers[j].key.sid;
    Runs(w, j);
    w2 := w.State();
    ghost var t2 := Table(w.sessions, w.dropped);
    RanFinished(old(w.State()), w2, j, COUNTING_SPAN);
    out := w.Commit(j);
    KeptTransitive(t1, t2, Table(w.sessions, w.dropped), sid);
    HandlersTransitive(old(w.handlers), w2.handlers, w.handlers, sid);
  }

  /** A worker handles one single-token forward from beginning to end, and nothing comes between. */
  method Undisturbed(w: SpanWorker, key: Key, x: Tokens) returns (out: seq<Hidden>)
    requires w.Valid() && w.span == COUNTING_SPAN && w.handlers == map[] && key.start == 0 && key !in w.dropped
    requires x.Aligned() && |x.hidden| == 1
    requires if key in w.sessions then w.sessions[key].end == 1 else |w.sessions| < w.maxSessions
    modifies w, w.caches
    ensures w.Valid() && w.Others(key.sid) && w.handlers == map[] && key !in w.dropped
    ensures Answered(old(w.State()), w.State(), COUNTING_SPAN, key, x, 1, out)
  {
    hide Table.KeptBut, HandlersKept, RowsOwned, HandlersOwned, BegunFrom, RanFrom, CommittedFrom, Answered, EntryOr,
         Lookup;
    ghost var w0, t0 := w.State(), Table(w.sessions, w.dropped);
    w.EntrySized(key, 1);
    LookupEnds(w, key);
    var j := Begins(w, key, x);
    ghost var w1, t1 := w.State(), Table(w.sessions, w.dropped);
    HandlerOwned(w.handlers, w.caches, w.nextHandler, j);
    ghost var w2;
    out, w2 := RunsAndCommits(w, j);
    ForwardOnce(w0, w1, w2, w.State(), COUNTING_SPAN, j, key, x, 1);
    KeptTransitive(t0, t1, Table(w.sessions, w.dropped), key.sid);
    HandlersTransitive(w0.handlers, w1.handlers, w.handlers, key.sid);
  }

  lemma LookupEnds(w: SpanWorker, key: Key)
    requires key in w.sessions ==> w.sessions[key].end == 1
    ensures Lookup(w.State(), key).Some? ==> Lookup(w.State(), key).value.end == 1
  {
  }

  lemma RanFinished(w: WorkerState, w': WorkerState, j: nat, span: DecoderSpan)
    requires RanFrom(w, w', j, span)
    ensures j in w'.handlers && w'.handlers[j].Finished? && w'.handlers[j].key == w.handlers[j].key
    ensures w'.handlers - {j} == w.handlers - {j}
  {
    hide DecoderSpan.Complete;
  }

  /** What a one-layer worker's cache for a session holds. */
  ghost function Cached(w: WorkerState, key: Key): (cache: seq<KeyValue>) {
    var e := EntryOr(w, key, 1, 1);
    if |e.layers| == 1 then e.layers[0] else []
  }

  /** An answered forward leaves the chunk in the cache, and was right exactly when the cache held as many
      tokens as came before. */
  lemma AnsweredRightIffUnseen(w: WorkerState, w': WorkerState, key: Key, past: Tokens, x: Tokens, out: seq<Hidden>)
    requires Answered(w, w', COUNTING_SPAN, key, x, 1, out) && key.start == 0
    requires past.Aligned() && x.hidden != []
    ensures out == ChunkAt(COUNTING, 1, past, x).hidden <==> |Cached(w, key)| == |past.hidden|
    ensures key !in w'.dropped ==> |Cached(w', key)| == |Cached(w, key)| + |x.hidden|
  {
    hide DecoderSpan.Complete, ChunkAt;
    var e := EntryOr(w, key, 1, 1);
    assert e.layers == [Cached(w, key)];
    OnlyWholeCachesAnswerRight(Cached(w, key), e.length, past, x);
    CountingKeeps(Cached(w, key), e.length, x);
  }
}
