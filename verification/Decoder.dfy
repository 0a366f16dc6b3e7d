/** dvlm/parts.py: the causal mask, and a contiguous run of decoder layers over a mutable KV cache.

    Tensor arithmetic is uninterpreted. A decoder layer is two functions: `project` gives the
    key/value a token leaves in the cache, and `attend` gives the token's output from the
    key/values it is allowed to see. */
module Decoder {
  import opened Ids
  import opened Wrappers

  datatype Hidden = Hidden(vector: seq<real>)

  datatype KeyValue = KeyValue(key: seq<real>, value: seq<real>)

  datatype Model = Model(
    layers: nat,
    project: (nat, Hidden, int) -> KeyValue,
    attend: (nat, Hidden, int, seq<KeyValue>) -> Hidden)

  /** What travels between client and servers: hidden states and their position ids. */
  datatype Tokens = Tokens(hidden: seq<Hidden>, positions: seq<int>) {
    /** The two tensors agree on the sequence length. */
    predicate Aligned() {
      |hidden| == |positions|
    }

    function Append(more: Tokens): Tokens {
      Tokens(hidden + more.hidden, positions + more.positions)
    }
  }

  const NO_TOKENS := Tokens([], [])

  /* ---------- The single-process model ---------- */

  /** The key/values that tokens `t`, entering layer `l`, leave in that layer's cache. */
  function Keys(m: Model, l: nat, t: Tokens): (keys: seq<KeyValue>)
    requires t.Aligned()
    ensures |keys| == |t.hidden|
  {
    seq(|t.hidden|, i requires 0 <= i < |t.hidden| => m.project(l, t.hidden[i], t.positions[i]))
  }

  /** One causal layer over a whole sequence: token i sees the key/values of tokens 0..i and no others. */
  function CausalLayer(m: Model, l: nat, x: Tokens): (r: Tokens)
    requires x.Aligned()
    ensures r.Aligned() && r.positions == x.positions
  {
    var keys := Keys(m, l, x);
    Tokens(
      seq(|x.hidden|, i requires 0 <= i < |x.hidden| => m.attend(l, x.hidden[i], x.positions[i], keys[..i + 1])),
      x.positions)
  }

  /** The tokens entering layer `l` when the whole sequence `t` runs through one causal decoder. */
  function At(m: Model, l: nat, t: Tokens): (r: Tokens)
    requires t.Aligned()
    ensures r.Aligned() && r.positions == t.positions
    decreases l
  {
    if l == 0 then t else CausalLayer(m, l - 1, At(m, l - 1, t))
  }

  /** The part of `At(m, l, past + chunk)` that belongs to `chunk`. */
  function ChunkAt(m: Model, l: nat, past: Tokens, chunk: Tokens): (r: Tokens)
    requires past.Aligned() && chunk.Aligned()
    ensures r.Aligned() && r.positions == chunk.positions
  {
    assert past.Append(chunk).positions[|past.hidden|..] == chunk.positions;
    Tokens(At(m, l, past.Append(chunk)).hidden[|past.hidden|..], chunk.positions)
  }

  /** The decoder, row by row: entering layer 0 the tokens are themselves, and row i of the next layer is that
      layer's attention at its own position over what tokens 0..i, each at its own position, leave there. */
  lemma AtRow(m: Model, l: nat, t: Tokens, i: nat)
    requires t.Aligned() && i < |t.hidden|
    ensures At(m, 0, t) == t
    ensures var x := At(m, l, t).hidden;
            At(m, l + 1, t).hidden[i] ==
              m.attend(l, x[i], t.positions[i],
                       seq(i + 1, j requires 0 <= j <= i => m.project(l, x[j], t.positions[j])))
  {
    var x := At(m, l, t);
    assert Keys(m, l, x)[..i + 1]
        == seq(i + 1, j requires 0 <= j <= i => m.project(l, x.hidden[j], t.positions[j]));
  }

  lemma KeysAppend(m: Model, l: nat, x: Tokens, y: Tokens)
    requires x.Aligned() && y.Aligned()
    ensures Keys(m, l, x.Append(y)) == Keys(m, l, x) + Keys(m, l, y)
  {
  }

  /** A causal layer's first rows do not depend on what follows them. */
  lemma CausalLayerPrefix(m: Model, l: nat, x: Tokens, y: Tokens)
    requires x.Aligned() && y.Aligned()
    ensures CausalLayer(m, l, x.Append(y)).hidden[..|x.hidden|] == CausalLayer(m, l, x).hidden
  {
    KeysAppend(m, l, x, y);
    forall i | 0 <= i < |x.hidden|
      ensures CausalLayer(m, l, x.Append(y)).hidden[i] == CausalLayer(m, l, x).hidden[i]
    {
      assert (Keys(m, l, x) + Keys(m, l, y))[..i + 1] == Keys(m, l, x)[..i + 1];
    }
  }

  /** Causality: later tokens never change what earlier tokens compute, at any layer. */
  lemma {:induction false} AtAppend(m: Model, l: nat, past: Tokens, chunk: Tokens)
    requires past.Aligned() && chunk.Aligned()
    ensures At(m, l, past.Append(chunk)) == At(m, l, past).Append(ChunkAt(m, l, past, chunk))
  {
    hide CausalLayer;
    if l > 0 {
      AtAppend(m, l - 1, past, chunk);
      CausalLayerPrefix(m, l - 1, At(m, l - 1, past), ChunkAt(m, l - 1, past, chunk));
    }
    assert At(m, l, past.Append(chunk)).hidden[..|past.hidden|] == At(m, l, past).hidden;
  }

  /** The rows of two consecutive chunks are the rows of the two chunks together. */
  lemma ChunkAtAppend(m: Model, l: nat, past: Tokens, a: Tokens, b: Tokens)
    requires past.Aligned() && a.Aligned() && b.Aligned()
    ensures past.Append(a).Append(b) == past.Append(a.Append(b))
    ensures ChunkAt(m, l, past, a).Append(ChunkAt(m, l, past.Append(a), b)) == ChunkAt(m, l, past, a.Append(b))
  {
    hide At;
    assert past.Append(a).Append(b) == past.Append(a.Append(b));
    AtAppend(m, l, past.Append(a), b);
    AtAppend(m, l, past, a);
    AtAppend(m, l, past, a.Append(b));
  }

  /** Entering layer 0, a chunk is itself. */
  lemma ChunkAtEntry(m: Model, past: Tokens, chunk: Tokens)
    requires past.Aligned() && chunk.Aligned()
    ensures ChunkAt(m, 0, past, chunk) == chunk
  {
    assert past.Append(chunk).hidden[|past.hidden|..] == chunk.hidden;
  }

  /* ---------- The causal mask ---------- */

  /** An attention mask: `rows[i][k]` is true when query i must not see key k. */
  datatype Mask = Mask(width: nat, rows: seq<seq<bool>>)

  function CausalMask(queries: nat, past: nat): Option<Mask> {
    if queries == 1 then None
    else Some(Mask(past + queries, seq(queries, i => seq(past + queries, k => k > i + past))))
  }

  /** The key/values a row of a mask lets through, in cache order. */
  function Unmasked(keys: seq<KeyValue>, row: seq<bool>): seq<KeyValue>
    requires |keys| == |row|
  {
    if keys == [] then []
    else if row[|row| - 1] then Unmasked(keys[..|keys| - 1], row[..|row| - 1])
    else Unmasked(keys[..|keys| - 1], row[..|row| - 1]) + [keys[|keys| - 1]]
  }

  /** The tensor shapes attention accepts: one row a query, one column a cached token. */
  predicate Fits(mask: Option<Mask>, queries: nat, keys: nat) {
    mask.Some? ==>
      && mask.value.width == keys
      && |mask.value.rows| == queries
      && forall i :: 0 <= i < queries ==> |mask.value.rows[i]| == keys
  }

  /** What query `i` sees of the cache; without a mask it sees all of it. */
  function Visible(keys: seq<KeyValue>, mask: Option<Mask>, queries: nat, i: nat): seq<KeyValue>
    requires Fits(mask, queries, |keys|) && i < queries
  {
    match mask
    case None => keys
    case Some(m) => Unmasked(keys, m.rows[i])
  }

  lemma {:induction false} UnmaskedPrefix(keys: seq<KeyValue>, row: seq<bool>, n: nat)
    requires |keys| == |row| && n <= |keys|
    requires forall k :: 0 <= k < |row| ==> row[k] == (k >= n)
    ensures Unmasked(keys, row) == keys[..n]
  {
    if keys != [] {
      var short, last := keys[..|keys| - 1], row[..|row| - 1];
      UnmaskedPrefix(short, last, if n == |keys| then n - 1 else n);
      if n == |keys| {
        assert keys == short + [keys[n - 1]];
      } else {
        assert short[..n] == keys[..n];
      }
    }
  }

  /** The mask, including its `None` for a single query, shows query i of a chunk exactly the
      past tokens and the chunk's own tokens up to i. */
  lemma CausalMaskShowsPrefix(keys: seq<KeyValue>, queries: nat, past: nat, i: nat)
    requires |keys| == past + queries && i < queries
    ensures Fits(CausalMask(queries, past), queries, |keys|)
    ensures Visible(keys, CausalMask(queries, past), queries, i) == keys[..past + i + 1]
  {
    if queries == 1 {
      assert keys[..past + i + 1] == keys;
    } else {
      var row := CausalMask(queries, past).value.rows[i];
      UnmaskedPrefix(keys, row, past + i + 1);
    }
  }

  /* ---------- Running a span of layers over a cache ---------- */

  datatype ForwardError = OutsideSpan | MaskShape | LayerFault

  datatype RunOutcome = RunOutcome(result: Result<seq<Hidden>, ForwardError>, layers: seq<seq<KeyValue>>)

  /** One layer over a chunk, after its key/values have been appended to the cache. */
  function LayerOutput(m: Model, l: nat, mask: Option<Mask>, x: Tokens, keys: seq<KeyValue>): (out: seq<Hidden>)
    requires x.Aligned() && Fits(mask, |x.hidden|, |keys|)
    ensures |out| == |x.hidden|
  {
    seq(|x.hidden|, i requires 0 <= i < |x.hidden| =>
      m.attend(l, x.hidden[i], x.positions[i], Visible(keys, mask, |x.hidden|, i)))
  }

  /** Layers [l, end) over a cache whose slot 0 belongs to layer `base`. `budget` is the number of
      layers that run before one raises; each layer appends to its slot before it attends. */
  function RunLayers(m: Model, base: nat, l: nat, end: nat, mask: Option<Mask>, x: Tokens,
                     cache: seq<seq<KeyValue>>, budget: nat): (r: RunOutcome)
    requires base <= l <= end <= base + |cache| && x.Aligned()
    ensures |r.layers| == |cache| && (r.result.Ok? ==> budget >= end - l && |r.result.value| == |x.positions|)
    decreases end - l
  {
    if l == end then RunOutcome(Ok(x.hidden), cache)
    else if budget == 0 then RunOutcome(Err(LayerFault), cache)
    else
      var keys := cache[l - base] + Keys(m, l, x);
      var cache' := cache[l - base := keys];
      if !Fits(mask, |x.hidden|, |keys|) then RunOutcome(Err(MaskShape), cache')
      else
        var out := LayerOutput(m, l, mask, x, keys);
        RunLayers(m, base, l + 1, end, mask, Tokens(out, x.positions), cache', budget - 1)
  }

  /** A run leaves the slots before its first layer alone. */
  lemma {:induction false} SlotsBefore(m: Model, base: nat, l: nat, end: nat, mask: Option<Mask>, x: Tokens,
                                       cache: seq<seq<KeyValue>>, budget: nat)
    requires base <= l <= end <= base + |cache| && x.Aligned()
    ensures RunLayers(m, base, l, end, mask, x, cache, budget).layers[..l - base] == cache[..l - base]
    decreases end - l
  {
    if l < end && budget > 0 {
      var keys := cache[l - base] + Keys(m, l, x);
      var cache' := cache[l - base := keys];
      if Fits(mask, |x.hidden|, |keys|) {
        var out := LayerOutput(m, l, mask, x, keys);
        SlotsBefore(m, base, l + 1, end, mask, Tokens(out, x.positions), cache', budget - 1);
        var after := RunLayers(m, base, l + 1, end, mask, Tokens(out, x.positions), cache', budget - 1).layers;
        assert after[..l - base] == after[..l + 1 - base][..l - base];
      }
    }
  }

  /** A run that succeeds is the run in which no layer raises. */
  lemma {:induction false} SuccessNeedsNoBudget(m: Model, base: nat, l: nat, end: nat, mask: Option<Mask>, x: Tokens,
                                                cache: seq<seq<KeyValue>>, budget: nat)
    requires base <= l <= end <= base + |cache| && x.Aligned()
    requires RunLayers(m, base, l, end, mask, x, cache, budget).result.Ok?
    ensures RunLayers(m, base, l, end, mask, x, cache, budget)
         == RunLayers(m, base, l, end, mask, x, cache, end - l)
    decreases end - l
  {
    if l < end {
      var keys := cache[l - base] + Keys(m, l, x);
      var out := LayerOutput(m, l, mask, x, keys);
      SuccessNeedsNoBudget(m, base, l + 1, end, mask, Tokens(out, x.positions), cache[l - base := keys], budget - 1);
    }
  }

  /** Slots of layers [l, end) hold exactly the key/values of `t` in the single-process model. */
  ghost predicate CacheHolds(m: Model, base: nat, l: nat, end: nat, cache: seq<seq<KeyValue>>, t: Tokens)
    requires t.Aligned()
  {
    && base <= l && end <= base + |cache|
    && forall k: nat :: l <= k < end ==> cache[k - base] == Keys(m, k, At(m, k, t))
  }

  /** What a faithful slot holds: a key/value for each token, from its row and its own position. */
  lemma SlotHolds(m: Model, base: nat, l: nat, end: nat, cache: seq<seq<KeyValue>>, t: Tokens, k: nat, i: nat)
    requires t.Aligned() && CacheHolds(m, base, l, end, cache, t) && l <= k < end && i < |t.hidden|
    ensures |cache[k - base]| == |t.hidden|
    ensures cache[k - base][i] == m.project(k, At(m, k, t).hidden[i], t.positions[i])
  {
  }

  /** One layer applied to a chunk over a faithful cache is that layer of the single-process model. */
  lemma LayerIsMonolith(m: Model, l: nat, past: Tokens, chunk: Tokens, keys: seq<KeyValue>)
    requires past.Aligned() && chunk.Aligned()
    requires keys == Keys(m, l, At(m, l, past)) + Keys(m, l, ChunkAt(m, l, past, chunk))
    ensures Fits(CausalMask(|chunk.hidden|, |past.hidden|), |chunk.hidden|, |keys|)
    ensures keys == Keys(m, l, At(m, l, past.Append(chunk)))
    ensures LayerOutput(m, l, CausalMask(|chunk.hidden|, |past.hidden|), ChunkAt(m, l, past, chunk), keys)
         == ChunkAt(m, l + 1, past, chunk).hidden
  {
    hide At;
    var x, all := ChunkAt(m, l, past, chunk), At(m, l, past.Append(chunk));
    AtAppend(m, l, past, chunk);
    KeysAppend(m, l, At(m, l, past), x);
    AtNext(m, l, past.Append(chunk));
    var n, q := |past.hidden|, |chunk.hidden|;
    var out := LayerOutput(m, l, CausalMask(q, n), x, keys);
    forall i | 0 <= i < q
      ensures out[i] == CausalLayer(m, l, all).hidden[n + i]
    {
      CausalMaskShowsPrefix(keys, q, n, i);
      assert all.hidden[n + i] == x.hidden[i] && all.positions[n + i] == x.positions[i];
    }
  }

  lemma AtNext(m: Model, l: nat, t: Tokens)
    requires t.Aligned()
    ensures At(m, l + 1, t) == CausalLayer(m, l, At(m, l, t))
  {
  }

  /** Over a cache that holds `past`, running layers [l, end) on a chunk gives exactly the chunk's
      rows of the single-process model, and leaves a cache that holds `past + chunk`. It can fail
      only because a layer raised. Slots outside [l, end) are untouched. */
  lemma {:induction false} RunLayersIsMonolith(m: Model, base: nat, l: nat, end: nat, past: Tokens, chunk: Tokens,
                                               cache: seq<seq<KeyValue>>, budget: nat)
    requires past.Aligned() && chunk.Aligned() && l <= end
    requires CacheHolds(m, base, l, end, cache, past)
    ensures var r := RunLayers(m, base, l, end, CausalMask(|chunk.hidden|, |past.hidden|),
                               ChunkAt(m, l, past, chunk), cache, budget);
            && r.result == (if budget < end - l then Err(LayerFault) else Ok(ChunkAt(m, end, past, chunk).hidden))
            && (budget >= end - l ==> CacheHolds(m, base, l, end, r.layers, past.Append(chunk)))
            && forall s :: 0 <= s < |cache| && !(l - base <= s < end - base) ==> r.layers[s] == cache[s]
    decreases end - l
  {
    hide At;
    if l < end && budget > 0 {
      var keys := cache[l - base] + Keys(m, l, ChunkAt(m, l, past, chunk));
      LayerIsMonolith(m, l, past, chunk, keys);
      var cache' := cache[l - base := keys];
      RunLayersIsMonolith(m, base, l + 1, end, past, chunk, cache', budget - 1);
      var r := RunLayers(m, base, l + 1, end, CausalMask(|chunk.hidden|, |past.hidden|),
                         ChunkAt(m, l + 1, past, chunk), cache', budget - 1);
      assert ChunkAt(m, l + 1, past, chunk).positions == ChunkAt(m, l, past, chunk).positions;
      assert r.layers[l - base] == keys;
    }
  }

  /* ---------- Spans as servers hold them ---------- */

  /** The cache of one session: a list of key/values for each local layer, extended in place. */
  class KVCache {
    var layers: seq<seq<KeyValue>>
    /** The session it was made for. */
    ghost const key: Key

    constructor (size: nat, ghost key: Key)
      ensures layers == seq(size, i => []) && this.key == key
    {
      this.key := key;
      layers := seq(size, i => []);
    }
  }

  /** Layers [start, end) of `model`; local layer i is global layer start + i. */
  datatype DecoderSpan = DecoderSpan(model: Model, start: nat, end: nat) {
    predicate Valid() {
      start < end <= model.layers
    }

    function Size(): nat
      requires Valid()
    {
      end - start
    }

    /** What `Forward` does to a cache, as a function of the values it finds there. */
    function Run(x: Tokens, layers: seq<seq<KeyValue>>, past: nat, first: nat, last: nat, budget: nat): (r: RunOutcome)
      requires Valid() && x.Aligned() && |layers| == Size()
      ensures |r.layers| == |layers|
      ensures r.result.Ok? ==> budget >= last - first && |r.result.value| == |x.positions|
    {
      if !(start <= first < last <= end) then RunOutcome(Err(OutsideSpan), layers)
      else RunLayers(model, start, first, last, CausalMask(|x.hidden|, past), x, layers, budget)
    }

    /** A run that gets to its first layer appends there, for each token, what the layer makes of the token
        at its own position, and leaves every slot before it alone. */
    lemma RunAppends(x: Tokens, layers: seq<seq<KeyValue>>, past: nat, first: nat, last: nat, budget: nat)
      requires Valid() && x.Aligned() && |layers| == Size() && start <= first < last <= end && budget > 0
      ensures var after := Run(x, layers, past, first, last, budget).layers;
              && after[..first - start] == layers[..first - start]
              && after[first - start] == layers[first - start] +
                   seq(|x.hidden|, i requires 0 <= i < |x.hidden| => model.project(first, x.hidden[i], x.positions[i]))
    {
      var mask := CausalMask(|x.hidden|, past);
      var keys := layers[first - start] + Keys(model, first, x);
      assert Keys(model, first, x)
          == seq(|x.hidden|, i requires 0 <= i < |x.hidden| => model.project(first, x.hidden[i], x.positions[i]));
      var after := Run(x, layers, past, first, last, budget).layers;
      if Fits(mask, |x.hidden|, |keys|) {
        var out := LayerOutput(model, first, mask, x, keys);
        SlotsBefore(model, start, first + 1, last, mask, Tokens(out, x.positions), layers[first - start := keys],
                    budget - 1);
        assert after[first - start] == after[..first + 1 - start][first - start];
        assert after[..first - start] == after[..first + 1 - start][..first - start];
      }
    }

    /** A run in which no layer raises. */
    function Complete(x: Tokens, layers: seq<seq<KeyValue>>, past: nat, first: nat, last: nat): (r: RunOutcome)
      requires Valid() && x.Aligned() && |layers| == Size()
      ensures |r.layers| == |layers|
      ensures r.result.Ok? ==> |r.result.value| == |x.positions|
    {
      Run(x, layers, past, first, last, if first <= last then last - first else 0)
    }

    lemma SuccessIsComplete(x: Tokens, layers: seq<seq<KeyValue>>, past: nat, first: nat, last: nat, budget: nat)
      requires Valid() && x.Aligned() && |layers| == Size()
      ensures Run(x, layers, past, first, last, budget).result.Ok? ==>
                Run(x, layers, past, first, last, budget) == Complete(x, layers, past, first, last)
    {
      if Run(x, layers, past, first, last, budget).result.Ok? {
        SuccessNeedsNoBudget(model, start, first, last, CausalMask(|x.hidden|, past), x, layers, budget);
      }
    }

    method Forward(x: Tokens, cache: KVCache, past: nat, first: nat, last: nat, budget: nat)
      returns (r: Result<seq<Hidden>, ForwardError>)
      requires Valid() && x.Aligned() && |cache.layers| == Size()
      modifies cache
      ensures RunOutcome(r, cache.layers) == Run(x, old(cache.layers), past, first, last, budget)
    {
      if !(start <= first < last <= end) {
        return Err(OutsideSpan);
      }
      var mask := CausalMask(|x.hidden|, past);
      var hidden := x.hidden;
      var l := first;
      while l < last
        invariant first <= l <= last && |hidden| == |x.positions| && |cache.layers| == Size()
        invariant l - first <= budget
        invariant RunLayers(model, start, l, last, mask, Tokens(hidden, x.positions), cache.layers,
                            budget - (l - first))
               == Run(x, old(cache.layers), past, first, last, budget)
      {
        if budget == l - first {
          return Err(LayerFault);
        }
        var keys := cache.layers[l - start] + Keys(model, l, Tokens(hidden, x.positions));
        cache.layers := cache.layers[l - start := keys];
        if !Fits(mask, |hidden|, |keys|) {
          return Err(MaskShape);
        }
        hidden := LayerOutput(model, l, mask, Tokens(hidden, x.positions), keys);
        l := l + 1;
      }
      return Ok(hidden);
    }
  }

  predicate AllAligned(chunks: seq<Tokens>) {
    forall i :: 0 <= i < |chunks| ==> chunks[i].Aligned()
  }

  function Concat(chunks: seq<Tokens>): (t: Tokens)
    ensures AllAligned(chunks) ==> t.Aligned()
  {
    if chunks == [] then NO_TOKENS else chunks[0].Append(Concat(chunks[1..]))
  }

  /* ---------- Any chunking through any partition ---------- */

  /** One hop of a chain: layers [first, last) of a span, possibly entered mid-way, and its cache. */
  datatype Stage = Stage(span: DecoderSpan, first: nat, last: nat, cache: seq<seq<KeyValue>>)

  /** The stages cover [l, end) without gap or overlap, each inside its own span. */
  ghost predicate Partition(m: Model, stages: seq<Stage>, l: nat, end: nat) {
    if stages == [] then l == end
    else
      var s := stages[0];
      && s.span.Valid() && s.span.model == m && s.span.start <= s.first < s.last <= s.span.end
      && |s.cache| == s.span.Size()
      && s.first == l && Partition(m, stages[1..], s.last, end)
  }

  /** Every stage's cache holds exactly the tokens `t`. */
  ghost predicate StagesHold(m: Model, stages: seq<Stage>, t: Tokens)
    requires t.Aligned()
  {
    forall i :: 0 <= i < |stages| ==>
      CacheHolds(m, stages[i].span.start, stages[i].first, stages[i].last, stages[i].cache, t)
  }

  /** Sends one chunk through the stages in order; no layer raises. */
  ghost function Through(m: Model, stages: seq<Stage>, past: nat, l: nat, end: nat, x: Tokens)
    : (r: Option<(Tokens, seq<Stage>)>)
    requires Partition(m, stages, l, end) && x.Aligned()
    ensures r.Some? ==> r.value.0.Aligned() && Partition(m, r.value.1, l, end)
  {
    if stages == [] then Some((x, []))
    else
      var s := stages[0];
      var run := s.span.Complete(x, s.cache, past, s.first, s.last);
      if run.result.Err? then None
      else
        match Through(m, stages[1..], past, s.last, end, Tokens(run.result.value, x.positions))
        case None => None
        case Some((y, rest)) => Some((y, [s.(cache := run.layers)] + rest))
  }

  /** Sends the chunks one after the other; `past` counts the tokens already seen. */
  ghost function Feed(m: Model, stages: seq<Stage>, past: nat, l: nat, end: nat, chunks: seq<Tokens>)
    : (r: Option<(Tokens, seq<Stage>)>)
    requires Partition(m, stages, l, end) && AllAligned(chunks)
    ensures r.Some? ==> r.value.0.Aligned() && Partition(m, r.value.1, l, end)
    decreases |chunks|
  {
    if chunks == [] then Some((NO_TOKENS, stages))
    else
      match Through(m, stages, past, l, end, chunks[0])
      case None => None
      case Some((y, stages')) =>
        match Feed(m, stages', past + |chunks[0].hidden|, l, end, chunks[1..])
        case None => None
        case Some((ys, stages'')) => Some((y.Append(ys), stages''))
  }

  lemma {:induction false} ThroughIsMonolith(m: Model, stages: seq<Stage>, l: nat, end: nat, past: Tokens,
                                             chunk: Tokens)
    requires Partition(m, stages, l, end) && past.Aligned() && chunk.Aligned()
    requires StagesHold(m, stages, past)
    ensures l <= end
    ensures var r := Through(m, stages, |past.hidden|, l, end, ChunkAt(m, l, past, chunk));
            && r.Some? && r.value.0 == ChunkAt(m, end, past, chunk)
            && StagesHold(m, r.value.1, past.Append(chunk))
  {
    if stages != [] {
      var s := stages[0];
      assert CacheHolds(m, s.span.start, s.first, s.last, s.cache, past);
      RunLayersIsMonolith(m, s.span.start, s.first, s.last, past, chunk, s.cache, s.last - s.first);
      assert StagesHold(m, stages[1..], past);
      ThroughIsMonolith(m, stages[1..], s.last, end, past, chunk);
    }
  }

  /** Feeding a first chunk and then the rest, when each gives the rows it should. */
  lemma FeedFirst(m: Model, stages: seq<Stage>, end: nat, past: Tokens, chunks: seq<Tokens>,
                  stages': seq<Stage>, stages'': seq<Stage>)
    requires Partition(m, stages, 0, end) && past.Aligned() && AllAligned(chunks) && chunks != []
    requires Through(m, stages, |past.hidden|, 0, end, chunks[0]) == Some((ChunkAt(m, end, past, chunks[0]), stages'))
    requires Feed(m, stages', |past.hidden| + |chunks[0].hidden|, 0, end, chunks[1..])
          == Some((ChunkAt(m, end, past.Append(chunks[0]), Concat(chunks[1..])), stages''))
    ensures Feed(m, stages, |past.hidden|, 0, end, chunks) == Some((ChunkAt(m, end, past, Concat(chunks)), stages''))
    ensures past.Append(chunks[0]).Append(Concat(chunks[1..])) == past.Append(Concat(chunks))
  {
    hide At, Through, Partition;
    ChunkAtAppend(m, end, past, chunks[0], Concat(chunks[1..]));
  }

  lemma {:induction false} FeedIsMonolith(m: Model, stages: seq<Stage>, end: nat, past: Tokens, chunks: seq<Tokens>)
    requires Partition(m, stages, 0, end) && past.Aligned() && AllAligned(chunks)
    requires StagesHold(m, stages, past)
    ensures var r := Feed(m, stages, |past.hidden|, 0, end, chunks);
            && r.Some? && r.value.0 == ChunkAt(m, end, past, Concat(chunks))
            && StagesHold(m, r.value.1, past.Append(Concat(chunks)))
    decreases |chunks|
  {
    hide At, Through, Partition, StagesHold;
    if chunks == [] {
      assert past.Append(NO_TOKENS) == past;
    } else {
      var c, n := chunks[0], |past.hidden|;
      ChunkAtEntry(m, past, c);
      ThroughIsMonolith(m, stages, 0, end, past, c);
      var (y, stages') := Through(m, stages, n, 0, end, c).value;
      FeedIsMonolith(m, stages', end, past.Append(c), chunks[1..]);
      var (ys, stages'') := Feed(m, stages', n + |c.hidden|, 0, end, chunks[1..]).value;
      FeedFirst(m, stages, end, past, chunks, stages', stages'');
    }
  }

  /** However a sequence is cut into chunks, and however the layers are cut into hops (entering
      spans mid-way or not), starting from empty caches the outputs are those of one pass of the
      single-process model, and so are the caches left behind. */
  lemma ChunkingAndPartitionInvariance(m: Model, stages: seq<Stage>, chunks: seq<Tokens>)
    requires Partition(m, stages, 0, m.layers) && AllAligned(chunks)
    requires forall s <- stages :: s.cache == seq(|s.cache|, i => [])
    ensures var r := Feed(m, stages, 0, 0, m.layers, chunks);
            && r.Some? && r.value.0 == At(m, m.layers, Concat(chunks))
            && StagesHold(m, r.value.1, Concat(chunks))
  {
    EmptyStagesHold(m, stages, 0, m.layers);
    FeedIsMonolith(m, stages, m.layers, NO_TOKENS, chunks);
    assert NO_TOKENS.Append(Concat(chunks)) == Concat(chunks);
  }

  lemma {:induction false} EmptyStagesHold(m: Model, stages: seq<Stage>, l: nat, end: nat)
    requires Partition(m, stages, l, end)
    requires forall s <- stages :: s.cache == seq(|s.cache|, i => [])
    ensures StagesHold(m, stages, NO_TOKENS)
  {
    if stages != [] {
      EmptyStagesHold(m, stages[1..], stages[0].last, end);
      forall i | 0 <= i < |stages|
        ensures CacheHolds(m, stages[i].span.start, stages[i].first, stages[i].last, stages[i].cache, NO_TOKENS)
      {
        if i == 0 {
          assert stages[0] in stages;
        } else {
          assert stages[i] == stages[1..][i - 1];
        }
      }
    }
  }
}
