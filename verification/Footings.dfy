/** What a session's hops stand on, as a value: the workers, the ids that are still good, and the
    session's own ids and logs. */
module Footings {
  import opened Ids
  import opened Decoder
  import opened SpanServer
  import opened SwarmNetwork
  import opened SessionState
  import opened Routing
  import opened Routes

  lemma {:induction false} ConcatSnoc(chunks: seq<Tokens>, x: Tokens)
    requires AllAligned(chunks) && x.Aligned()
    ensures AllAligned(chunks + [x]) && Concat(chunks + [x]) == Concat(chunks).Append(x)
  {
    if chunks == [] {
      assert [x][1..] == [];
      assert x.Append(NO_TOKENS) == x && NO_TOKENS.Append(x) == x;
      assert chunks + [x] == [x];
    } else {
      ConcatSnoc(chunks[1..], x);
      assert (chunks + [x])[1..] == chunks[1..] + [x];
      assert chunks[0].Append(Concat(chunks[1..]).Append(x)) == chunks[0].Append(Concat(chunks[1..])).Append(x);
    }
  }

  type History = map<nat, seq<Tokens>>

  /** Everything logged as input of layer b. */
  function Log(history: History, b: nat): Tokens {
    if b in history then Concat(history[b]) else NO_TOKENS
  }

  ghost predicate LogsAligned(history: History) {
    forall b :: b in history ==> AllAligned(history[b])
  }

  /** No boundary strictly inside [start, end) has a log unless `start` has one. So a boundary that an
      abandoned recovery left behind is always overwritten before it is used again. */
  ghost predicate NoOrphans(history: History, start: nat, end: nat) {
    (start !in history || history[start] == []) ==>
      forall b :: start < b < end && b in history ==> history[b] == []
  }

  /** The log at `start` is the single-process model's activation there for `t`. */
  ghost predicate Logged(m: Model, history: History, start: nat, end: nat, t: Tokens)
    requires t.Aligned()
  {
    LogsAligned(history) && Log(history, start) == At(m, start, t) && NoOrphans(history, start, end)
  }

  /** The two histories agree on everything logged outside [start, end). */
  ghost predicate SameOutside(a: History, b: History, start: nat, end: nat) {
    forall l :: (l in a || l in b) && !(start <= l < end) ==> l in a && l in b && a[l] == b[l]
  }

  lemma LoggedElsewhere(m: Model, before: History, after: History, start: nat, end: nat, h: Hop, t: Tokens)
    requires t.Aligned() && Logged(m, before, h.start, h.end, t) && LogsAligned(after)
    requires SameOutside(before, after, start, end) && h.start < h.end && (h.end <= start || end <= h.start)
    ensures Logged(m, after, h.start, h.end, t)
  {
    hide At;
    var b := h.start;
    assert b in after <==> b in before;
  }

  lemma ChunkFromNothing(m: Model, l: nat, t: Tokens)
    requires t.Aligned()
    ensures NO_TOKENS.Append(t) == t && ChunkAt(m, l, NO_TOKENS, t) == At(m, l, t)
  {
    hide At;
    assert NO_TOKENS.Append(t) == t;
  }

  lemma {:induction false} NothingAt(m: Model, l: nat)
    ensures At(m, l, NO_TOKENS) == NO_TOKENS
    decreases l
  {
    if l > 0 {
      NothingAt(m, l - 1);
    }
  }

  /** With nothing logged at a range's start, there is nothing to replay inside it either. */
  lemma NothingLogged(m: Model, history: History, start: nat, end: nat, t: Tokens, hops: seq<Hop>)
    requires t.Aligned() && Logged(m, history, start, end, t) && (start !in history || history[start] == [])
    requires IsRoute(hops, start, end)
    ensures t == NO_TOKENS
    ensures forall h :: h in hops ==> Logged(m, history, h.start, h.end, t)
  {
    assert |At(m, start, t).positions| == 0;
    HopsInside(hops, start, end);
    forall h | h in hops
      ensures Logged(m, history, h.start, h.end, t)
    {
      NothingAt(m, h.start);
      assert h.start in history ==> history[h.start] == [];
    }
  }

  /** A log that is one replay of everything is as good as the one it was concatenated from. */
  lemma ReplayLogged(m: Model, history: History, start: nat, end: nat, t: Tokens)
    requires t.Aligned() && LogsAligned(history) && start in history && history[start] == [At(m, start, t)]
    ensures Logged(m, history, start, end, t)
  {
    hide At;
    var x := At(m, start, t);
    ConcatSnoc([], x);
    assert [] + [x] == [x] && NO_TOKENS.Append(x) == x;
  }

  /** Logging one more chunk. */
  lemma StepLogged(m: Model, history: History, start: nat, end: nat, past: Tokens, chunk: Tokens)
    requires past.Aligned() && chunk.Aligned() && Logged(m, history, start, end, past)
    ensures var log := if start in history then history[start] else [];
            Logged(m, history[start := log + [ChunkAt(m, start, past, chunk)]], start, end, past.Append(chunk))
  {
    hide At, ChunkAt;
    var log := if start in history then history[start] else [];
    ConcatSnoc(log, ChunkAt(m, start, past, chunk));
    AtAppend(m, start, past, chunk);
  }

  lemma LogStaysAligned(m: Model, history: History, start: nat, end: nat, t: Tokens)
    requires t.Aligned() && Logged(m, history, start, end, t)
    ensures LogsAligned(history)
  {
  }

  datatype Footing = Footing(model: Model, spans: map<Address, DecoderSpan>, states: States, live: set<Sid>,
                             ids: map<Hop, Sid>, history: History) {
    /** The hop's server has seen exactly the tokens `t`, under an id that never failed. */
    ghost predicate ServerHas(h: Hop, t: Tokens) {
      && t.Aligned() && h in ids && ids[h] in live
      && (h.address in states && h.address in spans ==>
            Has(states[h.address], spans[h.address], Key(ids[h], h.start), h.end, t))
    }

    /** And the log for the hop is the single-process model's. */
    ghost predicate Ready(h: Hop, t: Tokens) {
      t.Aligned() && ServerHas(h, t) && Logged(model, history, h.start, h.end, t)
    }

    ghost predicate AllReady(hops: seq<Hop>, t: Tokens) {
      forall h <- hops :: Ready(h, t)
    }

    /** The servers of the hops have seen nothing yet. */
    ghost predicate AllBlank(hops: seq<Hop>) {
      forall h <- hops :: ServerHas(h, NO_TOKENS)
    }

    /** Ids, servers and logs of hops that begin outside [start, end) are the same later. */
    ghost predicate Keeps(later: Footing, start: nat, end: nat) {
      && later.model == model && (LogsAligned(history) ==> LogsAligned(later.history))
      && SameOutside(history, later.history, start, end)
      && (forall g :: g in ids && !(start <= g.start < end) ==> g in later.ids && later.ids[g] == ids[g])
      && (forall g: Hop, t: Tokens :: ServerHas(g, t) && !(start <= g.start < end) ==> later.ServerHas(g, t))
    }
  }

  lemma KeepsItself(f: Footing, start: nat, end: nat)
    ensures f.Keeps(f, start, end)
  {
  }

  lemma KeepsTransitive(f: Footing, g: Footing, h: Footing, start: nat, end: nat)
    requires f.Keeps(g, start, end) && g.Keeps(h, start, end)
    ensures f.Keeps(h, start, end)
  {
    hide Footing.ServerHas;
  }

  lemma KeepsWidely(f: Footing, g: Footing, start: nat, end: nat, from: nat, to: nat)
    requires f.Keeps(g, start, end) && from <= start && end <= to
    ensures f.Keeps(g, from, to)
  {
    hide Footing.ServerHas;
  }

  lemma ReadyKept(f: Footing, g: Footing, start: nat, end: nat, h: Hop, t: Tokens)
    requires f.Keeps(g, start, end) && f.Ready(h, t) && Apart(h, start, end)
    ensures g.Ready(h, t)
  {
    hide Footing.ServerHas;
    LoggedElsewhere(f.model, f.history, g.history, start, end, h, t);
  }

  /** Hops before and after hop i do not notice what was done at hop i. */
  lemma OthersReady(f: Footing, g: Footing, hops: seq<Hop>, i: nat, end: nat, t: Tokens, u: Tokens)
    requires IsRoute(hops, 0, end) && i < |hops| && f.Keeps(g, hops[i].start, hops[i].end)
    requires f.AllReady(hops[..i], t) && f.AllReady(hops[i + 1..], u)
    ensures g.AllReady(hops[..i], t) && g.AllReady(hops[i + 1..], u)
  {
    hide Footing.Ready, Footing.Keeps;
    HopsOrdered(hops, 0, end);
    forall h | h in hops[..i]
      ensures g.Ready(h, t)
    {
      ReadyKept(f, g, hops[i].start, hops[i].end, h, t);
    }
    forall h | h in hops[i + 1..]
      ensures g.Ready(h, u)
    {
      ReadyKept(f, g, hops[i].start, hops[i].end, h, u);
    }
  }

  /** One more hop of a planned route has its id. */
  lemma BlankGrows(f: Footing, g: Footing, h: Footing, hops: seq<Hop>, i: nat, start: nat, end: nat)
    requires IsRoute(hops, start, end) && i < |hops| && f.Keeps(g, start, end) && g.AllBlank(hops[..i])
    requires g.Keeps(h, hops[i].start, hops[i].end) && h.ServerHas(hops[i], NO_TOKENS)
    ensures f.Keeps(h, start, end) && h.AllBlank(hops[..i + 1])
  {
    hide Footing.ServerHas;
    HopsOrdered(hops, start, end);
    KeepsWidely(g, h, hops[i].start, hops[i].end, start, end);
    KeepsTransitive(f, g, h, start, end);
    hide IsRoute;
    assert hops[..i + 1] == hops[..i] + [hops[i]];
  }

  /** One more hop of a planned route has been brought up to date. */
  lemma ReplayGrows(f: Footing, g: Footing, h: Footing, hops: seq<Hop>, i: nat, start: nat, end: nat, t: Tokens)
    requires IsRoute(hops, start, end) && i < |hops| && f.Keeps(g, start, end)
    requires g.AllReady(hops[..i], t) && g.AllBlank(hops[i..])
    requires g.Keeps(h, hops[i].start, hops[i].end) && h.Ready(hops[i], t)
    ensures f.Keeps(h, start, end) && h.AllReady(hops[..i + 1], t) && h.AllBlank(hops[i + 1..])
  {
    hide Footing.ServerHas, Footing.Ready;
    HopsOrdered(hops, start, end);
    KeepsWidely(g, h, hops[i].start, hops[i].end, start, end);
    KeepsTransitive(f, g, h, start, end);
    hide IsRoute;
    forall k | k in hops[..i + 1]
      ensures h.Ready(k, t)
    {
      if k != hops[i] {
        assert k in hops[..i];
        ReadyKept(g, h, hops[i].start, hops[i].end, k, t);
      }
    }
    assert hops[i..][1..] == hops[i + 1..];
  }

  /** A route in which hop i has been replaced by hops that are where it was. */
  lemma SplicedReady(f: Footing, hops: seq<Hop>, i: nat, inner: seq<Hop>, t: Tokens, u: Tokens)
    requires i < |hops| && f.AllReady(hops[..i], t) && f.AllReady(inner, u) && f.AllReady(hops[i + 1..], u)
    ensures var all := Spliced(hops, i, inner); f.AllReady(all[..i], t) && f.AllReady(all[i..], u)
  {
    hide Footing.Ready;
    var all := Spliced(hops, i, inner);
    assert all[..i] == hops[..i] && all[i..] == inner + hops[i + 1..];
  }

  /** With nothing to replay, blank servers are up to date. */
  lemma BlankIsReady(f: Footing, start: nat, end: nat, t: Tokens, hops: seq<Hop>)
    requires t.Aligned() && Logged(f.model, f.history, start, end, t)
    requires start !in f.history || f.history[start] == []
    requires IsRoute(hops, start, end) && f.AllBlank(hops)
    ensures t == NO_TOKENS && f.AllReady(hops, t)
  {
    hide Footing.ServerHas;
    NothingLogged(f.model, f.history, start, end, t, hops);
  }

  /** A call under one id spares the servers of the hops with other ids. */
  lemma CallKeeps(f: Footing, g: Footing, h: Hop)
    requires g == f.(states := g.states, live := g.live) && h in f.ids && h.start < h.end
    requires forall k :: k in f.ids && k != h ==> f.ids[k] != f.ids[h]
    requires f.live - {f.ids[h]} <= g.live && AllSpare(f.live - {f.ids[h]}, f.states, g.states)
    requires forall a :: a in f.states ==> Owned(f.states[a])
    ensures f.Keeps(g, h.start, h.end)
  {
    forall k: Hop, t: Tokens | f.ServerHas(k, t) && !(h.start <= k.start < h.end)
      ensures g.ServerHas(k, t)
    {
      ServerKept(f, g, k, t, f.live - {f.ids[h]});
    }
  }

  lemma ServerKept(f: Footing, g: Footing, k: Hop, t: Tokens, spared: set<Sid>)
    requires g == f.(states := g.states, live := g.live) && f.ServerHas(k, t) && f.ids[k] in spared && spared <= g.live
    requires AllSpare(spared, f.states, g.states) && forall a :: a in f.states ==> Owned(f.states[a])
    ensures g.ServerHas(k, t)
  {
    hide Has, WorkerState.Spares, Owned;
    var a := k.address;
    if a in f.states && a in f.spans {
      HasWhenSpared(f.states[a], g.states[a], spared, f.spans[a], Key(f.ids[k], k.start), k.end, t);
    }
  }

  /** A new id for a hop changes nothing for the others. */
  lemma OpenKeeps(f: Footing, g: Footing, h: Hop, sid: Sid)
    requires g.model == f.model && g.spans == f.spans && g.states == f.states && g.history == f.history
    requires g.ids == f.ids[h := sid] && g.live == f.live + {sid} && Gone(f.states, sid)
    ensures g.ServerHas(h, NO_TOKENS) && (h.start < h.end ==> f.Keeps(g, h.start, h.end))
  {
  }

  /** A hop's server has answered and its log has been written. */
  lemma LoggingKeeps(f: Footing, g: Footing, later: Footing, h: Hop, t: Tokens)
    requires t.Aligned() && f.Keeps(g, h.start, h.end) && h.start < h.end
    requires h.start in later.history && later == g.(history := g.history[h.start := later.history[h.start]])
    requires g.ServerHas(h, t) && Logged(g.model, later.history, h.start, h.end, t)
    ensures f.Keeps(later, h.start, h.end) && later.Ready(h, t)
  {
    hide Has;
  }

  lemma LogsStayAligned(f: Footing, g: Footing, h: Hop)
    requires f.Keeps(g, h.start, h.end) && LogsAligned(f.history)
    ensures LogsAligned(g.history)
  {
  }

  lemma ReplayStarts(f: Footing, hops: seq<Hop>, t: Tokens)
    requires f.AllBlank(hops)
    ensures f.AllReady(hops[..0], t) && f.AllBlank(hops[0..])
  {
    assert hops[0..] == hops;
  }

  lemma NextBlank(f: Footing, hops: seq<Hop>, i: nat)
    requires i < |hops| && f.AllBlank(hops[i..])
    ensures f.ServerHas(hops[i], NO_TOKENS)
  {
    assert hops[i..][0] == hops[i];
  }

  lemma HopReady(f: Footing, hops: seq<Hop>, i: nat, t: Tokens)
    requires i < |hops| && f.AllReady(hops[i..], t)
    ensures f.ServerHas(hops[i], t) && t.Aligned() && Logged(f.model, f.history, hops[i].start, hops[i].end, t)
    ensures f.AllReady(hops[i + 1..], t)
  {
    hide Footing.ServerHas, Logged;
    assert hops[i] in hops[i..] && f.Ready(hops[i], t);
    assert hops[i..][1..] == hops[i + 1..];
  }

  lemma HopDone(f: Footing, hops: seq<Hop>, i: nat, t: Tokens)
    requires i < |hops| && f.AllReady(hops[..i], t) && f.Ready(hops[i], t)
    ensures f.AllReady(hops[..i + 1], t)
  {
    hide Footing.Ready;
    assert hops[..i + 1] == hops[..i] + [hops[i]];
  }

  /** The layer range a worker knows for a hop's session is the hop's. */
  lemma RangeKnown(f: Footing, h: Hop, t: Tokens)
    requires f.ServerHas(h, t) && h.address in f.states && h.address in f.spans
    ensures var w, key := f.states[h.address], Key(f.ids[h], h.start);
            key !in w.dropped && Lookup(w, key).Some? ==> Lookup(w, key).value.end == h.end
  {
    hide CacheHolds, At;
  }

  lemma HopAdvanced(f: Footing, g: Footing, h: Hop, past: Tokens, chunk: Tokens, out: seq<Hidden>)
    requires g == f.(states := g.states, live := g.live) && f.ServerHas(h, past) && chunk.Aligned() && h.start < h.end
    requires f.ids[h] in g.live && h.address in f.states && h.address in g.states && h.address in f.spans
    requires f.spans[h.address].model == f.model
    requires Answered(f.states[h.address], g.states[h.address], f.spans[h.address], Key(f.ids[h], h.start),
                      ChunkAt(f.model, h.start, past, chunk), h.end, out)
    ensures out == ChunkAt(f.model, h.end, past, chunk).hidden && g.ServerHas(h, past.Append(chunk))
  {
    hide Has, Answered, ChunkAt;
    AnsweredAdvances(f.states[h.address], g.states[h.address], f.spans[h.address], Key(f.ids[h], h.start), h.end, past,
                     chunk, out);
  }
}
