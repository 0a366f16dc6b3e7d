/** dvlm/routing.py, client side: the cheapest chain of hops over a range of layers. */
module Routing {
  import opened Wrappers
  import opened Ids

  datatype Kind = SpanKind | EncoderKind | RssmKind

  datatype ServerInfo = ServerInfo(peerId: PeerId, address: Address, kind: Kind, start: int, end: int, throughput: real)

  datatype Hop = Hop(peerId: PeerId, address: Address, start: nat, end: nat)

  /** A hop together with the server that serves it. */
  datatype Leg = Leg(server: ServerInfo, start: nat, end: nat) {
    function ToHop(): Hop {
      Hop(server.peerId, server.address, start, end)
    }
  }

  datatype RouteError = NoRoute

  const DEFAULT_RTT := 0.05
  const MIN_THROUGHPUT := 0.000001

  function Candidates(servers: seq<ServerInfo>, exclude: set<PeerId>): (cs: seq<ServerInfo>)
    ensures forall s :: s in cs <==> s in servers && s.kind == SpanKind && s.peerId !in exclude && s.end > s.start
  {
    if servers == [] then []
    else
      var s, rest := servers[0], Candidates(servers[1..], exclude);
      if s.kind == SpanKind && s.peerId !in exclude && s.end > s.start then [s] + rest else rest
  }

  predicate Serves(s: ServerInfo, layer: int) {
    s.start <= layer < s.end
  }

  /** Where a hop that enters `s` stops: the end of the span, capped at `end`. */
  function Exit(s: ServerInfo, end: nat): int {
    if s.end < end then s.end else end
  }

  function Max(x: real, y: real): real {
    if x < y then y else x
  }

  function Rtt(rtt: map<Address, real>, a: Address): real {
    if a in rtt then rtt[a] else DEFAULT_RTT
  }

  function StepCost(rtt: map<Address, real>, s: ServerInfo, layer: int, next: int): real
    requires s.start < s.end
  {
    Rtt(rtt, s.address) + (next - layer) as real / (s.end - s.start) as real / Max(s.throughput, MIN_THROUGHPUT)
  }

  predicate NonNegative(rtt: map<Address, real>) {
    forall a :: a in rtt ==> rtt[a] >= 0.0
  }

  lemma StepCostPositive(rtt: map<Address, real>, s: ServerInfo, layer: int, next: int)
    requires s.start < s.end && layer < next && NonNegative(rtt)
    ensures StepCost(rtt, s, layer, next) > 0.0
  {
    var part := (next - layer) as real / (s.end - s.start) as real;
    assert part > 0.0;
    assert part / Max(s.throughput, MIN_THROUGHPUT) > 0.0;
  }

  /* ---------- What a route is, without any algorithm ---------- */

  predicate ValidLeg(cs: seq<ServerInfo>, end: nat, leg: Leg) {
    && leg.server in cs && leg.server.start < leg.server.end
    && Serves(leg.server, leg.start) && leg.end == Exit(leg.server, end) && leg.start < leg.end
  }

  /** Consecutive legs from layer `from` to layer `to`; each may enter its span anywhere and runs to
      the span's end or to `end`. */
  predicate Chain(cs: seq<ServerInfo>, end: nat, legs: seq<Leg>, from: nat, to: nat) {
    && (forall i :: 0 <= i < |legs| ==> ValidLeg(cs, end, legs[i]))
    && (forall i :: 0 < i < |legs| ==> legs[i - 1].end == legs[i].start)
    && (if legs == [] then from == to else legs[0].start == from && legs[|legs| - 1].end == to)
  }

  function Cost(rtt: map<Address, real>, legs: seq<Leg>): real
    requires forall i :: 0 <= i < |legs| ==> legs[i].server.start < legs[i].server.end
  {
    if legs == [] then 0.0
    else
      var last := legs[|legs| - 1];
      Cost(rtt, legs[..|legs| - 1]) + StepCost(rtt, last.server, last.start, last.end)
  }

  lemma {:induction false} CostPrepend(rtt: map<Address, real>, leg: Leg, legs: seq<Leg>)
    requires leg.server.start < leg.server.end
    requires forall i :: 0 <= i < |legs| ==> legs[i].server.start < legs[i].server.end
    ensures Cost(rtt, [leg] + legs) == StepCost(rtt, leg.server, leg.start, leg.end) + Cost(rtt, legs)
  {
    var all := [leg] + legs;
    if legs == [] {
      assert all[..|all| - 1] == [];
    } else {
      CostPrepend(rtt, leg, legs[..|legs| - 1]);
      assert all[..|all| - 1] == [leg] + legs[..|legs| - 1];
    }
  }

  lemma {:induction false} CostAdds(rtt: map<Address, real>, a: seq<Leg>, b: seq<Leg>)
    requires forall leg <- a + b :: leg.server.start < leg.server.end
    ensures forall i :: 0 <= i < |a| ==> a[i].server.start < a[i].server.end
    ensures forall i :: 0 <= i < |b| ==> b[i].server.start < b[i].server.end
    ensures Cost(rtt, a + b) == Cost(rtt, a) + Cost(rtt, b) && Cost(rtt, []) == 0.0
    decreases |b|
  {
    forall i | 0 <= i < |a|
      ensures a[i].server.start < a[i].server.end
    {
      assert a[i] in a + b;
    }
    forall i | 0 <= i < |b|
      ensures b[i].server.start < b[i].server.end
    {
      assert b[i] in a + b;
    }
    if b == [] {
      assert a + b == a;
    } else {
      var n := |b| - 1;
      assert (a + b)[..|a + b| - 1] == a + b[..n];
      CostAdds(rtt, a, b[..n]);
    }
  }

  /** What a leg costs: its address's round trip, by default 0.05, and the layers it runs at the pace of a
      server that takes 1/throughput for its whole span; no throughput counts for less than 0.000001. */
  lemma LegCost(rtt: map<Address, real>, leg: Leg)
    requires leg.server.start < leg.server.end
    ensures var s := leg.server;
            var trip := if s.address in rtt then rtt[s.address] else 0.05;
            var pace := if s.throughput >= 0.000001 then s.throughput else 0.000001;
            (Cost(rtt, [leg]) - trip) * pace * (s.end - s.start) as real == (leg.end - leg.start) as real
  {
    var s := leg.server;
    var pace := if s.throughput >= 0.000001 then s.throughput else 0.000001;
    assert [leg][..0] == [];
    Paced((leg.end - leg.start) as real, (s.end - s.start) as real, pace);
  }

  lemma Paced(run: real, span: real, pace: real)
    requires span > 0.0 && pace > 0.0
    ensures run / span / pace * pace * span == run
  {
    assert run / span / pace * pace == run / span;
  }

  /** Of two servers with the same span and the same round trip the slower one costs more. */
  lemma SlowerCostsMore(rtt: map<Address, real>, slow: Leg, fast: Leg)
    requires slow.start == fast.start < slow.end == fast.end
    requires slow.server.start == fast.server.start < slow.server.end == fast.server.end
    requires Rtt(rtt, slow.server.address) == Rtt(rtt, fast.server.address)
    requires slow.server.throughput < fast.server.throughput && 0.000001 < fast.server.throughput
    ensures Cost(rtt, [slow]) > Cost(rtt, [fast])
  {
    LegCost(rtt, slow);
    LegCost(rtt, fast);
    var p, q := Max(slow.server.throughput, MIN_THROUGHPUT), fast.server.throughput;
    var w, n := (fast.server.end - fast.server.start) as real, (fast.end - fast.start) as real;
    var trip := if fast.server.address in rtt then rtt[fast.server.address] else 0.05;
    FasterIsLess(Cost(rtt, [slow]) - trip, Cost(rtt, [fast]) - trip, p, q, w, n);
  }

  lemma FasterIsLess(x: real, y: real, p: real, q: real, w: real, n: real)
    requires x * p * w == n && y * q * w == n && n > 0.0 && w > 0.0 && 0.0 < p < q
    ensures x > y
  {
    assert (x * p) * w == (y * q) * w;
    assert x * p == y * q && y > 0.0;
    assert y * q > y * p;
    assert (x - y) * p > 0.0;
  }

  ghost predicate CoveredAt(cs: seq<ServerInfo>, layer: int) {
    exists s :: s in cs && Serves(s, layer)
  }

  /** Every layer of [start, end) is inside some candidate span. */
  ghost predicate Covered(cs: seq<ServerInfo>, start: nat, end: nat) {
    forall l :: start <= l < end ==> CoveredAt(cs, l)
  }

  /** Some span server that is not excluded has this layer in its span. */
  predicate Listed(servers: seq<ServerInfo>, exclude: set<PeerId>, l: int) {
    exists s <- servers :: s.kind == SpanKind && s.peerId !in exclude && s.start <= l < s.end
  }

  /** A range is covered exactly when every layer of it is listed. */
  lemma CoveredMeans(servers: seq<ServerInfo>, exclude: set<PeerId>, start: nat, end: nat)
    ensures Covered(Candidates(servers, exclude), start, end)
            <==> forall l :: start <= l < end ==> Listed(servers, exclude, l)
  {
    forall l | start <= l < end
      ensures CoveredAt(Candidates(servers, exclude), l) <==> Listed(servers, exclude, l)
    {
      if Listed(servers, exclude, l) {
        var s :| s in servers && s.kind == SpanKind && s.peerId !in exclude && s.start <= l < s.end;
        assert s in Candidates(servers, exclude) && Serves(s, l);
      }
    }
  }

  /** When peers are distinct, no peer serves two legs of a chain. */
  lemma NoPeerTwice(cs: seq<ServerInfo>, end: nat, legs: seq<Leg>, from: nat, i: nat, j: nat)
    requires Chain(cs, end, legs, from, end) && i < j < |legs|
    requires forall s, t :: s in cs && t in cs && s.peerId == t.peerId ==> s == t
    ensures legs[i].server.peerId != legs[j].server.peerId
  {
    LegsAdvance(cs, end, legs, from, i, j);
  }

  lemma {:induction false} LegsAdvance(cs: seq<ServerInfo>, end: nat, legs: seq<Leg>, from: nat, i: nat, j: nat)
    requires Chain(cs, end, legs, from, end) && i < j < |legs|
    ensures legs[i].end <= legs[j].start < end
    decreases j
  {
    if i + 1 < j {
      LegsAdvance(cs, end, legs, from, i, j - 1);
    }
    assert legs[j - 1].end == legs[j].start;
  }

  /* ---------- Dijkstra over layer boundaries ---------- */

  /** The search's tables, and (for the proof) the layers it has finished with. */
  datatype Search = Search(cs: seq<ServerInfo>, rtt: map<Address, real>, start: nat, end: nat,
                           best: map<nat, real>, prev: map<nat, (nat, ServerInfo)>,
                           heap: multiset<(real, nat)>, settled: set<nat>) {
    predicate Problem() {
      && start <= end && NonNegative(rtt)
      && forall s :: s in cs ==> s.start < s.end
    }

    /** Every tabled layer was reached over a last leg from a settled layer. */
    ghost predicate Reached() {
      Problem() && ReachedBy(cs, rtt, start, end, best, prev, settled)
    }

    /** The heap has the true entry of every unsettled layer; its stale entries cost no less. */
    ghost predicate Queued() {
      && settled <= best.Keys
      && (forall v :: v in best && v !in settled ==> (best[v], v) in heap)
      && (forall e :: e in heap ==> e.1 in best && best[e.1] <= e.0)
      && (forall u, e :: u in settled && e in heap ==> best[u] <= e.0)
    }

    /** The first k candidates have been tried from layer u. */
    ghost predicate Tried(u: nat, k: nat) {
      Problem() && TriedFrom(cs, rtt, end, best, u, k)
    }

    ghost predicate Valid() {
      && Problem() && Reached() && Queued() && end !in settled
      && (forall u :: u in settled ==> Tried(u, |cs|))
    }
  }

  ghost predicate ReachedBy(cs: seq<ServerInfo>, rtt: map<Address, real>, start: nat, end: nat,
                            best: map<nat, real>, prev: map<nat, (nat, ServerInfo)>, settled: set<nat>)
    requires forall s :: s in cs ==> s.start < s.end
  {
    && settled <= best.Keys && start in best && best[start] == 0.0 && prev.Keys == best.Keys - {start}
    && (forall v :: v in best ==> start <= v <= end && best[v] >= 0.0)
    && (forall v :: v in prev ==>
          var (u, s) := prev[v];
          && s in cs && u in settled && Serves(s, u) && v == Exit(s, end) && u < v
          && best[v] == best[u] + StepCost(rtt, s, u, v))
  }

  ghost predicate TriedFrom(cs: seq<ServerInfo>, rtt: map<Address, real>, end: nat, best: map<nat, real>, u: nat,
                            k: nat)
    requires forall s :: s in cs ==> s.start < s.end
  {
    && u in best && k <= |cs|
    && forall i :: 0 <= i < k && Serves(cs[i], u) && u < Exit(cs[i], end) ==>
         var v := Exit(cs[i], end);
         v in best && best[v] <= best[u] + StepCost(rtt, cs[i], u, v)
  }

  predicate Below(a: (real, nat), b: (real, nat)) {
    a.0 < b.0 || (a.0 == b.0 && a.1 <= b.1)
  }

  predicate IsLeast(heap: multiset<(real, nat)>, top: (real, nat)) {
    top in heap && forall e :: e in heap ==> Below(top, e)
  }

  lemma {:induction false} HasLeast(heap: multiset<(real, nat)>) returns (top: (real, nat))
    requires heap != multiset{}
    ensures IsLeast(heap, top)
    decreases |heap|
  {
    top :| top in heap;
    var rest := heap - multiset{top};
    if rest != multiset{} {
      var y := HasLeast(rest);
      LeastOfTwo(heap, rest, top, y);
      top := if Below(top, y) then top else y;
    } else {
      assert heap == multiset{top};
    }
  }

  lemma LeastOfTwo(heap: multiset<(real, nat)>, rest: multiset<(real, nat)>, x: (real, nat), y: (real, nat))
    requires x in heap && rest == heap - multiset{x} && IsLeast(rest, y)
    ensures IsLeast(heap, if Below(x, y) then x else y)
  {
    forall e | e in heap
      ensures Below(if Below(x, y) then x else y, e)
    {
      if e != x {
        assert e in rest;
      }
    }
  }

  /** The heap's smallest entry, compared as tuples are. */
  method PopLeast(heap: multiset<(real, nat)>) returns (top: (real, nat), rest: multiset<(real, nat)>)
    requires heap != multiset{}
    ensures rest == heap - multiset{top} && |rest| == |heap| - 1
    ensures IsLeast(heap, top)
  {
    ghost var least := HasLeast(heap);
    top :| top in heap && IsLeast(heap, top);
    rest := heap - multiset{top};
  }

  /** The search while layer u, popped at its true cost, is being relaxed: k candidates are done. */
  ghost predicate Relaxing(q: Search, u: nat, k: nat) {
    && q.Problem() && q.Reached() && q.Queued()
    && q.end !in q.settled && u in q.settled && u in q.best && u < q.end && k <= |q.cs|
    && (forall e :: e in q.heap ==> q.best[u] <= e.0)
    && (forall w :: w in q.settled ==> q.best[w] <= q.best[u])
    && (forall w :: w in q.settled && w != u ==> q.Tried(w, |q.cs|))
    && q.Tried(u, k)
  }

  /** The tables after candidate `s` has been tried from layer u. */
  function Improved(q: Search, u: nat, s: ServerInfo): (r: Search)
    requires u in q.best && u < q.end && s.start < s.end
  {
    if !Serves(s, u) then q
    else
      var next, cost := Exit(s, q.end), q.best[u] + StepCost(q.rtt, s, u, Exit(s, q.end));
      if next !in q.best || cost < q.best[next] then
        q.(best := q.best[next := cost], prev := q.prev[next := (u, s)], heap := q.heap + multiset{(cost, next)})
      else q
  }

  /** `v`, reached from u over `s` at `cost`, is new or cheaper. */
  function Updated(q: Search, u: nat, s: ServerInfo, v: nat, cost: real): Search {
    q.(best := q.best[v := cost], prev := q.prev[v := (u, s)], heap := q.heap + multiset{(cost, v)})
  }

  /** The tables change only at an unsettled layer, whose cost falls but stays above u's. */
  ghost predicate UpdateOk(q: Search, u: nat, s: ServerInfo, v: nat, cost: real)
    requires u in q.best && s.start < s.end
  {
    && Serves(s, u) && v == Exit(s, q.end) && u < v && v !in q.settled
    && cost == q.best[u] + StepCost(q.rtt, s, u, v) && cost > q.best[u]
    && (v in q.best ==> cost < q.best[v])
  }

  lemma ImprovedAt(q: Search, u: nat, k: nat) returns (v: nat, cost: real)
    requires Relaxing(q, u, k) && k < |q.cs|
    ensures q.cs[k] in q.cs
    ensures Improved(q, u, q.cs[k]) == q
         || (UpdateOk(q, u, q.cs[k], v, cost) && Improved(q, u, q.cs[k]) == Updated(q, u, q.cs[k], v, cost))
  {
    hide StepCost, ReachedBy, TriedFrom;
    var s := q.cs[k];
    assert s in q.cs;
    if Serves(s, u) {
      v := Exit(s, q.end);
      cost := q.best[u] + StepCost(q.rtt, s, u, v);
      StepCostPositive(q.rtt, s, u, v);
      assert v in q.settled ==> q.best[v] < cost;
    } else {
      v, cost := 0, 0.0;
    }
  }

  /** A layer whose candidates have all been tried is not improved on again. */
  lemma NothingLeft(q: Search, u: nat, k: nat)
    requires Relaxing(q, u, k) && k < |q.cs| && q.Tried(u, |q.cs|)
    ensures Improved(q, u, q.cs[k]) == q
  {
    hide StepCost, ReachedBy, Search.Queued;
  }

  lemma UpdatedReached(q: Search, u: nat, s: ServerInfo, v: nat, cost: real)
    requires q.Problem() && q.Reached() && s in q.cs && u in q.settled && u in q.best && UpdateOk(q, u, s, v, cost)
    ensures Updated(q, u, s, v, cost).Problem() && Updated(q, u, s, v, cost).Reached()
  {
    hide StepCost, Search.Queued, TriedFrom;
  }

  lemma ImprovedReached(q: Search, u: nat, k: nat)
    requires Relaxing(q, u, k) && k < |q.cs|
    ensures Improved(q, u, q.cs[k]).Problem() && Improved(q, u, q.cs[k]).Reached()
  {
    hide StepCost, Improved, Search.Queued, Search.Tried, TriedFrom, ReachedBy, UpdateOk, Updated;
    var v, cost := ImprovedAt(q, u, k);
    if Improved(q, u, q.cs[k]) != q {
      UpdatedReached(q, u, q.cs[k], v, cost);
    }
  }

  lemma UpdatedTables(q: Search, u: nat, s: ServerInfo, v: nat, cost: real)
    ensures var q' := Updated(q, u, s, v, cost);
            && q'.settled == q.settled && q'.best.Keys == q.best.Keys + {v} && q'.best[v] == cost
            && (forall w :: w in q.best && w != v ==> q'.best[w] == q.best[w])
            && (forall e :: e in q'.heap <==> e in q.heap || e == (cost, v))
  {
  }

  lemma UpdatedQueued(q: Search, u: nat, s: ServerInfo, v: nat, cost: real)
    requires q.Queued() && u in q.settled && u in q.best && s.start < s.end && UpdateOk(q, u, s, v, cost)
    requires forall e :: e in q.heap ==> q.best[u] <= e.0
    requires forall w :: w in q.settled ==> q.best[w] <= q.best[u]
    ensures var q' := Updated(q, u, s, v, cost);
            && q'.Queued() && u in q'.best
            && (forall e :: e in q'.heap ==> q'.best[u] <= e.0)
            && (forall w :: w in q'.settled ==> q'.best[w] <= q'.best[u])
  {
    hide StepCost, Updated;
    UpdatedTables(q, u, s, v, cost);
  }

  lemma ImprovedQueued(q: Search, u: nat, k: nat)
    requires Relaxing(q, u, k) && k < |q.cs|
    ensures var q' := Improved(q, u, q.cs[k]);
            && q'.Queued() && u in q'.best
            && (forall e :: e in q'.heap ==> q'.best[u] <= e.0)
            && (forall w :: w in q'.settled ==> q'.best[w] <= q'.best[u])
  {
    hide StepCost, Improved, ReachedBy, TriedFrom, UpdateOk, Updated;
    var v, cost := ImprovedAt(q, u, k);
    if Improved(q, u, q.cs[k]) != q {
      UpdatedQueued(q, u, q.cs[k], v, cost);
    }
  }

  lemma ImprovedTried(q: Search, u: nat, k: nat, w: nat, n: nat)
    requires Relaxing(q, u, k) && k < |q.cs| && w in q.settled && n <= |q.cs| && q.Tried(w, n)
    ensures var q' := Improved(q, u, q.cs[k]); q'.Problem() && w in q'.best && q'.Tried(w, n)
  {
    hide StepCost, Improved, ReachedBy;
    var v, cost := ImprovedAt(q, u, k);
  }

  lemma ImprovedKeeps(q: Search, u: nat, k: nat)
    requires Relaxing(q, u, k) && k < |q.cs|
    ensures Relaxing(Improved(q, u, q.cs[k]), u, k + 1)
  {
    hide StepCost, Improved, ReachedBy, TriedFrom;
    assert q.cs[k] in q.cs;
    var q' := Improved(q, u, q.cs[k]);
    var v, cost := ImprovedAt(q, u, k);
    ImprovedReached(q, u, k);
    ImprovedQueued(q, u, k);
    forall w | w in q.settled && w != u
      ensures q'.Tried(w, |q.cs|)
    {
      ImprovedTried(q, u, k, w, |q.cs|);
    }
    ImprovedTried(q, u, k, u, k);
    ImprovedTriesNext(q, u, k);
  }

  lemma ImprovedTriesNext(q: Search, u: nat, k: nat)
    requires Relaxing(q, u, k) && k < |q.cs|
    requires var q' := Improved(q, u, q.cs[k]); q'.Problem() && u in q'.best && q'.Tried(u, k)
    ensures Improved(q, u, q.cs[k]).Tried(u, k + 1)
  {
    hide StepCost, ReachedBy, Search.Queued;
  }

  /** An entry that is not its layer's true one can be dropped. */
  lemma StaleDropped(q: Search, top: (real, nat))
    requires q.Valid() && IsLeast(q.heap, top) && top.0 > q.best[top.1]
    ensures q.(heap := q.heap - multiset{top}).Valid()
  {
    hide StepCost, ReachedBy, TriedFrom;
  }

  /** A layer popped at its true cost can be settled: nothing cheaper can reach it any more. */
  lemma SettlingStarts(q: Search, top: (real, nat))
    requires q.Valid() && IsLeast(q.heap, top) && top.1 != q.end && !(top.0 > q.best[top.1])
    ensures Relaxing(q.(heap := q.heap - multiset{top}, settled := q.settled + {top.1}), top.1, 0)
    ensures top.1 in q.settled ==> q.Tried(top.1, |q.cs|)
  {
    hide StepCost, TriedFrom, ReachedBy;
    ReachedGrows(q.cs, q.rtt, q.start, q.end, q.best, q.prev, q.settled, top.1);
    NothingTried(q.cs, q.rtt, q.end, q.best, top.1);
    SettlingQueued(q, top);
  }

  lemma SettlingQueued(q: Search, top: (real, nat))
    requires q.Queued() && IsLeast(q.heap, top) && !(top.0 > q.best[top.1])
    ensures var q' := q.(heap := q.heap - multiset{top}, settled := q.settled + {top.1});
            && q'.Queued() && q.best[top.1] == top.0
            && (forall e :: e in q'.heap ==> q.best[top.1] <= e.0)
            && (forall w :: w in q'.settled ==> q.best[w] <= q.best[top.1])
  {
  }

  lemma ReachedGrows(cs: seq<ServerInfo>, rtt: map<Address, real>, start: nat, end: nat,
                     best: map<nat, real>, prev: map<nat, (nat, ServerInfo)>, settled: set<nat>, u: nat)
    requires (forall s :: s in cs ==> s.start < s.end) && u in best
    requires ReachedBy(cs, rtt, start, end, best, prev, settled)
    ensures ReachedBy(cs, rtt, start, end, best, prev, settled + {u}) && u <= end
  {
    hide StepCost;
  }

  lemma NothingTried(cs: seq<ServerInfo>, rtt: map<Address, real>, end: nat, best: map<nat, real>, u: nat)
    requires (forall s :: s in cs ==> s.start < s.end) && u in best
    ensures TriedFrom(cs, rtt, end, best, u, 0)
  {
  }

  lemma SettlingEnds(q: Search, u: nat)
    requires Relaxing(q, u, |q.cs|)
    ensures q.Valid()
  {
    hide StepCost, ReachedBy, TriedFrom;
  }

  lemma SettledBounded(q: Search)
    requires q.Problem() && q.Reached()
    ensures |q.settled| <= q.end - q.start + 1
  {
    hide StepCost;
    SubsetIsSmaller(q.settled, Range(q.start, q.end));
  }

  function Range(lo: nat, hi: nat): (s: set<nat>)
    requires lo <= hi
    ensures |s| == hi - lo + 1 && forall v: nat :: v in s <==> lo <= v <= hi
  {
    if lo == hi then {lo} else Range(lo, hi - 1) + {hi}
  }

  /** While the least entry of the heap is `top`, any chain costs at least as much as the table says
      of its last layer, or as much as `top`. */
  lemma {:induction false} ChainCostsMore(q: Search, top: (real, nat), legs: seq<Leg>, to: nat)
    requires q.Valid() && IsLeast(q.heap, top) && Chain(q.cs, q.end, legs, q.start, to)
    ensures Cost(q.rtt, legs) >= top.0 || (to in q.settled && q.best[to] <= Cost(q.rtt, legs))
    decreases |legs|
  {
    hide StepCost, TriedFrom;
    if legs == [] {
      assert to == q.start;
      assert to !in q.settled ==> (q.best[to], to) in q.heap;
    } else {
      var last, init := legs[|legs| - 1], legs[..|legs| - 1];
      ChainCostsMore(q, top, init, last.start);
      StepCostPositive(q.rtt, last.server, last.start, last.end);
      if Cost(q.rtt, init) < top.0 {
        LegTried(q, last);
        assert to !in q.settled ==> (q.best[to], to) in q.heap;
      }
    }
  }

  lemma LegTried(q: Search, leg: Leg)
    requires q.Valid() && ValidLeg(q.cs, q.end, leg) && leg.start in q.settled
    ensures leg.end in q.best
    ensures q.best[leg.end] <= q.best[leg.start] + StepCost(q.rtt, leg.server, leg.start, leg.end)
  {
    hide StepCost, ReachedBy;
    var i :| 0 <= i < |q.cs| && q.cs[i] == leg.server;
    assert q.Tried(leg.start, |q.cs|);
  }

  /** Popping `end` proves its cost minimal. */
  lemma PoppedEndIsOptimal(q: Search, top: (real, nat), legs: seq<Leg>)
    requires q.Valid() && IsLeast(q.heap, top) && top.1 == q.end
    requires Chain(q.cs, q.end, legs, q.start, q.end)
    ensures q.best[q.end] <= Cost(q.rtt, legs)
  {
    hide StepCost;
    assert (q.best[q.end], q.end) in q.heap;
    ChainCostsMore(q, top, legs, q.end);
  }

  lemma AllSettled(q: Search)
    requires q.Valid() && q.heap == multiset{}
    ensures q.best.Keys <= q.settled && q.end !in q.best && q.start in q.best
    ensures forall v :: v in q.best ==> q.start <= v <= q.end
  {
    hide StepCost, TriedFrom;
  }

  /** An exhausted search that never saw `end` has found a layer nobody serves. */
  lemma ExhaustedMeansGap(q: Search)
    requires q.Valid() && q.heap == multiset{}
    ensures q.end !in q.best && !Covered(q.cs, q.start, q.end)
  {
    AllSettled(q);
    hide StepCost, Search.Reached, Search.Queued, ReachedBy;
    var m := Farthest(q.best.Keys);
    if CoveredAt(q.cs, m) {
      ReachedFurther(q, m);
    }
  }

  lemma ReachedFurther(q: Search, m: nat)
    requires q.Problem() && q.Tried(m, |q.cs|) && m < q.end && CoveredAt(q.cs, m)
    ensures exists v :: v in q.best && v > m
  {
    hide StepCost;
    var s :| s in q.cs && Serves(s, m);
    var i :| 0 <= i < |q.cs| && q.cs[i] == s;
    assert Exit(s, q.end) in q.best && Exit(s, q.end) > m;
  }

  lemma {:induction false} Farthest(s: set<nat>) returns (m: nat)
    requires s != {}
    ensures m in s && forall v :: v in s ==> v <= m
  {
    m :| m in s;
    if s != {m} {
      var n := Farthest(s - {m});
      assert forall v :: v in s ==> v == m || v in s - {m};
      m := if n < m then m else n;
    }
  }

  lemma RelaxingHas(q: Search, u: nat, k: nat)
    requires Relaxing(q, u, k)
    ensures q.Problem() && u in q.best && u < q.end
  {
  }

  /** Tries candidate k from `layer`, whose true cost is `cost`. */
  method Try(s: ServerInfo, rtt: map<Address, real>, end: nat, cost: real, layer: nat, ghost q: Search, ghost k: nat,
             best0: map<nat, real>, prev0: map<nat, (nat, ServerInfo)>, heap0: multiset<(real, nat)>)
    returns (best: map<nat, real>, prev: map<nat, (nat, ServerInfo)>, heap: multiset<(real, nat)>)
    requires q == Search(q.cs, rtt, q.start, end, best0, prev0, heap0, q.settled)
    requires Relaxing(q, layer, k) && k < |q.cs| && q.cs[k] == s && cost == best0[layer]
    ensures Relaxing(q.(best := best, prev := prev, heap := heap), layer, k + 1)
    ensures layer in best && cost == best[layer]
    ensures q.Tried(layer, |q.cs|) ==> best == best0 && prev == prev0 && heap == heap0
  {
    hide ReachedBy, TriedFrom, Search.Queued, StepCost;
    assert s in q.cs;
    ImprovedKeeps(q, layer, k);
    if q.Tried(layer, |q.cs|) {
      NothingLeft(q, layer, k);
    }
    best, prev, heap := best0, prev0, heap0;
    if Serves(s, layer) {
      var next := Exit(s, end);
      var step := StepCost(rtt, s, layer, next);
      if next !in best || cost + step < best[next] {
        best := best[next := cost + step];
        prev := prev[next := (layer, s)];
        heap := heap + multiset{(cost + step, next)};
      }
    }
    assert q.(best := best, prev := prev, heap := heap) == Improved(q, layer, s);
  }

  /** Tries every candidate from `layer`, popped at `cost`. */
  method Relax(cs: seq<ServerInfo>, rtt: map<Address, real>, end: nat, cost: real, layer: nat, ghost start: nat,
               ghost settled: set<nat>,
               best0: map<nat, real>, prev0: map<nat, (nat, ServerInfo)>, heap0: multiset<(real, nat)>)
    returns (best: map<nat, real>, prev: map<nat, (nat, ServerInfo)>, heap: multiset<(real, nat)>)
    requires Relaxing(Search(cs, rtt, start, end, best0, prev0, heap0, settled), layer, 0) && cost == best0[layer]
    ensures Relaxing(Search(cs, rtt, start, end, best, prev, heap, settled), layer, |cs|)
    ensures TriedFrom(cs, rtt, end, best0, layer, |cs|) ==> best == best0 && prev == prev0 && heap == heap0
  {
    ghost var q0 := Search(cs, rtt, start, end, best0, prev0, heap0, settled);
    RelaxingHas(q0, layer, 0);
    hide ReachedBy, TriedFrom, Relaxing;
    best, prev, heap := best0, prev0, heap0;
    var i := 0;
    while i < |cs|
      invariant i <= |cs| && layer in best && cost == best[layer]
      invariant Relaxing(Search(cs, rtt, start, end, best, prev, heap, settled), layer, i)
      invariant q0.Tried(layer, |cs|) ==> best == best0 && prev == prev0 && heap == heap0
    {
      ghost var q := Search(cs, rtt, start, end, best, prev, heap, settled);
      best, prev, heap := Try(cs[i], rtt, end, cost, layer, q, i, best, prev, heap);
      i := i + 1;
    }
  }

  /** Follows the table of last legs back from `end`. */
  method Trace(cs: seq<ServerInfo>, start: nat, end: nat, prev: map<nat, (nat, ServerInfo)>,
               ghost rtt: map<Address, real>, ghost best: map<nat, real>, ghost settled: set<nat>)
    returns (hops: seq<Hop>, ghost legs: seq<Leg>)
    requires forall s :: s in cs ==> s.start < s.end
    requires ReachedBy(cs, rtt, start, end, best, prev, settled) && end in best
    ensures Chain(cs, end, legs, start, end) && Cost(rtt, legs) == best[end]
    ensures hops == Hops(legs) && IsRoute(hops, start, end)
  {
    hide StepCost, IsRoute, Reverse, Hops;
    var layer := end;
    var found: seq<Hop> := [];
    legs := [];
    while layer != start
      invariant start <= layer <= end && layer in best
      invariant Chain(cs, end, legs, layer, end) && Cost(rtt, legs) + best[layer] == best[end]
      invariant Reverse(found) == Hops(legs)
      decreases layer
    {
      var (from, s) := prev[layer];
      found := found + [Hop(s.peerId, s.address, from, layer)];
      ghost var leg := Leg(s, from, layer);
      CostPrepend(rtt, leg, legs);
      ReverseSnoc(found[..|found| - 1], leg.ToHop());
      legs := [leg] + legs;
      layer := from;
    }
    hops := Reverse(found);
    ChainIsRoute(cs, end, legs, start);
  }

  lemma ChainIsRoute(cs: seq<ServerInfo>, end: nat, legs: seq<Leg>, start: nat)
    requires Chain(cs, end, legs, start, end)
    ensures IsRoute(Hops(legs), start, end)
  {
  }

  function Hops(legs: seq<Leg>): (hops: seq<Hop>)
    ensures |hops| == |legs| && forall i :: 0 <= i < |legs| ==> hops[i] == legs[i].ToHop()
  {
    if legs == [] then [] else [legs[0].ToHop()] + Hops(legs[1..])
  }

  function Reverse<T>(xs: seq<T>): (r: seq<T>)
    ensures |r| == |xs|
  {
    if xs == [] then [] else Reverse(xs[1..]) + [xs[0]]
  }

  lemma {:induction false} ReverseSnoc<T>(xs: seq<T>, x: T)
    ensures Reverse(xs + [x]) == [x] + Reverse(xs)
  {
    if xs != [] {
      ReverseSnoc(xs[1..], x);
      assert (xs + [x])[1..] == xs[1..] + [x];
    }
  }

  /** A route: consecutive, nonempty hops from `start` to `end`. */
  predicate IsRoute(hops: seq<Hop>, start: nat, end: nat) {
    && (forall i :: 0 <= i < |hops| ==> hops[i].start < hops[i].end)
    && (forall i :: 0 < i < |hops| ==> hops[i - 1].end == hops[i].start)
    && (if hops == [] then start == end else hops[0].start == start && hops[|hops| - 1].end == end)
  }

  /** The hops are those of a chain over [start, end) that no other chain undercuts. */
  ghost predicate Cheapest(cs: seq<ServerInfo>, rtt: map<Address, real>, start: nat, end: nat, hops: seq<Hop>) {
    exists legs: seq<Leg> ::
      hops == Hops(legs) && Chain(cs, end, legs, start, end) && LeastCost(cs, rtt, start, end, legs)
  }

  ghost predicate LeastCost(cs: seq<ServerInfo>, rtt: map<Address, real>, start: nat, end: nat, legs: seq<Leg>)
    requires Chain(cs, end, legs, start, end)
  {
    forall other :: Chain(cs, end, other, start, end) ==> Cost(rtt, legs) <= Cost(rtt, other)
  }

  lemma LegsOf(cs: seq<ServerInfo>, rtt: map<Address, real>, start: nat, end: nat, hops: seq<Hop>)
    returns (legs: seq<Leg>)
    requires Cheapest(cs, rtt, start, end, hops)
    ensures hops == Hops(legs) && Chain(cs, end, legs, start, end)
  {
    hide Chain, Cost, LeastCost, Hops;
    legs :| hops == Hops(legs) && Chain(cs, end, legs, start, end) && LeastCost(cs, rtt, start, end, legs);
  }

  lemma LegIsServed(servers: seq<ServerInfo>, exclude: set<PeerId>, end: nat, leg: Leg, h: Hop)
    requires ValidLeg(Candidates(servers, exclude), end, leg) && h == leg.ToHop()
    ensures h.peerId !in exclude
    ensures exists s <- servers ::
              && s.kind == SpanKind && s.peerId == h.peerId && s.address == h.address
              && s.start <= h.start < s.end && h.end == if s.end < end then s.end else end
  {
    hide Candidates;
  }

  /** The hops of a route found are on span servers that are not excluded: each enters its row's span anywhere,
      and runs to the end of it or of the range. */
  lemma HopsAreServed(servers: seq<ServerInfo>, exclude: set<PeerId>, rtt: map<Address, real>, start: nat, end: nat,
                      hops: seq<Hop>, h: Hop)
    requires Cheapest(Candidates(servers, exclude), rtt, start, end, hops) && h in hops
    ensures h.peerId !in exclude
    ensures exists s <- servers ::
              && s.kind == SpanKind && s.peerId == h.peerId && s.address == h.address
              && s.start <= h.start < s.end && h.end == if s.end < end then s.end else end
  {
    hide Cheapest, Candidates;
    var legs := LegsOf(Candidates(servers, exclude), rtt, start, end, hops);
    var i :| 0 <= i < |hops| && hops[i] == h;
    LegIsServed(servers, exclude, end, legs[i], h);
  }

  /** No peer has two different rows. */
  predicate OneRowEach(servers: seq<ServerInfo>) {
    forall s, t :: s in servers && t in servers && s.peerId == t.peerId ==> s == t
  }

  /** When no peer has two different rows, none serves two hops of a route found. */
  lemma HopsOnDistinctPeers(servers: seq<ServerInfo>, exclude: set<PeerId>, rtt: map<Address, real>,
                            start: nat, end: nat, hops: seq<Hop>)
    requires Cheapest(Candidates(servers, exclude), rtt, start, end, hops) && OneRowEach(servers)
    ensures forall i, j :: 0 <= i < j < |hops| ==> hops[i].peerId != hops[j].peerId
  {
    hide Cheapest, Chain;
    var legs := LegsOf(Candidates(servers, exclude), rtt, start, end, hops);
    forall i, j | 0 <= i < j < |hops|
      ensures hops[i].peerId != hops[j].peerId
    {
      NoPeerTwice(Candidates(servers, exclude), end, legs, start, i, j);
    }
  }

  /** Of two servers that both serve the whole range, with the same span and the same round trip, the slower
      one is never the route. */
  lemma SlowerNotAlone(servers: seq<ServerInfo>, exclude: set<PeerId>, rtt: map<Address, real>, start: nat, end: nat,
                       hops: seq<Hop>, slow: ServerInfo, fast: ServerInfo)
    requires Cheapest(Candidates(servers, exclude), rtt, start, end, hops) && OneRowEach(servers)
    requires slow in Candidates(servers, exclude) && fast in Candidates(servers, exclude)
    requires slow.start == fast.start <= start < end <= slow.end == fast.end
    requires Rtt(rtt, slow.address) == Rtt(rtt, fast.address)
    requires slow.throughput < fast.throughput && 0.000001 < fast.throughput
    ensures hops != [Hop(slow.peerId, slow.address, start, end)]
  {
    hide StepCost;
    var cs := Candidates(servers, exclude);
    if hops == [Hop(slow.peerId, slow.address, start, end)] {
      var legs: seq<Leg> :|
        hops == Hops(legs) && Chain(cs, end, legs, start, end) && LeastCost(cs, rtt, start, end, legs);
      assert legs[0].ToHop() == hops[0] && legs[0].server in cs;
      assert legs == [Leg(slow, start, end)];
      var other := [Leg(fast, start, end)];
      assert Chain(cs, end, other, start, end);
      SlowerCostsMore(rtt, Leg(slow, start, end), Leg(fast, start, end));
    }
  }

  /** Dijkstra's loop: it stops when `end` comes off the heap, or when nothing is left. */
  method Explore(cs: seq<ServerInfo>, rtt: map<Address, real>, start: nat, end: nat)
    returns (best: map<nat, real>, prev: map<nat, (nat, ServerInfo)>, ghost settled: set<nat>)
    requires start <= end && NonNegative(rtt) && forall s :: s in cs ==> s.start < s.end
    ensures end in best <==> Covered(cs, start, end)
    ensures ReachedBy(cs, rtt, start, end, best, prev, settled)
    ensures end in best ==> forall other :: Chain(cs, end, other, start, end) ==> best[end] <= Cost(rtt, other)
  {
    hide StepCost, ReachedBy, TriedFrom, Search.Queued;
    best, prev, settled := map[start := 0.0], map[], {};
    var heap: multiset<(real, nat)> := multiset{(0.0, start)};
    SearchStarts(cs, rtt, start, end);
    while heap != multiset{}
      invariant Search(cs, rtt, start, end, best, prev, heap, settled).Valid()
      decreases end - start + 1 - |settled|, |heap|
    {
      ghost var q := Search(cs, rtt, start, end, best, prev, heap, settled);
      var top, rest := PopLeast(heap);
      var (cost, layer) := top;
      TopTabled(q, top);
      if layer == end {
        Finish(q, top);
        return;
      }
      heap := rest;
      if cost > best[layer] {
        StaleDropped(q, top);
        continue;
      }
      SettlingStarts(q, top);
      settled := settled + {layer};
      best, prev, heap := Relax(cs, rtt, end, cost, layer, start, settled, best, prev, heap);
      SettlingEnds(Search(cs, rtt, start, end, best, prev, heap, settled), layer);
      SettledBounded(Search(cs, rtt, start, end, best, prev, heap, settled));
      assert layer in q.settled ==> settled == q.settled;
      assert layer !in q.settled ==> |settled| == |q.settled| + 1;
    }
    ExhaustedMeansGap(Search(cs, rtt, start, end, best, prev, heap, settled));
  }

  /** `end` has come off the heap. */
  lemma Finish(q: Search, top: (real, nat))
    requires q.Valid() && IsLeast(q.heap, top) && top.1 == q.end && q.end in q.best
    ensures Covered(q.cs, q.start, q.end)
    ensures forall other :: Chain(q.cs, q.end, other, q.start, q.end) ==> q.best[q.end] <= Cost(q.rtt, other)
  {
    hide StepCost, TriedFrom, Search.Queued;
    forall other | Chain(q.cs, q.end, other, q.start, q.end)
      ensures q.best[q.end] <= Cost(q.rtt, other)
    {
      PoppedEndIsOptimal(q, top, other);
    }
    TabledIsCovered(q.cs, q.rtt, q.start, q.end, q.best, q.prev, q.settled, q.end);
  }

  lemma {:induction false} TabledIsCovered(cs: seq<ServerInfo>, rtt: map<Address, real>, start: nat, end: nat,
      best: map<nat, real>, prev: map<nat, (nat, ServerInfo)>, settled: set<nat>, v: nat)
    requires forall s :: s in cs ==> s.start < s.end
    requires ReachedBy(cs, rtt, start, end, best, prev, settled) && v in best
    ensures Covered(cs, start, v)
    decreases v
  {
    hide StepCost;
    if v != start {
      var (u, s) := prev[v];
      TabledIsCovered(cs, rtt, start, end, best, prev, settled, u);
      forall l | start <= l < v
        ensures CoveredAt(cs, l)
      {
        if l >= u {
          assert Serves(s, l);
        }
      }
    }
  }

  /** The cheapest chain over [start, end), or an error exactly when some layer is served by nobody. */
  method FindRoute(servers: seq<ServerInfo>, start: nat, end: nat, exclude: set<PeerId>, rtt: map<Address, real>)
    returns (r: Result<seq<Hop>, RouteError>)
    requires start <= end && NonNegative(rtt)
    ensures r.Ok? <==> Covered(Candidates(servers, exclude), start, end)
    ensures r.Ok? ==> IsRoute(r.value, start, end) && Cheapest(Candidates(servers, exclude), rtt, start, end, r.value)
    ensures r.Ok? && OneRowEach(servers) ==>
              forall i, j :: 0 <= i < j < |r.value| ==> r.value[i].peerId != r.value[j].peerId
  {
    hide StepCost, ReachedBy, OneRowEach;
    var cs := Candidates(servers, exclude);
    var best, prev;
    ghost var settled;
    best, prev, settled := Explore(cs, rtt, start, end);
    if end !in best {
      return Err(NoRoute);
    }
    var hops;
    ghost var legs;
    hops, legs := Trace(cs, start, end, prev, rtt, best, settled);
    assert LeastCost(cs, rtt, start, end, legs);
    if OneRowEach(servers) {
      HopsOnDistinctPeers(servers, exclude, rtt, start, end, hops);
    }
    return Ok(hops);
  }

  lemma SearchStarts(cs: seq<ServerInfo>, rtt: map<Address, real>, start: nat, end: nat)
    requires start <= end && NonNegative(rtt) && forall s :: s in cs ==> s.start < s.end
    ensures Search(cs, rtt, start, end, map[start := 0.0], map[], multiset{(0.0, start)}, {}).Valid()
  {
  }

  lemma TopTabled(q: Search, top: (real, nat))
    requires q.Valid() && IsLeast(q.heap, top)
    ensures top.1 in q.best && q.best[top.1] <= top.0
  {
  }
}
