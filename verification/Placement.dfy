/** dvlm/routing.py, server side: where a joining server places its span. */
module Placement {
  import opened Wrappers
  import opened Routing

  /* ---------- Coverage ---------- */

  /** The throughput a server contributes to a layer. */
  function Contribution(s: ServerInfo, layer: nat): real {
    if s.kind == SpanKind && Serves(s, layer) then s.throughput else 0.0
  }

  /** Total throughput serving a layer. */
  function CoverageAt(servers: seq<ServerInfo>, layer: nat): real {
    if servers == [] then 0.0
    else CoverageAt(servers[..|servers| - 1], layer) + Contribution(servers[|servers| - 1], layer)
  }

  /** One more server adds its throughput to the layers it serves, if it serves layers, and to no others. */
  lemma CoverageGrows(servers: seq<ServerInfo>, s: ServerInfo, layer: nat)
    ensures CoverageAt([], layer) == 0.0
    ensures CoverageAt(servers + [s], layer) ==
              CoverageAt(servers, layer) + if s.kind == SpanKind && s.start <= layer < s.end then s.throughput else 0.0
  {
    assert (servers + [s])[..|servers|] == servers;
  }

  function Coverage(servers: seq<ServerInfo>, n: nat): (c: seq<real>)
    ensures |c| == n && forall l :: 0 <= l < n ==> c[l] == CoverageAt(servers, l)
  {
    seq(n, l requires 0 <= l => CoverageAt(servers, l))
  }

  /* ---------- Windows ---------- */

  function MinOf(c: seq<real>, lo: nat, hi: nat): (m: real)
    requires lo < hi <= |c|
    ensures forall l :: lo <= l < hi ==> m <= c[l]
    ensures exists l :: lo <= l < hi && m == c[l]
    decreases hi
  {
    if lo + 1 == hi then c[lo]
    else
      var m := MinOf(c, lo, hi - 1);
      if c[hi - 1] < m then c[hi - 1] else m
  }

  function SumOf(c: seq<real>, lo: nat, hi: nat): real
    requires lo <= hi <= |c|
    decreases hi
  {
    if lo == hi then 0.0 else SumOf(c, lo, hi - 1) + c[hi - 1]
  }

  /** The sum takes every layer of the window once. */
  lemma {:induction false} SumSplit(c: seq<real>, lo: nat, mid: nat, hi: nat)
    requires lo <= mid <= hi <= |c|
    ensures SumOf(c, lo, hi) == SumOf(c, lo, mid) + SumOf(c, mid, hi)
    ensures mid < hi ==> SumOf(c, mid, hi) == c[mid] + SumOf(c, mid + 1, hi)
    decreases hi
  {
    if mid < hi {
      SumSplit(c, lo, mid, hi - 1);
    }
  }

  /** The window of w layers at i is preferred to the one at j: less in its worst-served layer, then
      less in total, then further left. */
  predicate Preferred(c: seq<real>, w: nat, i: nat, j: nat)
    requires 0 < w && i + w <= |c| && j + w <= |c|
  {
    var (mi, mj) := (MinOf(c, i, i + w), MinOf(c, j, j + w));
    mi < mj || (mi == mj &&
      (SumOf(c, i, i + w) < SumOf(c, j, j + w) || (SumOf(c, i, i + w) == SumOf(c, j, j + w) && i <= j)))
  }

  /** The start `choose_span` must return: preferred to every other. */
  predicate IsChoice(c: seq<real>, w: nat, b: nat) {
    && 0 < w && b + w <= |c|
    && forall i :: 0 <= i <= |c| - w ==> Preferred(c, w, b, i)
  }

  /** No window beats the choice: its worst-served layer is served no more than any window's, its total is no
      greater where that ties, and it is the leftmost where both tie. */
  lemma ChoiceIsLeast(c: seq<real>, w: nat, b: nat, i: nat)
    requires IsChoice(c, w, b) && i + w <= |c|
    ensures MinOf(c, b, b + w) <= MinOf(c, i, i + w)
    ensures MinOf(c, b, b + w) == MinOf(c, i, i + w) ==> SumOf(c, b, b + w) <= SumOf(c, i, i + w)
    ensures MinOf(c, b, b + w) == MinOf(c, i, i + w) && SumOf(c, b, b + w) == SumOf(c, i, i + w) ==> b <= i
  {
    assert Preferred(c, w, b, i);
  }

  lemma ChoiceUnique(c: seq<real>, w: nat, a: nat, b: nat)
    requires IsChoice(c, w, a) && IsChoice(c, w, b)
    ensures a == b
  {
    assert Preferred(c, w, a, b) && Preferred(c, w, b, a);
  }

  lemma PreferredToItself(c: seq<real>, w: nat, i: nat)
    requires 0 < w && i + w <= |c|
    ensures Preferred(c, w, i, i)
  {
  }

  lemma BetterThanBest(c: seq<real>, w: nat, best: nat, i: nat)
    requires 0 < w && best + w <= |c| && i + w <= |c| && !Preferred(c, w, best, i)
    requires forall j :: 0 <= j < i ==> Preferred(c, w, best, j)
    ensures forall j :: 0 <= j <= i ==> Preferred(c, w, i, j)
  {
    forall j | 0 <= j < i
      ensures Preferred(c, w, i, j)
    {
      assert Preferred(c, w, best, j);
    }
  }

  /** Adds a server's throughput to the layers it serves, clipped to the model. */
  method AddCoverage(coverage: seq<real>, s: ServerInfo) returns (c: seq<real>)
    ensures |c| == |coverage|
    ensures forall l :: 0 <= l < |c| ==> c[l] == coverage[l] + Contribution(s, l)
  {
    c := coverage;
    if s.kind == SpanKind {
      var layer := if s.start < 0 then 0 else s.start;
      var stop := if s.end < |c| then s.end else |c|;
      while layer < stop
        invariant |c| == |coverage| && (if s.start < 0 then 0 else s.start) <= layer
        invariant forall l :: 0 <= l < |c| ==>
                    c[l] == coverage[l] + (if s.start <= l < layer && l < stop then s.throughput else 0.0)
      {
        c := c[layer := c[layer] + s.throughput];
        layer := layer + 1;
      }
    }
  }

  lemma NobodyCovers(n: nat)
    ensures Coverage([], n) == seq(n, i => 0.0)
  {
  }

  lemma CoverageAdds(servers: seq<ServerInfo>, k: nat, before: seq<real>, after: seq<real>)
    requires k < |servers| && before == Coverage(servers[..k], |before|) && |after| == |before|
    requires forall l :: 0 <= l < |after| ==> after[l] == before[l] + Contribution(servers[k], l)
    ensures after == Coverage(servers[..k + 1], |after|)
  {
    assert servers[..k + 1][..k] == servers[..k];
  }

  /** The throughput serving every layer. */
  method CoverageOf(servers: seq<ServerInfo>, numLayers: nat) returns (coverage: seq<real>)
    ensures coverage == Coverage(servers, numLayers)
  {
    hide CoverageAt, Contribution, Coverage;
    coverage := seq(numLayers, i => 0.0);
    NobodyCovers(numLayers);
    var k := 0;
    while k < |servers|
      invariant k <= |servers| && coverage == Coverage(servers[..k], numLayers)
    {
      var more := AddCoverage(coverage, servers[k]);
      CoverageAdds(servers, k, coverage, more);
      coverage, k := more, k + 1;
    }
    assert servers[..k] == servers;
  }

  /** The first of the windows that no other is preferred to. */
  method BestWindow(coverage: seq<real>, w: nat) returns (best: nat)
    requires 0 < w <= |coverage|
    ensures IsChoice(coverage, w, best)
  {
    hide Preferred;
    PreferredToItself(coverage, w, 0);
    best := 0;
    var i := 1;
    while i <= |coverage| - w
      invariant best < i <= |coverage| - w + 1
      invariant forall j :: 0 <= j < i ==> Preferred(coverage, w, best, j)
    {
      if !Preferred(coverage, w, best, i) {
        BetterThanBest(coverage, w, best, i);
        best := i;
      }
      i := i + 1;
    }
  }

  /** `choose_span`: the window of layers with the least serving throughput. A window of no layers
      has no minimum, which is an error. */
  method ChooseSpan(servers: seq<ServerInfo>, numLayers: nat, spanLen: nat) returns (r: Option<(nat, nat)>)
    ensures r == None <==> numLayers == 0 || spanLen == 0
    ensures r.Some? ==> var w := if spanLen < numLayers then spanLen else numLayers;
                        r.value.1 == r.value.0 + w && IsChoice(Coverage(servers, numLayers), w, r.value.0)
  {
    var w := if spanLen < numLayers then spanLen else numLayers;
    if w == 0 {
      return None;
    }
    var coverage := CoverageOf(servers, numLayers);
    var best := BestWindow(coverage, w);
    return Some((best, best + w));
  }

  /** The chosen window contains a layer served least of all. */
  lemma ChoiceHasLeastServedLayer(c: seq<real>, w: nat, b: nat) returns (least: nat)
    requires IsChoice(c, w, b)
    ensures b <= least < b + w && forall l :: 0 <= l < |c| ==> c[least] <= c[l]
  {
    least :| b <= least < b + w && MinOf(c, b, b + w) == c[least];
    forall l | 0 <= l < |c|
      ensures c[least] <= c[l]
    {
      var i := if l + w <= |c| then l else |c| - w;
      assert Preferred(c, w, b, i);
    }
  }

  /* ---------- A join makes progress from any swarm ---------- */

  /** The layers no server contributes to. */
  function Uncovered(servers: seq<ServerInfo>, n: nat): set<nat> {
    set l: nat | l < n && CoverageAt(servers, l) == 0.0
  }

  predicate NonNegativeThroughputs(servers: seq<ServerInfo>) {
    forall i :: 0 <= i < |servers| ==> servers[i].throughput >= 0.0
  }

  lemma {:induction false} CoverageNonNegative(servers: seq<ServerInfo>, layer: nat)
    requires NonNegativeThroughputs(servers)
    ensures CoverageAt(servers, layer) >= 0.0
    decreases |servers|
  {
    if servers != [] {
      CoverageNonNegative(servers[..|servers| - 1], layer);
    }
  }

  /** While some layer is uncovered, a server that joins where it is told covers one more, and
      uncovers none. */
  lemma JoinCoversMore(servers: seq<ServerInfo>, n: nat, w: nat, joining: ServerInfo)
    requires NonNegativeThroughputs(servers) && Uncovered(servers, n) != {}
    requires joining.kind == SpanKind && joining.throughput > 0.0 && joining.start >= 0
             && joining.end == joining.start + w
    requires IsChoice(Coverage(servers, n), w, joining.start)
    ensures Uncovered(servers + [joining], n) < Uncovered(servers, n)
  {
    var after := servers + [joining];
    assert after[..|after| - 1] == servers;
    var c := Coverage(servers, n);
    var least := ChoiceHasLeastServedLayer(c, w, joining.start);
    var gap :| gap in Uncovered(servers, n);
    CoverageNonNegative(servers, least);
    assert c[least] <= c[gap] == 0.0;
    assert least in Uncovered(servers, n) && least !in Uncovered(after, n);
    forall l | l in Uncovered(after, n)
      ensures l in Uncovered(servers, n)
    {
      CoverageNonNegative(servers, l);
    }
  }

  /** Whatever the swarm was, as many joins as it had uncovered layers leave none. */
  lemma {:induction false} JoinsCoverEventually(servers: seq<ServerInfo>, joins: seq<ServerInfo>, n: nat, w: nat)
    requires NonNegativeThroughputs(servers)
    requires forall k :: 0 <= k < |joins| ==>
               && joins[k].kind == SpanKind && joins[k].throughput > 0.0
               && joins[k].start >= 0 && joins[k].end == joins[k].start + w
               && IsChoice(Coverage(servers + joins[..k], n), w, joins[k].start)
    ensures Uncovered(servers + joins, n) == {} || |Uncovered(servers + joins, n)| + |joins| <= |Uncovered(servers, n)|
    decreases |joins|
  {
    if joins == [] {
      assert servers + joins == servers;
    } else {
      var k := |joins| - 1;
      var before := servers + joins[..k];
      assert forall i :: 0 <= i < k ==> joins[..k][..i] == joins[..i];
      JoinsCoverEventually(servers, joins[..k], n, w);
      assert before + [joins[k]] == servers + joins;
      if Uncovered(before, n) != {} {
        JoinCoversMore(before, n, w, joins[k]);
        ProperSubsetIsSmaller(Uncovered(servers + joins, n), Uncovered(before, n));
      } else {
        StaysCovered(before, n, joins[k]);
      }
    }
  }

  lemma ProperSubsetIsSmaller(a: set<nat>, b: set<nat>)
    requires a < b
    ensures |a| < |b|
  {
    var x :| x in b && x !in a;
    SubsetIsSmaller(a, b - {x});
  }

  lemma StaysCovered(servers: seq<ServerInfo>, n: nat, joining: ServerInfo)
    requires NonNegativeThroughputs(servers) && joining.throughput >= 0.0 && Uncovered(servers, n) == {}
    ensures Uncovered(servers + [joining], n) == {}
  {
    var after := servers + [joining];
    assert after[..|after| - 1] == servers;
    forall l: nat | l < n
      ensures l !in Uncovered(after, n)
    {
      CoverageNonNegative(servers, l);
      assert l !in Uncovered(servers, n);
    }
  }

  /* ---------- From an empty swarm ---------- */

  /** The layers before `edge` are served, those from `edge` on are not. */
  ghost predicate ServedUpTo(c: seq<real>, edge: nat) {
    && edge <= |c|
    && forall l :: 0 <= l < |c| ==> if l < edge then c[l] > 0.0 else c[l] == 0.0
  }

  lemma {:induction false} SumBelowEdge(c: seq<real>, lo: nat, hi: nat, edge: nat)
    requires ServedUpTo(c, edge) && lo <= hi <= |c|
    ensures SumOf(c, lo, hi) >= 0.0
    ensures lo < hi && lo < edge ==> SumOf(c, lo, hi) > 0.0
    ensures edge <= lo ==> SumOf(c, lo, hi) == 0.0
    decreases hi
  {
    if lo < hi {
      SumBelowEdge(c, lo, hi - 1, edge);
    }
  }

  /** Where the next server goes when a prefix is served: right behind it, or at the end if what is
      left is shorter than a window. */
  function NextStart(n: nat, w: nat, edge: nat): nat
    requires w <= n
  {
    if edge + w <= n then edge else n - w
  }

  /** A window with an unserved layer reaches past the edge. */
  lemma UnservedReachesPast(c: seq<real>, w: nat, edge: nat, i: nat)
    requires 0 < w && i + w <= |c| && ServedUpTo(c, edge) && MinOf(c, i, i + w) == 0.0
    ensures i + w > edge
  {
  }

  lemma NextIsUnserved(c: seq<real>, w: nat, edge: nat)
    requires 0 < w <= |c| && ServedUpTo(c, edge) && edge < |c|
    ensures var b := NextStart(|c|, w, edge); MinOf(c, b, b + w) == 0.0
  {
    var b := NextStart(|c|, w, edge);
    assert c[b + w - 1] == 0.0;
  }

  /** Right behind the edge nothing is served at all. */
  lemma EdgeIsLeast(c: seq<real>, w: nat, edge: nat, i: nat)
    requires 0 < w && edge + w <= |c| && i + w <= |c| && ServedUpTo(c, edge) && MinOf(c, i, i + w) == 0.0
    ensures var (b, s) := (SumOf(c, edge, edge + w), SumOf(c, i, i + w)); b < s || (b == s && edge <= i)
  {
    hide ServedUpTo;
    UnservedReachesPast(c, w, edge, i);
    SumBelowEdge(c, i, i + w, edge);
    SumBelowEdge(c, edge, edge + w, edge);
  }

  /** The last window holds least of what is served, among those that reach past the edge. */
  lemma TailIsLeast(c: seq<real>, w: nat, edge: nat, i: nat)
    requires 0 < w <= |c| && edge < |c| < edge + w && i + w <= |c|
    requires ServedUpTo(c, edge) && MinOf(c, i, i + w) == 0.0
    ensures var b := |c| - w;
            var (t, s) := (SumOf(c, b, |c|), SumOf(c, i, i + w)); t < s || (t == s && b <= i)
  {
    hide ServedUpTo;
    var b := |c| - w;
    if i < b {
      UnservedReachesPast(c, w, edge, i);
      SumSplit(c, b, edge, |c|);
      SumBelowEdge(c, edge, |c|, edge);
      SumSplit(c, i, b, edge);
      SumSplit(c, i, edge, i + w);
      SumBelowEdge(c, edge, i + w, edge);
      SumBelowEdge(c, i, b, edge);
    }
  }

  lemma NextBeatsAll(c: seq<real>, w: nat, edge: nat, i: nat)
    requires 0 < w <= |c| && ServedUpTo(c, edge) && edge < |c| && i + w <= |c|
    ensures Preferred(c, w, NextStart(|c|, w, edge), i)
  {
    NextIsUnserved(c, w, edge);
    if MinOf(c, i, i + w) == 0.0 {
      if edge + w <= |c| {
        EdgeIsLeast(c, w, edge, i);
      } else {
        TailIsLeast(c, w, edge, i);
      }
    }
  }

  /** Every server of the swarm joined where it was told, with a window of w layers, at a time when
      only the servers before it were there. */
  ghost predicate JoinedInTurn(servers: seq<ServerInfo>, n: nat, w: nat) {
    forall k :: 0 <= k < |servers| ==>
      && servers[k].kind == SpanKind && servers[k].throughput > 0.0
      && servers[k].start >= 0 && servers[k].end == servers[k].start + w
      && IsChoice(Coverage(servers[..k], n), w, servers[k].start)
  }

  function Min(a: nat, b: nat): nat {
    if a < b then a else b
  }

  /** The k-th server to join an empty swarm takes layers [k*w, (k+1)*w), until the last takes
      [n-w, n). While that goes on, exactly the first k*w layers are served. */
  lemma {:induction false} JoinsFillFromLeft(servers: seq<ServerInfo>, n: nat, w: nat)
    requires 0 < w <= n && JoinedInTurn(servers, n, w)
    requires servers != [] ==> (|servers| - 1) * w < n
    ensures ServedUpTo(Coverage(servers, n), Min(|servers| * w, n))
    ensures forall k :: 0 <= k < |servers| ==> servers[k].start == NextStart(n, w, k * w)
    decreases |servers|
  {
    if servers != [] {
      var k := |servers| - 1;
      var before, s := servers[..k], servers[k];
      assert forall j :: 0 <= j < k ==> servers[..j] == before[..j];
      assert k > 0 ==> (k - 1) * w < n;
      JoinsFillFromLeft(before, n, w);
      var c := Coverage(before, n);
      assert ServedUpTo(c, k * w);
      forall i | 0 <= i <= n - w
        ensures Preferred(c, w, NextStart(n, w, k * w), i)
      {
        NextBeatsAll(c, w, k * w, i);
      }
      assert IsChoice(c, w, NextStart(n, w, k * w));
      ChoiceUnique(c, w, s.start, NextStart(n, w, k * w));
      assert (k + 1) * w == k * w + w;
      forall l | 0 <= l < n
        ensures Coverage(servers, n)[l] == c[l] + Contribution(s, l)
      {
      }
    }
  }

  lemma ServedIsCovered(servers: seq<ServerInfo>, layer: nat)
    requires CoverageAt(servers, layer) > 0.0
    ensures CoveredAt(Candidates(servers, {}), layer)
    decreases |servers|
  {
    var s := servers[|servers| - 1];
    if Contribution(s, layer) != 0.0 {
      assert s in Candidates(servers, {}) && Serves(s, layer);
    } else {
      ServedIsCovered(servers[..|servers| - 1], layer);
      var t :| t in Candidates(servers[..|servers| - 1], {}) && Serves(t, layer);
      assert t in Candidates(servers, {});
    }
  }

  /** Until the last window reaches the end, the joins of an empty swarm leave a layer out exactly as long
      as m*w < n. */
  lemma JoinsCoverExactly(servers: seq<ServerInfo>, n: nat, w: nat)
    requires 0 < w <= n && JoinedInTurn(servers, n, w)
    requires servers != [] ==> (|servers| - 1) * w < n
    ensures Uncovered(servers, n) == {} <==> |servers| * w >= n
  {
    JoinsFillFromLeft(servers, n, w);
    var c := Coverage(servers, n);
    if |servers| * w < n {
      assert c[|servers| * w] == 0.0;
      assert |servers| * w in Uncovered(servers, n);
    } else {
      forall l: nat | l < n
        ensures l !in Uncovered(servers, n)
      {
        assert c[l] > 0.0;
      }
    }
  }

  lemma JoinedMeans(servers: seq<ServerInfo>, n: nat, w: nat)
    requires JoinedInTurn(servers, n, w)
    ensures NonNegativeThroughputs(servers)
    ensures servers != [] ==>
              JoinedInTurn(servers[..|servers| - 1], n, w) && servers[|servers| - 1].throughput >= 0.0
  {
    if servers != [] {
      var k := |servers| - 1;
      assert forall j :: 0 <= j < k ==> servers[..k][..j] == servers[..j];
    }
  }

  /** Joins cover an empty swarm of n layers exactly when m*w >= n, that is from the ceil(n/w)-th on,
      however many join; and then a route over all layers exists. */
  lemma {:induction false} JoinsCoverInTime(servers: seq<ServerInfo>, n: nat, w: nat)
    requires 0 < w <= n && JoinedInTurn(servers, n, w)
    ensures Uncovered(servers, n) == {} <==> |servers| * w >= n
    ensures |servers| * w >= n ==> Covered(Candidates(servers, {}), 0, n)
    decreases |servers|
  {
    hide JoinedInTurn, Uncovered, NonNegativeThroughputs, Covered;
    JoinedMeans(servers, n, w);
    if servers != [] && (|servers| - 1) * w >= n {
      var k := |servers| - 1;
      JoinedMeans(servers[..k], n, w);
      JoinsCoverInTime(servers[..k], n, w);
      assert servers[..k] + [servers[k]] == servers;
      StaysCovered(servers[..k], n, servers[k]);
      assert |servers| * w == k * w + w;
    } else {
      JoinsCoverExactly(servers, n, w);
    }
    if Uncovered(servers, n) == {} {
      NobodyMissing(servers, n);
    }
  }

  /** When every layer is served, every layer lies in a candidate span. */
  lemma NobodyMissing(servers: seq<ServerInfo>, n: nat)
    requires NonNegativeThroughputs(servers) && Uncovered(servers, n) == {}
    ensures Covered(Candidates(servers, {}), 0, n)
  {
    forall l: nat | l < n
      ensures CoveredAt(Candidates(servers, {}), l)
    {
      CoverageNonNegative(servers, l);
      assert l !in Uncovered(servers, n);
      ServedIsCovered(servers, l);
    }
  }

  /** The layers some server contributes to. */
  function Touched(servers: seq<ServerInfo>, n: nat): set<nat> {
    set l: nat | l < n && CoverageAt(servers, l) != 0.0
  }

  lemma TouchedByLast(servers: seq<ServerInfo>, n: nat)
    requires servers != []
    ensures var k := |servers| - 1;
            Touched(servers, n) <= Touched(servers[..k], n) + set l: nat | l < n && Serves(servers[k], l)
  {
  }

  /** Servers with windows of w layers cannot serve more than w layers each, wherever they are. */
  lemma {:induction false} WindowsTouchFew(servers: seq<ServerInfo>, n: nat, w: nat)
    requires forall s <- servers :: s.end == s.start + w
    ensures |Touched(servers, n)| <= |servers| * w
    decreases |servers|
  {
    if servers != [] {
      var k := |servers| - 1;
      var s, before := servers[k], servers[..k];
      WindowsTouchFew(before, n, w);
      var own := set l: nat | l < n && Serves(s, l);
      WindowSize(own, s.start, w);
      hide Touched;
      TouchedByLast(servers, n);
      SubsetIsSmaller(Touched(servers, n), Touched(before, n) + own);
      assert (k + 1) * w == k * w + w;
    }
  }

  lemma {:induction false} WindowSize(own: set<nat>, start: int, w: nat)
    requires forall l :: l in own ==> start <= l < start + w
    ensures |own| <= w
  {
    if w > 0 {
      var last := start + w - 1;
      if last in own {
        WindowSize(own - {last as nat}, start, w - 1);
      } else {
        WindowSize(own, start, w - 1);
      }
    }
  }

  lemma {:induction false} RangeOf(n: nat) returns (all: set<nat>)
    ensures |all| == n && forall l: nat :: l in all <==> l < n
  {
    if n == 0 {
      all := {};
    } else {
      var fewer := RangeOf(n - 1);
      all := fewer + {n - 1};
    }
  }

  lemma CoveredIsTouched(servers: seq<ServerInfo>, n: nat)
    requires Uncovered(servers, n) == {}
    ensures |Touched(servers, n)| >= n
  {
    var all := RangeOf(n);
    forall l | l in all
      ensures l in Touched(servers, n)
    {
      assert l !in Uncovered(servers, n);
    }
    SubsetIsSmaller(all, Touched(servers, n));
  }

  /** No placement whatever covers n layers with fewer joins than the greedy one needs. */
  lemma FewerJoinsLeaveGaps(servers: seq<ServerInfo>, n: nat, w: nat)
    requires forall s <- servers :: s.end == s.start + w
    requires |servers| * w < n
    ensures Uncovered(servers, n) != {}
  {
    WindowsTouchFew(servers, n, w);
    if Uncovered(servers, n) == {} {
      CoveredIsTouched(servers, n);
    }
  }
}
