/** Facts about routes: consecutive hops over a range of layers. */
module Routes {
  import opened Ids
  import opened Routing

  /** The hop's layers are outside [start, end). */
  predicate Apart(h: Hop, start: nat, end: nat) {
    (h.end <= start || end <= h.start) && h.start < h.end
  }

  /** None of the hops is on one of these peers. */
  predicate NotOn(peers: set<PeerId>, hops: seq<Hop>) {
    forall h <- hops :: h.peerId !in peers
  }

  /** The layers at which a route's hops begin. */
  function Starts(hops: seq<Hop>): set<nat> {
    set h | h in hops :: h.start
  }

  /** Where hop i of a route over [0, end) begins, or `end` after the last. */
  function Boundary(hops: seq<Hop>, i: nat, end: nat): nat
    requires i <= |hops|
  {
    if i < |hops| then hops[i].start else end
  }

  function Spliced(hops: seq<Hop>, i: nat, inner: seq<Hop>): seq<Hop>
    requires i < |hops|
  {
    hops[..i] + inner + hops[i + 1..]
  }

  lemma SplicedIsRoute(hops: seq<Hop>, i: nat, inner: seq<Hop>, end: nat)
    requires IsRoute(hops, 0, end) && i < |hops| && IsRoute(inner, hops[i].start, hops[i].end)
    ensures IsRoute(Spliced(hops, i, inner), 0, end)
    ensures i < |Spliced(hops, i, inner)| && Spliced(hops, i, inner)[i].start == hops[i].start
  {
    assert inner != [];
    hide IsRoute;
    SplicedConnects(hops, i, inner, end);
  }

  lemma SplicedConnects(hops: seq<Hop>, i: nat, inner: seq<Hop>, end: nat)
    requires IsRoute(hops, 0, end) && i < |hops| && IsRoute(inner, hops[i].start, hops[i].end) && inner != []
    ensures IsRoute(Spliced(hops, i, inner), 0, end) && Spliced(hops, i, inner)[i].start == hops[i].start
  {
    var all := Spliced(hops, i, inner);
    forall k | 0 < k < |all|
      ensures all[k - 1].end == all[k].start
    {
      if i + |inner| <= k {
        assert all[k] == hops[k + 1 - |inner|];
      }
    }
  }

  /** Replacing a hop never takes a boundary away. */
  lemma SplicedStarts(hops: seq<Hop>, i: nat, inner: seq<Hop>, end: nat)
    requires IsRoute(hops, 0, end) && i < |hops| && IsRoute(inner, hops[i].start, hops[i].end)
    ensures Starts(hops) <= Starts(Spliced(hops, i, inner))
  {
    assert inner != [] && inner[0].start == hops[i].start;
    hide IsRoute;
    var all := Spliced(hops, i, inner);
    forall h | h in hops
      ensures h.start in Starts(all)
    {
      var k :| 0 <= k < |hops| && hops[k] == h;
      if k < i {
        assert all[k] == h;
      } else if k > i {
        assert all[k + |inner| - 1] == h;
      } else {
        assert all[i].start == h.start;
      }
    }
  }

  /** Every hop of `before` that is not on a peer in `out` is still there. */
  predicate Stay(before: seq<Hop>, after: seq<Hop>, out: set<PeerId>) {
    forall h <- before :: h.peerId in out || h in after
  }

  lemma StayAll(hops: seq<Hop>, out: set<PeerId>)
    ensures Stay(hops, hops, out)
  {
  }

  lemma StayTransitive(a: seq<Hop>, b: seq<Hop>, c: seq<Hop>, less: set<PeerId>, out: set<PeerId>)
    requires Stay(a, b, less) && Stay(b, c, out) && less <= out
    ensures Stay(a, c, out)
  {
  }

  lemma SplicedStay(hops: seq<Hop>, i: nat, inner: seq<Hop>, out: set<PeerId>)
    requires i < |hops| && hops[i].peerId in out
    ensures Stay(hops, Spliced(hops, i, inner), out)
  {
    forall h | h in hops
      ensures h.peerId in out || h in Spliced(hops, i, inner)
    {
      var k :| 0 <= k < |hops| && hops[k] == h;
      if k < i {
        assert h in hops[..i];
      } else if k > i {
        assert h == hops[i + 1..][k - i - 1];
      }
    }
  }

  lemma {:induction false} RouteLength(hops: seq<Hop>, start: nat, end: nat)
    requires IsRoute(hops, start, end)
    ensures start <= end && |hops| <= end - start
  {
    if hops != [] {
      var n := |hops| - 1;
      assert IsRoute(hops[..n], start, hops[n].start);
      RouteLength(hops[..n], start, hops[n].start);
    }
  }

  /** The hops of a route lie inside its range, in order. */
  lemma {:induction false} HopsOrdered(hops: seq<Hop>, start: nat, end: nat)
    requires IsRoute(hops, start, end)
    ensures start <= end && forall i, j :: 0 <= i < j < |hops| ==> hops[i].end <= hops[j].start
    ensures forall i :: 0 <= i < |hops| ==> start <= hops[i].start < hops[i].end <= end
  {
    if hops != [] {
      var n := |hops| - 1;
      assert IsRoute(hops[..n], start, hops[n].start);
      HopsOrdered(hops[..n], start, hops[n].start);
      forall i, j | 0 <= i < j < |hops|
        ensures hops[i].end <= hops[j].start
      {
        if j < n {
          assert hops[..n][i].end <= hops[..n][j].start;
        } else {
          assert hops[..n][i].end <= hops[n].start;
        }
      }
      forall i | 0 <= i < |hops|
        ensures start <= hops[i].start < hops[i].end <= end
      {
        if i < n {
          assert hops[..n][i].end <= hops[n].start;
        }
      }
    }
  }

  lemma HopsDistinct(hops: seq<Hop>, start: nat, end: nat, i: nat)
    requires IsRoute(hops, start, end) && i < |hops|
    ensures start <= hops[i].start < end && forall k :: 0 <= k < |hops| && k != i ==> hops[k] != hops[i]
  {
    HopsOrdered(hops, start, end);
  }

  lemma HopsInside(hops: seq<Hop>, start: nat, end: nat)
    requires IsRoute(hops, start, end)
    ensures forall h :: h in hops ==> start <= h.start < h.end <= end
  {
    HopsOrdered(hops, start, end);
  }
}
