/** dvlm/client.py: the encoders in the order of their throughput, and `encode_on_pool`, which has a payload
    encoded by the first of them to answer. */
module EncoderPool {
  import opened Wrappers
  import opened Ids
  import opened Routing
  import opened Journals

  /* ---------- `sorted(rows, key=lambda s: -s.throughput)` ---------- */

  /** The row goes behind every row that is at least as fast. */
  function Placed(sorted: seq<ServerInfo>, s: ServerInfo): (r: seq<ServerInfo>)
    ensures multiset(r) == multiset(sorted) + multiset{s}
    decreases |sorted|
  {
    var n := |sorted| - 1;
    if sorted == [] then [s]
    else
      assert sorted == sorted[..n] + [sorted[n]];
      if sorted[n].throughput >= s.throughput then sorted + [s] else Placed(sorted[..n], s) + [sorted[n]]
  }

  function FastestFirst(rows: seq<ServerInfo>): (r: seq<ServerInfo>)
    ensures multiset(r) == multiset(rows) && |r| == |rows|
    decreases |rows|
  {
    if rows == [] then []
    else
      var n := |rows| - 1;
      assert rows == rows[..n] + [rows[n]];
      var r := Placed(FastestFirst(rows[..n]), rows[n]);
      assert |multiset(r)| == |r| && |multiset(rows)| == |rows|;
      r
  }

  predicate Descending(rows: seq<ServerInfo>) {
    forall i, j :: 0 <= i < j < |rows| ==> rows[i].throughput >= rows[j].throughput
  }

  /** The rows of one throughput, in order. */
  function As(rows: seq<ServerInfo>, throughput: real): seq<ServerInfo>
    decreases |rows|
  {
    if rows == [] then []
    else
      var n := |rows| - 1;
      As(rows[..n], throughput) + if rows[n].throughput == throughput then [rows[n]] else []
  }

  lemma {:induction false} PlacedDescends(sorted: seq<ServerInfo>, s: ServerInfo)
    requires Descending(sorted)
    ensures Descending(Placed(sorted, s))
    decreases |sorted|
  {
    var n := |sorted| - 1;
    if sorted != [] && sorted[n].throughput < s.throughput {
      PlacedDescends(sorted[..n], s);
      forall t | t in Placed(sorted[..n], s)
        ensures t.throughput >= sorted[n].throughput
      {
        assert t in multiset(sorted[..n]) + multiset{s};
      }
    }
  }

  lemma AsNext(rows: seq<ServerInfo>, s: ServerInfo, throughput: real)
    ensures As(rows + [s], throughput) == As(rows, throughput) + if s.throughput == throughput then [s] else []
  {
    assert (rows + [s])[..|rows|] == rows;
  }

  lemma {:induction false} PlacedKeepsTies(sorted: seq<ServerInfo>, s: ServerInfo, throughput: real)
    ensures As(Placed(sorted, s), throughput) == As(sorted + [s], throughput)
    decreases |sorted|
  {
    hide As;
    assert sorted == [] ==> sorted + [s] == [s];
    var n := |sorted| - 1;
    if sorted != [] && sorted[n].throughput < s.throughput {
      var t := sorted[n];
      AsNext(sorted[..n], t, throughput);
      assert sorted == sorted[..n] + [t];
      PlacedKeepsTies(sorted[..n], s, throughput);
      AsNext(sorted[..n], s, throughput);
      AsNext(Placed(sorted[..n], s), t, throughput);
      AsNext(sorted, s, throughput);
    }
  }

  /** The fastest come first, and those that are equally fast stay as the registry listed them. */
  lemma {:induction false} FastestFirstSorts(rows: seq<ServerInfo>, throughput: real)
    ensures Descending(FastestFirst(rows)) && As(FastestFirst(rows), throughput) == As(rows, throughput)
    decreases |rows|
  {
    if rows != [] {
      var n := |rows| - 1;
      var sorted := FastestFirst(rows[..n]);
      FastestFirstSorts(rows[..n], throughput);
      PlacedDescends(sorted, rows[n]);
      PlacedKeepsTies(sorted, rows[n], throughput);
      AsNext(sorted, rows[n], throughput);
    }
  }

  /* ---------- `encode_on_pool` ---------- */

  /** Encoder i of a rotation that begins at `offset`. */
  function Turn(encoders: seq<ServerInfo>, offset: nat, i: nat): Address
    requires encoders != []
  {
    encoders[(offset + i) % |encoders|].address
  }

  /** From `began` on, the encoders were asked one after the other from `offset`, and none answered unless it
      was the last. */
  ghost predicate Rotated(asked: seq<(Address, bool)>, began: nat, encoders: seq<ServerInfo>, offset: nat, ok: bool) {
    && began <= |asked| <= began + |encoders|
    && forall i :: began <= i < |asked| ==> asked[i] == (Turn(encoders, offset, i - began), ok && i == |asked| - 1)
  }

  /** All of them were asked last, and none answered. */
  ghost predicate GaveUp(asked: seq<(Address, bool)>, encoders: seq<ServerInfo>, offset: nat) {
    |asked| >= |encoders| && Rotated(asked, |asked| - |encoders|, encoders, offset, false)
  }

  /** Asks the encoders in turn from `offset` until one answers. */
  method EncodeOnPool<P, E>(journal: Journal, encoders: seq<ServerInfo>, payload: P, encode: P -> E, offset: nat)
    returns (r: Option<E>)
    modifies journal`asked
    ensures old(journal.asked) <= journal.asked
    ensures Rotated(journal.asked, |old(journal.asked)|, encoders, offset, r.Some?)
    ensures journal.Encoded() == old(journal.Encoded()) + if r.Some? then 1 else 0
    ensures if r.Some? then r.value == encode(payload) && |journal.asked| > |old(journal.asked)|
            else |journal.asked| == |old(journal.asked)| + |encoders| && GaveUp(journal.asked, encoders, offset)
  {
    hide Journal.Encoded;
    var i := 0;
    while i < |encoders|
      invariant i <= |encoders| && old(journal.asked) <= journal.asked && journal.Encoded() == old(journal.Encoded())
      invariant |journal.asked| == |old(journal.asked)| + i
      invariant Rotated(journal.asked, |old(journal.asked)|, encoders, offset, false)
    {
      var answers := journal.Ask(Turn(encoders, offset, i));
      i := i + 1;
      if answers {
        return Some(encode(payload));
      }
    }
    return None;
  }
}
