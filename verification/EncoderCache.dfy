/** dvlm/client.py, `DistributedVLM.encode_images`: images encoded on a pool of peers, behind a bounded
    cache in order of last use. */
module EncoderCache {
  import opened Decoder

  /** An image with its attention mask. The cache's key is a hash of this content; equal keys are
      taken to mean equal content. */
  datatype Image = Image(content: int)

  /** An image's visual embeddings, one a token. */
  type Embedding = seq<Hidden>

  datatype EncodeError = RegistryLost | NoEncoders | AllEncodersFailed | EvictedTooSoon | NothingToEncode

  /* ---------- The cache's order, oldest first, as a sequence of keys ---------- */

  predicate Distinct(xs: seq<Image>) {
    forall i, j :: 0 <= i < j < |xs| ==> xs[i] != xs[j]
  }

  /** `cache[k] = emb`, then `popitem(last=False)` if that made it too large. */
  function Insert(order: seq<Image>, k: Image, capacity: nat): seq<Image> {
    if k in order then order
    else if |order| + 1 > capacity then (order + [k])[1..]
    else order + [k]
  }

  function InsertAll(order: seq<Image>, ks: seq<Image>, capacity: nat): seq<Image>
    decreases |ks|
  {
    if ks == [] then order
    else Insert(InsertAll(order, ks[..|ks| - 1], capacity), ks[|ks| - 1], capacity)
  }

  /** The elements of `ks` by first occurrence. */
  function Firsts(ks: seq<Image>): (r: seq<Image>)
    ensures forall k :: k in r <==> k in ks
    ensures Distinct(r) && |r| <= |ks|
  {
    if ks == [] then []
    else
      var r := Firsts(ks[..|ks| - 1]);
      assert ks == ks[..|ks| - 1] + [ks[|ks| - 1]];
      if ks[|ks| - 1] in r then r else r + [ks[|ks| - 1]]
  }

  function Misses(order: seq<Image>, ks: seq<Image>): (r: seq<Image>)
    ensures forall k :: k in r <==> k in ks && k !in order
  {
    if ks == [] then []
    else
      assert ks == [ks[0]] + ks[1..];
      if ks[0] in order then Misses(order, ks[1..]) else [ks[0]] + Misses(order, ks[1..])
  }

  /** Every image that is not cached is missing, as often as it is asked for. */
  lemma {:induction false} MissesNext(order: seq<Image>, ks: seq<Image>, k: Image)
    ensures Misses(order, ks + [k]) == Misses(order, ks) + if k in order then [] else [k]
    decreases |ks|
  {
    if ks == [] {
      assert ks + [k] == [k] && [k][1..] == [];
    } else {
      assert (ks + [k])[1..] == ks[1..] + [k];
      MissesNext(order, ks[1..], k);
    }
  }

  /** How many of the oldest entries a request evicts: what does not fit, counting each new key once. */
  function Evicted(order: seq<Image>, ks: seq<Image>, capacity: nat): nat {
    var d := |Firsts(Misses(order, ks))|;
    if |order| + d > capacity then |order| + d - capacity else 0
  }

  /** The youngest `capacity` elements. */
  function Window(all: seq<Image>, capacity: nat): (r: seq<Image>)
    ensures |r| == if |all| > capacity then capacity else |all|
  {
    if |all| > capacity then all[|all| - capacity..] else all
  }

  lemma WindowGrows(all: seq<Image>, k: Image, capacity: nat)
    requires k !in all
    ensures Insert(Window(all, capacity), k, capacity) == Window(all + [k], capacity)
  {
    assert k !in Window(all, capacity);
  }

  lemma WindowKeeps(all: seq<Image>, i: nat, capacity: nat)
    requires i < |all| && |all| - i <= capacity
    ensures all[i] in Window(all, capacity)
  {
    if |all| > capacity {
      assert Window(all, capacity)[i - (|all| - capacity)] == all[i];
    }
  }

  /** New keys push out the oldest ones, and never each other while they fit. */
  lemma {:induction false} InsertAllIsWindow(order: seq<Image>, ks: seq<Image>, capacity: nat)
    requires |order| <= capacity && |Firsts(ks)| <= capacity
    requires forall k :: k in ks ==> k !in order
    ensures InsertAll(order, ks, capacity) == Window(order + Firsts(ks), capacity)
    decreases |ks|
  {
    if ks == [] {
      assert order + [] == order;
    } else {
      var init, k := ks[..|ks| - 1], ks[|ks| - 1];
      InsertAllIsWindow(order, init, capacity);
      var all := order + Firsts(init);
      if k in Firsts(init) {
        var i :| 0 <= i < |Firsts(init)| && Firsts(init)[i] == k;
        assert all[|order| + i] == k;
        WindowKeeps(all, |order| + i, capacity);
      } else {
        WindowGrows(all, k, capacity);
        assert order + Firsts(ks) == all + [k];
      }
    }
  }

  lemma {:induction false} InsertAllBounded(order: seq<Image>, ks: seq<Image>, capacity: nat)
    requires |order| <= capacity && Distinct(order)
    ensures |InsertAll(order, ks, capacity)| <= capacity && Distinct(InsertAll(order, ks, capacity))
    ensures forall k :: k in InsertAll(order, ks, capacity) ==> k in order || k in ks
    decreases |ks|
  {
    if ks != [] {
      InsertAllBounded(order, ks[..|ks| - 1], capacity);
    }
  }

  lemma {:induction false} DistinctFits(xs: seq<Image>, ys: seq<Image>)
    requires Distinct(xs) && forall x :: x in xs ==> x in ys
    ensures |xs| <= |ys|
    decreases |xs|
  {
    if xs != [] {
      var n := |xs| - 1;
      assert xs[n] in ys;
      var i :| 0 <= i < |ys| && ys[i] == xs[n];
      var rest := ys[..i] + ys[i + 1..];
      forall x | x in xs[..n]
        ensures x in rest
      {
        assert x in xs && x in ys;
        var j :| 0 <= j < |ys| && ys[j] == x;
        assert rest[if j < i then j else j - 1] == x;
      }
      DistinctFits(xs[..n], rest);
    }
  }

  /** Every key of a request is still cached when the request has inserted its misses. */
  ghost predicate Survives(order: seq<Image>, ks: seq<Image>, capacity: nat) {
    forall k :: k in ks ==> k in InsertAll(order, Misses(order, ks), capacity)
  }

  /** The guard a caller can check: the new keys fit, and no key already cached is among those that
      will be evicted. */
  predicate FitsCache(order: seq<Image>, ks: seq<Image>, capacity: nat) {
    && |Firsts(Misses(order, ks))| <= capacity
    && forall i :: 0 <= i < |order| && order[i] in ks ==> i >= Evicted(order, ks, capacity)
  }

  lemma FittingSurvives(order: seq<Image>, ks: seq<Image>, capacity: nat, k: Image)
    requires |order| <= capacity && Distinct(order) && FitsCache(order, ks, capacity) && k in ks
    ensures k in InsertAll(order, Misses(order, ks), capacity)
  {
    var misses := Misses(order, ks);
    var firsts := Firsts(misses);
    InsertAllIsWindow(order, misses, capacity);
    var all := order + firsts;
    if k in order {
      var i :| 0 <= i < |order| && order[i] == k;
      assert all[i] == k;
      WindowKeeps(all, i, capacity);
    } else {
      assert k in firsts;
      var i :| 0 <= i < |firsts| && firsts[i] == k;
      assert all[|order| + i] == k;
      WindowKeeps(all, |order| + i, capacity);
    }
  }

  lemma SideOf(xs: seq<Image>, ys: seq<Image>, i: nat)
    requires i < |xs| + |ys|
    ensures i < |xs| || (xs + ys)[i] in ys
  {
  }

  lemma SurvivingWasYoung(order: seq<Image>, ks: seq<Image>, capacity: nat, i: nat)
    requires |order| <= capacity && Distinct(order) && |Firsts(Misses(order, ks))| <= capacity
    requires i < |order| && order[i] in InsertAll(order, Misses(order, ks), capacity)
    ensures i >= Evicted(order, ks, capacity)
  {
    hide InsertAll;
    var misses := Misses(order, ks);
    var firsts := Firsts(misses);
    InsertAllIsWindow(order, misses, capacity);
    hide Firsts, Misses;
    var all, after := order + firsts, Window(order + firsts, capacity);
    var j :| 0 <= j < |after| && after[j] == order[i];
    var e := |all| - |after|;
    assert all[j + e] == order[i];
    assert order[i] !in firsts;
    SideOf(order, firsts, j + e);
  }

  /** A request's keys survive its own evictions exactly when the guard holds. */
  lemma SurvivesIffFits(order: seq<Image>, ks: seq<Image>, capacity: nat)
    requires |order| <= capacity && Distinct(order)
    ensures Survives(order, ks, capacity) <==> FitsCache(order, ks, capacity)
  {
    var misses := Misses(order, ks);
    InsertAllBounded(order, misses, capacity);
    if FitsCache(order, ks, capacity) {
      forall k | k in ks
        ensures k in InsertAll(order, misses, capacity)
      {
        FittingSurvives(order, ks, capacity, k);
      }
    }
    if Survives(order, ks, capacity) {
      DistinctFits(Firsts(misses), InsertAll(order, misses, capacity));
      forall i | 0 <= i < |order| && order[i] in ks
        ensures i >= Evicted(order, ks, capacity)
      {
        SurvivingWasYoung(order, ks, capacity, i);
      }
    }
  }

  lemma SingleMiss(order: seq<Image>, k: Image, capacity: nat)
    ensures Firsts([k]) == [k] && InsertAll(order, [k], capacity) == Insert(order, k, capacity)
  {
    assert [k][..0] == [];
  }

  lemma MissesAfterHit(order: seq<Image>, hit: Image, miss: Image)
    requires hit in order && miss !in order
    ensures Misses(order, [hit, miss]) == [miss]
  {
    assert [hit, miss][1..] == [miss];
    assert [miss][1..] == [] && Misses(order, [miss]) == [miss] + Misses(order, []);
  }

  /** A request that needs no more room than there is can still fail: its hit is the oldest entry,
      and the miss pushes it out before it is marked as used. */
  lemma FittingRequestCanFail(a: Image, b: Image, c: Image)
    requires a != b && b != c && a != c
    ensures var order, request := [a, b], [a, c];
            && |Firsts(request)| <= 2
            && !Survives(order, request, 2) && !FitsCache(order, request, 2)
  {
    var order, request := [a, b], [a, c];
    MissesAfterHit(order, a, c);
    SingleMiss(order, c, 2);
    hide Firsts, Misses, InsertAll;
    assert Evicted(order, request, 2) == 1 && order[0] == a && request[0] == a;
    assert Insert(order, c, 2) == [b, c];
    assert a in request && a !in InsertAll(order, Misses(order, request), 2);
  }

  /* ---------- Marking as used ---------- */

  function Remove(order: seq<Image>, k: Image): seq<Image> {
    if order == [] then []
    else
      var n := |order| - 1;
      if order[n] == k then Remove(order[..n], k) else Remove(order[..n], k) + [order[n]]
  }

  lemma {:induction false} RemoveOnly(order: seq<Image>, k: Image)
    requires Distinct(order)
    ensures forall x :: x in Remove(order, k) <==> x in order && x != k
    ensures Distinct(Remove(order, k)) && |Remove(order, k)| == if k in order then |order| - 1 else |order|
    decreases |order|
  {
    if order != [] {
      var n := |order| - 1;
      assert order == order[..n] + [order[n]];
      assert order[n] !in order[..n];
      RemoveOnly(order[..n], k);
    }
  }

  /** `move_to_end`. */
  function Touch(order: seq<Image>, k: Image): seq<Image> {
    Remove(order, k) + [k]
  }

  lemma TouchKeeps(order: seq<Image>, k: Image)
    requires Distinct(order) && k in order
    ensures |Touch(order, k)| == |order| && Distinct(Touch(order, k))
    ensures forall x :: x in Touch(order, k) <==> x in order
  {
    RemoveOnly(order, k);
  }

  /** `move_to_end` for every key in turn. */
  function Touched(order: seq<Image>, ks: seq<Image>): seq<Image>
    decreases |ks|
  {
    if ks == [] then order else Touch(Touched(order, ks[..|ks| - 1]), ks[|ks| - 1])
  }

  lemma TouchedNone(order: seq<Image>, ks: seq<Image>)
    ensures Touched(order, ks[..0]) == order
  {
  }

  lemma TouchedNext(order: seq<Image>, ks: seq<Image>, j: nat)
    requires j < |ks|
    ensures Touched(order, ks[..j + 1]) == Touch(Touched(order, ks[..j]), ks[j])
  {
    assert ks[..j + 1][..j] == ks[..j];
  }

  /** The elements of `order` that are not in `ks`. */
  function Without(order: seq<Image>, ks: seq<Image>): seq<Image> {
    if order == [] then []
    else
      var n := |order| - 1;
      if order[n] in ks then Without(order[..n], ks) else Without(order[..n], ks) + [order[n]]
  }

  /** The elements of `ks` by last occurrence. */
  function Lasts(ks: seq<Image>): seq<Image> {
    if ks == [] then [] else Remove(Lasts(ks[..|ks| - 1]), ks[|ks| - 1]) + [ks[|ks| - 1]]
  }

  lemma {:induction false} RemoveAppend(a: seq<Image>, b: seq<Image>, k: Image)
    ensures Remove(a + b, k) == Remove(a, k) + Remove(b, k)
    decreases |b|
  {
    if b == [] {
      assert a + b == a;
    } else {
      var n := |b| - 1;
      RemoveAppend(a, b[..n], k);
      assert (a + b)[..|a + b| - 1] == a + b[..n];
    }
  }

  lemma {:induction false} WithoutOneMore(order: seq<Image>, ks: seq<Image>, k: Image)
    ensures Without(order, ks + [k]) == Remove(Without(order, ks), k)
    decreases |order|
  {
    if order != [] {
      var n := |order| - 1;
      WithoutOneMore(order[..n], ks, k);
      RemoveAppend(Without(order[..n], ks), [order[n]], k);
      assert [order[n]][..0] == [];
    }
  }

  lemma {:induction false} WithoutNothing(order: seq<Image>)
    ensures Without(order, []) == order
  {
    if order != [] {
      WithoutNothing(order[..|order| - 1]);
    }
  }

  lemma NothingTouched(order: seq<Image>)
    ensures Without(order, []) + Lasts([]) == order
  {
    WithoutNothing(order);
  }

  /** The keys were marked as used up to the first that was not cached any more. */
  ghost predicate StoppedShort(before: seq<Image>, after: seq<Image>, ks: seq<Image>) {
    exists j: nat ::
      && j < |ks| && ks[j] !in before && (forall i :: 0 <= i < j ==> ks[i] in before)
      && after == Without(before, ks[..j]) + Lasts(ks[..j])
  }

  /** After marking, the keys not in the request come first, as they were, then those of the request
      by when they were last asked for. */
  lemma {:induction false} TouchedByRecency(order: seq<Image>, ks: seq<Image>)
    ensures Touched(order, ks) == Without(order, ks) + Lasts(ks)
    decreases |ks|
  {
    if ks == [] {
      WithoutNothing(order);
    } else {
      var init, k := ks[..|ks| - 1], ks[|ks| - 1];
      assert init + [k] == ks && Lasts(ks) == Remove(Lasts(init), k) + [k];
      TouchedByRecency(order, init);
      hide Remove, Without, Lasts;
      RemoveAppend(Without(order, init), Lasts(init), k);
      WithoutOneMore(order, init, k);
      assert (Without(order, ks) + Remove(Lasts(init), k)) + [k] == Without(order, ks) + Lasts(ks);
    }
  }
}
