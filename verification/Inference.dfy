/** dvlm/client.py, `InferenceSession`: one autoregressive session through a chain of span servers,
    with replay of a failed hop's history to its replacements. */
module Inference {
  import opened Wrappers
  import opened Ids
  import opened Decoder
  import opened SpanServer
  import opened SwarmNetwork
  import opened SessionState
  import opened Routing
  import opened Routes
  import opened Footings

  datatype StepError = RegistryUnreachable | NoRouteFound | TooManyFailures

  /** Why a recovery stopped: a hop failed and may be routed around, or there is nothing left to try. */
  datatype RecoverError = HopFailed(hop: Hop) | Fatal(error: StepError)

  datatype Recovery = Rerouted(hops: seq<Hop>) | Ended(error: StepError) | TryAgain

  /** A session's own records agree with what the network knows of its ids: id k went to the k-th hop
      opened, and every id that is no longer live is on a peer that is `out`. */
  ghost predicate Accounted(openings: seq<(Hop, Sid)>, ids: map<Hop, Sid>, client: nat, home: map<nat, Address>,
                            live: set<Sid>, out: set<PeerId>) {
    && (forall k :: k in home ==> k < |openings|)
    && (forall k :: 0 <= k < |openings| ==>
          && openings[k].1 == Sid(client, k) && k in home && home[k] == openings[k].0.address
          && (openings[k].1 in live || openings[k].0.peerId in out))
    && (forall h :: h in ids ==>
          && ids[h].session == client && ids[h].generation < |openings|
          && openings[ids[h].generation] == (h, ids[h]))
  }

  /** A hop's call has failed, and its peer is out. */
  lemma AccountedFailed(openings: seq<(Hop, Sid)>, ids: map<Hop, Sid>, client: nat, home: map<nat, Address>,
                        live: set<Sid>, out: set<PeerId>, h: Hop)
    requires Accounted(openings, ids, client, home, live, out) && h in ids
    ensures Accounted(openings, ids, client, home, live - {ids[h]}, out + {h.peerId})
  {
  }

  lemma AccountedOpened(openings: seq<(Hop, Sid)>, ids: map<Hop, Sid>, client: nat, home: map<nat, Address>,
                        live: set<Sid>, out: set<PeerId>, h: Hop)
    requires Accounted(openings, ids, client, home, live, out)
    ensures |openings| !in home
    ensures var k, sid := |openings|, Sid(client, |openings|);
            Accounted(openings + [(h, sid)], ids[h := sid], client, home[k := h.address], live + {sid}, out)
  {
  }

  /** The closing calls that `close` owes: one for every opening that is not on a peer in `out`. */
  function Due(openings: seq<(Hop, Sid)>, out: set<PeerId>): seq<(Address, Sid)> {
    if openings == [] then []
    else
      var (h, sid) := openings[|openings| - 1];
      Due(openings[..|openings| - 1], out) + if h.peerId in out then [] else [(h.address, sid)]
  }

  lemma DueNext(openings: seq<(Hop, Sid)>, k: nat, out: set<PeerId>)
    requires k < |openings|
    ensures Due([], out) == []
    ensures var (h, sid) := openings[k];
            Due(openings[..k + 1], out) == Due(openings[..k], out) + if h.peerId in out then [] else [(h.address, sid)]
  {
    assert openings[..k + 1][..k] == openings[..k];
  }

  /** They are exactly those, and nothing is asked of a peer in `out`. */
  lemma {:induction false} DueIsOwed(openings: seq<(Hop, Sid)>, out: set<PeerId>, a: Address, sid: Sid)
    ensures (a, sid) in Due(openings, out)
            <==> exists k :: 0 <= k < |openings| && openings[k].0.address == a && openings[k].1 == sid
                             && openings[k].0.peerId !in out
  {
    if openings != [] {
      var n := |openings| - 1;
      DueIsOwed(openings[..n], out, a, sid);
      assert openings[..n] + [openings[n]] == openings;
    }
  }

  class InferenceSession {
    const net: Swarm
    const numLayers: nat
    const maxFailures: nat
    var route: Option<seq<Hop>>
    var history: History
    var exclude: set<PeerId>
    var failures: nat
    var hopSid: map<Hop, Sid>
    var openings: seq<(Hop, Sid)>
    var gen: nat
    /** All tokens of the steps that have returned. */
    ghost var seen: Tokens

    constructor (net: Swarm, maxFailures: nat)
      requires net.Valid() && net.Idle() && net.home == map[]
      ensures this.net == net && numLayers == net.model.layers && this.maxFailures == maxFailures
      ensures Valid() && seen == NO_TOKENS && failures == 0 && route == None
    {
      this.net, this.numLayers, this.maxFailures := net, net.model.layers, maxFailures;
      route, history, exclude, failures := None, map[], {}, 0;
      hopSid, openings, gen, seen := map[], [], 0, NO_TOKENS;
    }

    /** The books balance, but for `blamed` peers, which have failed and are not excluded yet. */
    ghost predicate Ledger(blamed: set<PeerId>)
      reads `openings, `gen, `hopSid, `exclude, net`home, net`live
    {
      |openings| == gen && Accounted(openings, hopSid, net.client, net.home, net.live, exclude + blamed)
    }

    ghost predicate Books(blamed: set<PeerId>)
      reads this, net, net.Repr
    {
      this !in net.Repr && net.journal !in net.Repr && net.Valid() && net.Idle() && Ledger(blamed)
    }

    /** What the session's hops stand on. */
    ghost function Now(): Footing
      requires net.Valid()
      reads this`hopSid, this`history, net, net.Repr
    {
      Footing(net.model, net.Spans(), net.State(), net.live, hopSid, history)
    }

    ghost predicate Valid()
      reads this, net, net.Repr
    {
      && Books({}) && failures <= maxFailures && seen.Aligned() && LogsAligned(history)
      && numLayers == net.model.layers
      && match route
         case None => seen == NO_TOKENS && forall b :: b in history ==> history[b] == []
         case Some(hops) => IsRoute(hops, 0, numLayers) && Now().AllReady(hops, seen)
    }

    /* ---------- The network under the session's hops ---------- */

    /** `_forward`: one call to a hop's server under the id this session gave the hop. */
    method Forward(h: Hop, x: Tokens, ghost past: Tokens, ghost chunk: Tokens)
      returns (r: Result<seq<Hidden>, RecoverError>)
      requires Books({}) && h.start < h.end && Now().ServerHas(h, past)
      requires x.Aligned() ==> chunk.Aligned() && x == ChunkAt(net.model, h.start, past, chunk)
      modifies net, net.Repr, net.journal`failed
      ensures Books(if r.Ok? then {} else {h.peerId})
      ensures net.journal.failed == if r.Ok? then old(net.journal.failed) else old(net.journal.failed) + 1
      ensures net.forwards == old(net.forwards) + 1 && old(net.Repr) <= net.Repr && fresh(net.Repr - old(net.Repr))
      ensures r.Ok? ==>
                && x.Aligned() && r.value == ChunkAt(net.model, h.end, past, chunk).hidden
                && Now().ServerHas(h, past.Append(chunk))
      ensures r.Err? ==> r.error == HopFailed(h)
      ensures old(Now()).Keeps(Now(), h.start, h.end)
    {
      hide Accounted, Swarm.Valid, Swarm.Idle, Swarm.State, AllSpare, Owned, Lookup, Answered, ChunkAt, Footing.Keeps,
           Footing.ServerHas;
      ghost var f := Now();
      ForwardStarts(h, past);
      assert exclude + {} == exclude;
      AccountedFailed(openings, hopSid, net.client, net.home, net.live, exclude, h);
      var out := net.Forward(h.address, Key(hopSid[h], h.start), x, h.end);
      CallKeeps(f, Now(), h);
      if out.Err? {
        return Err(HopFailed(h));
      }
      HopAdvanced(f, Now(), h, past, chunk, out.value);
      return Ok(out.value);
    }

    /** What a call under a hop's id may rely on. */
    lemma ForwardStarts(h: Hop, past: Tokens)
      requires Books({}) && Now().ServerHas(h, past)
      ensures h in hopSid && hopSid[h] in net.live && past.Aligned()
      ensures var a, key := h.address, Key(hopSid[h], h.start);
              a in net.workers && key !in net.State()[a].dropped && Lookup(net.State()[a], key).Some? ==>
                Lookup(net.State()[a], key).value.end == h.end
      ensures forall a :: a in net.workers ==> Owned(net.State()[a]) && net.Spans()[a].model == net.model
      ensures forall k :: k in hopSid && k != h ==> hopSid[k] != hopSid[h]
      ensures net.Mine(hopSid[h]) && net.Homed(hopSid[h], h.address)
    {
      hide Swarm.Valid, Swarm.Idle, Swarm.State, Owned, Lookup, Has;
      if h.address in net.workers {
        RangeKnown(Now(), h, past);
      }
      net.AllOwned();
      OneHopAnId(h);
    }

    lemma OneHopAnId(h: Hop)
      requires Books({}) && h in hopSid
      ensures forall k :: k in hopSid && k != h ==> hopSid[k] != hopSid[h]
      ensures net.Mine(hopSid[h]) && net.Homed(hopSid[h], h.address)
    {
    }

    /** How many more peers are excluded than there were failures. */
    ghost function Surplus(): int
      reads `exclude, `failures
    {
      |exclude| - failures
    }

    /** `_record_failure`: the failed peer is never asked again, and failures are counted. */
    method RecordFailure(h: Hop) returns (r: Option<StepError>)
      requires Books({h.peerId}) && failures <= maxFailures
      modifies `failures, `exclude
      ensures Books({}) && failures == old(failures) + 1 && exclude == old(exclude) + {h.peerId}
      ensures Surplus() <= old(Surplus())
      ensures r == if failures <= maxFailures then None else Some(TooManyFailures)
    {
      hide Accounted, Swarm.Valid, Swarm.Idle;
      failures := failures + 1;
      exclude := exclude + {h.peerId};
      assert exclude + {} == exclude;
      if failures > maxFailures {
        return Some(TooManyFailures);
      }
      return None;
    }

    /** Opens a fresh server-side session id for a hop. */
    method Open(h: Hop)
      requires Books({})
      modifies `hopSid, `openings, `gen, net`live, net`home
      ensures Books({}) && Now().ServerHas(h, NO_TOKENS)
      ensures h.start < h.end ==> old(Now()).Keeps(Now(), h.start, h.end)
    {
      hide Accounted, Gone, Swarm.Valid, Swarm.State, Swarm.Spans, Swarm.Idle, SpanWorker.State, Lookup, Footing.Keeps,
           Footing.ServerHas;
      ghost var f := Now();
      AccountedOpened(openings, hopSid, net.client, net.home, net.live, exclude + {}, h);
      net.HandOut(gen, h.address);
      var sid := Sid(net.client, gen);
      label HandedOut:
      hopSid := hopSid[h := sid];
      openings := openings + [(h, sid)];
      gen := gen + 1;
      net.Untouched@HandedOut();
      OpenKeeps(f, Now(), h, sid);
    }

    /** Why planning over [start, end), or counting failures, had to end: nobody could have gone on. */
    ghost predicate Explained(e: StepError, start: nat, end: nat)
      reads `exclude, `failures, net.journal`lookups
    {
      var last := net.journal.Last();
      match e
      case RegistryUnreachable => last.None?
      case NoRouteFound => last.Some? && !Covered(Candidates(last.value, exclude), start, end)
      case TooManyFailures => failures > maxFailures
    }

    lemma ExplainedWidely(e: StepError, start: nat, end: nat)
      requires Explained(e, start, end) && end <= numLayers
      ensures Explained(e, 0, numLayers)
    {
    }

    /** No chain over [start, end) of the servers last listed undercuts these hops, and none of them is
        on an excluded peer. */
    ghost predicate Chosen(hops: seq<Hop>, start: nat, end: nat)
      reads `exclude, net.journal`lookups
    {
      var last := net.journal.Last();
      last.Some? && NotOn(exclude, hops) && Cheapest(Candidates(last.value, exclude), map[], start, end, hops)
    }

    /** A cheapest route over [start, end) around the excluded peers, by all that the registry lists now. */
    method Choose(start: nat, end: nat) returns (r: Result<seq<Hop>, StepError>)
      requires start <= end
      modifies net.journal`lookups
      ensures net.journal.lookups == old(net.journal.lookups) + 1
      ensures var last := net.journal.Last();
              && (r == Err(RegistryUnreachable) <==> last.None?)
              && (r.Ok? <==> last.Some? && Covered(Candidates(last.value, exclude), start, end))
      ensures r.Err? ==> r.error != TooManyFailures && Explained(r.error, start, end)
      ensures r.Ok? ==> IsRoute(r.value, start, end) && Chosen(r.value, start, end)
    {
      var rows := net.Servers();
      if rows.None? {
        return Err(RegistryUnreachable);
      }
      var found := FindRoute(rows.value, start, end, exclude, map[]);
      if found.Err? {
        return Err(NoRouteFound);
      }
      forall h | h in found.value
        ensures h.peerId !in exclude
      {
        HopsAreServed(rows.value, exclude, map[], start, end, found.value, h);
      }
      return Ok(found.value);
    }

    /** `_plan`: a route over [start, end), each hop under a fresh id. */
    method Plan(start: nat, end: nat) returns (r: Result<seq<Hop>, StepError>)
      requires Books({}) && start <= end
      modifies `hopSid, `openings, `gen, net`live, net`home, net.journal`lookups
      ensures Books({}) && old(Now()).Keeps(Now(), start, end)
      ensures net.journal.lookups == old(net.journal.lookups) + 1
      ensures r.Ok? ==> IsRoute(r.value, start, end) && Chosen(r.value, start, end) && Now().AllBlank(r.value)
      ensures r.Err? ==> r.error != TooManyFailures && Explained(r.error, start, end)
    {
      hide Accounted, Swarm.Valid, Swarm.Idle, Now, IsRoute, Chosen, Footing.Keeps;
      ghost var f := Now();
      KeepsItself(f, start, end);
      r := Choose(start, end);
      if r.Err? {
        return;
      }
      var hops := r.value;
      var i := 0;
      while i < |hops|
        invariant i <= |hops| && Books({}) && f.Keeps(Now(), start, end) && Now().AllBlank(hops[..i])
        invariant net.journal.lookups == old(net.journal.lookups) + 1 && Chosen(hops, start, end)
      {
        ghost var g := Now();
        HopsDistinct(hops, start, end, i);
        Open(hops[i]);
        BlankGrows(f, g, Now(), hops, i, start, end);
        i := i + 1;
      }
      assert hops[..i] == hops;
    }

    /** Replays `chunk`, everything this session ever sent to layer h.start, to a hop's fresh session. */
    method ReplayTo(h: Hop, chunk: Tokens, ghost t: Tokens) returns (r: Result<seq<Hidden>, RecoverError>)
      requires Books({}) && t.Aligned() && h.start < h.end && Now().ServerHas(h, NO_TOKENS) && LogsAligned(history)
      requires chunk == At(net.model, h.start, t)
      modifies `history, net, net.Repr, net.journal`failed
      ensures net.forwards == old(net.forwards) + 1 && old(net.Repr) <= net.Repr && fresh(net.Repr - old(net.Repr))
      ensures net.journal.failed == if r.Ok? then old(net.journal.failed) else old(net.journal.failed) + 1
      ensures match r
              case Ok(y) =>
                && Books({}) && Now().Ready(h, t) && Tokens(y, chunk.positions) == At(net.model, h.end, t)
                && LogsAligned(history) && history == old(history)[h.start := [chunk]]
              case Err(e) => e == HopFailed(h) && Books({h.peerId}) && history == old(history)
      ensures old(Now()).Keeps(Now(), h.start, h.end)
    {
      hide Accounted, Swarm.Valid, Swarm.Idle, Swarm.State, At, Logged, ChunkAt, Footing.Keeps, Footing.ServerHas;
      ChunkFromNothing(net.model, h.start, t);
      ChunkFromNothing(net.model, h.end, t);
      ghost var f := Now();
      r := Forward(h, chunk, NO_TOKENS, t);
      if r.Ok? {
        ghost var g := Now();
        history := history[h.start := [chunk]];
        ReplayLogged(net.model, history, h.start, h.end, t);
        LoggingKeeps(f, g, Now(), h, t);
      }
    }

    /** Replays everything logged at `start` to the hops' fresh sessions. */
    method Replay(hops: seq<Hop>, start: nat, end: nat, past: Tokens, ghost t: Tokens)
      returns (r: Result<(), RecoverError>)
      requires Books({}) && t.Aligned() && IsRoute(hops, start, end) && LogsAligned(history)
      requires past == At(net.model, start, t) && Now().AllBlank(hops)
      modifies `history, net, net.Repr, net.journal`failed
      ensures net.forwards <= old(net.forwards) + |hops| && old(net.Repr) <= net.Repr && fresh(net.Repr - old(net.Repr))
      ensures net.journal.failed == if r.Ok? then old(net.journal.failed) else old(net.journal.failed) + 1
      ensures match r
              case Ok(_) => Books({}) && Now().AllReady(hops, t)
              case Err(e) => e.HopFailed? && Books({e.hop.peerId})
      ensures LogsAligned(history) && old(Now()).Keeps(Now(), start, end)
      ensures history == old(history) || (hops != [] && start in history && history[start] == [past])
    {
      hide Accounted, Swarm.Valid, Swarm.Idle, Now, At, Footing.Keeps, Footing.AllReady, Footing.AllBlank, LogsAligned;
      ghost var f := Now();
      KeepsItself(f, start, end);
      ReplayStarts(f, hops, t);
      var x := past.hidden;
      var i := 0;
      HopsOrdered(hops, start, end);
      while i < |hops|
        invariant i <= |hops| && Books({}) && LogsAligned(history)
        invariant net.forwards == old(net.forwards) + i && old(net.Repr) <= net.Repr && fresh(net.Repr - old(net.Repr))
        invariant Tokens(x, past.positions) == At(net.model, if i < |hops| then hops[i].start else end, t)
        invariant if i == 0 then history == old(history) else start in history && history[start] == [past]
        invariant net.journal.failed == old(net.journal.failed)
        invariant f.Keeps(Now(), start, end) && Now().AllReady(hops[..i], t) && Now().AllBlank(hops[i..])
      {
        ghost var g := Now();
        NextBlank(g, hops, i);
        var out := ReplayTo(hops[i], Tokens(x, past.positions), t);
        KeepsWidely(g, Now(), hops[i].start, hops[i].end, start, end);
        KeepsTransitive(f, g, Now(), start, end);
        if out.Err? {
          return Err(out.error);
        }
        ReplayGrows(f, g, Now(), hops, i, start, end, t);
        x := out.value;
        i := i + 1;
      }
      assert hops[..i] == hops;
      return Ok(());
    }

    /** `_recover`: a new route for [start, end), its servers brought to where `t` left the old one. The
        rest of the session is untouched: logs, servers and ids of every hop outside [start, end). */
    method Recover(start: nat, end: nat, ghost t: Tokens) returns (r: Result<seq<Hop>, RecoverError>)
      requires Books({}) && t.Aligned() && start < end && Logged(net.model, history, start, end, t)
      modifies `history, `hopSid, `openings, `gen, net, net.Repr, net.journal`lookups, net.journal`failed
      ensures net.forwards <= old(net.forwards) + (end - start)
      ensures net.journal.lookups == old(net.journal.lookups) + 1
      ensures net.journal.failed == old(net.journal.failed) + if r.Err? && r.error.HopFailed? then 1 else 0
      ensures old(net.Repr) <= net.Repr && fresh(net.Repr - old(net.Repr))
      ensures match r
              case Ok(hops) =>
                Books({}) && IsRoute(hops, start, end) && Chosen(hops, start, end) && Now().AllReady(hops, t)
              case Err(HopFailed(h)) => Books({h.peerId}) && Logged(net.model, history, start, end, t)
              case Err(Fatal(e)) => Books({}) && e != TooManyFailures && Explained(e, start, end)
      ensures old(Now()).Keeps(Now(), start, end)
    {
      hide Accounted, Swarm.Valid, Swarm.Idle, Swarm.State, At, IsRoute, Chosen, Footing.Keeps, Footing.AllBlank,
           Footing.AllReady;
      ghost var f := Now();
      var planned := Plan(start, end);
      if planned.Err? {
        return Err(Fatal(planned.error));
      }
      var hops := planned.value;
      ghost var g := Now();
      RouteLength(hops, start, end);
      if start in history && history[start] != [] {
        var past := Concat(history[start]);
        var replayed := Replay(hops, start, end, past, t);
        KeepsTransitive(f, g, Now(), start, end);
        if replayed.Err? {
          if history != old(history) {
            ReplayLogged(net.model, history, start, end, t);
          }
          return Err(replayed.error);
        }
      } else {
        BlankIsReady(g, start, end, t, hops);
      }
      return Ok(hops);
    }

    /** One recovery for every failure that was not one too many. */
    ghost function Recoveries(before: nat): int
      reads `failures
    {
      (if failures <= maxFailures then failures else maxFailures) - before
    }

    /** A hop has failed: records it, and recovers its range over as many peers as that takes. */
    method Replace(h: Hop, ghost t: Tokens) returns (r: Result<seq<Hop>, StepError>)
      requires Books({h.peerId}) && failures <= maxFailures
      requires t.Aligned() && h.start < h.end && Logged(net.model, history, h.start, h.end, t)
      modifies `history, `hopSid, `openings, `gen, `failures, `exclude, net, net.Repr
      modifies net.journal`lookups, net.journal`failed
      ensures Books({}) && old(net.Repr) <= net.Repr && fresh(net.Repr - old(net.Repr))
      ensures old(failures) < failures <= maxFailures + 1 && h.peerId in exclude && old(exclude) <= exclude
      ensures Surplus() <= old(Surplus())
      ensures net.journal.failed == old(net.journal.failed) + (failures - old(failures)) - 1
      ensures net.journal.lookups == old(net.journal.lookups) + Recoveries(old(failures))
      ensures net.forwards <= old(net.forwards) + Times(failures - old(failures), h.end - h.start)
      ensures r.Ok? ==>
                IsRoute(r.value, h.start, h.end) && Chosen(r.value, h.start, h.end) && Now().AllReady(r.value, t)
      ensures (r == Err(TooManyFailures) <==> failures > maxFailures) && (r.Err? ==> Explained(r.error, h.start, h.end))
      ensures old(Now()).Keeps(Now(), h.start, h.end)
    {
      hide Surplus, Logged, Ledger, Swarm.Valid, Swarm.Idle, Now, At, Times, IsRoute, Chosen, Footing.Keeps,
           Footing.AllReady;
      ghost var f, length := Now(), h.end - h.start;
      KeepsItself(f, h.start, h.end);
      OneMore(0, length);
      var stop := RecordFailure(h);
      if stop.Some? {
        return Err(stop.value);
      }
      while true
        invariant Books({}) && old(net.Repr) <= net.Repr && fresh(net.Repr - old(net.Repr))
        invariant old(failures) < failures <= maxFailures && h.peerId in exclude && old(exclude) <= exclude
        invariant Surplus() <= old(Surplus())
        invariant net.forwards <= old(net.forwards) + Times(failures - old(failures) - 1, length)
        invariant net.journal.failed == old(net.journal.failed) + (failures - old(failures)) - 1
        invariant net.journal.lookups == old(net.journal.lookups) + (failures - old(failures)) - 1
        invariant Logged(net.model, history, h.start, h.end, t) && f.Keeps(Now(), h.start, h.end)
        decreases maxFailures - failures
      {
        ghost var g := Now();
        OneMore(failures - old(failures) - 1, length);
        OneMore(failures - old(failures), length);
        var tried := TryRecover(h, t);
        KeepsTransitive(f, g, Now(), h.start, h.end);
        match tried {
          case Rerouted(hops) => return Ok(hops);
          case Ended(error) => return Err(error);
          case TryAgain =>
        }
      }
    }

    /** One recovery; if a hop fails in it, the failure is recorded. */
    method TryRecover(h: Hop, ghost t: Tokens) returns (r: Recovery)
      requires Books({}) && failures <= maxFailures
      requires t.Aligned() && h.start < h.end && Logged(net.model, history, h.start, h.end, t)
      modifies `history, `hopSid, `openings, `gen, `failures, `exclude, net, net.Repr
      modifies net.journal`lookups, net.journal`failed
      ensures Books({}) && old(net.Repr) <= net.Repr && fresh(net.Repr - old(net.Repr))
      ensures net.forwards <= old(net.forwards) + (h.end - h.start) && old(exclude) <= exclude
      ensures Surplus() <= old(Surplus())
      ensures net.journal.lookups == old(net.journal.lookups) + 1
      ensures net.journal.failed == old(net.journal.failed) + (failures - old(failures))
      ensures match r
              case Rerouted(hops) =>
                && failures == old(failures) && IsRoute(hops, h.start, h.end) && Chosen(hops, h.start, h.end)
                && Now().AllReady(hops, t)
              case Ended(error) =>
                && failures == (if error == TooManyFailures then maxFailures + 1 else old(failures))
                && Explained(error, h.start, h.end)
              case TryAgain =>
                failures == old(failures) + 1 <= maxFailures && Logged(net.model, history, h.start, h.end, t)
      ensures r == Ended(TooManyFailures) ==> failures == old(failures) + 1
      ensures old(Now()).Keeps(Now(), h.start, h.end)
    {
      hide Surplus, Accounted, Swarm.Valid, Swarm.Idle, Now, Logged, IsRoute, Chosen, Footing.Keeps, Footing.AllReady;
      var recovered := Recover(h.start, h.end, t);
      match recovered {
        case Ok(hops) => return Rerouted(hops);
        case Err(Fatal(e)) => return Ended(e);
        case Err(HopFailed(g)) =>
          var stop := RecordFailure(g);
          return if stop.Some? then Ended(stop.value) else TryAgain;
      }
    }

    /** The route before the first step; nothing has been logged or sent yet. */
    method Depart() returns (r: Option<StepError>)
      requires Valid()
      modifies `route, `hopSid, `openings, `gen, net`live, net`home, net.journal`lookups
      ensures Valid() && (r == None <==> route.Some?)
      ensures net.journal.lookups == old(net.journal.lookups) + if old(route).None? then 1 else 0
      ensures old(route).None? && r == None ==> Chosen(route.value, 0, numLayers)
      ensures r.Some? ==> r.value != TooManyFailures && Explained(r.value, 0, numLayers)
      ensures old(route).Some? ==> route == old(route)
    {
      hide Accounted, Swarm.Valid, Swarm.Idle, Swarm.State, At, IsRoute, Chosen, Footing.AllReady, Footing.AllBlank,
           Footing.Keeps;
      if route.None? {
        var planned := Plan(0, numLayers);
        if planned.Err? {
          return Some(planned.error);
        }
        NothingAt(net.model, 0);
        BlankIsReady(Now(), 0, numLayers, NO_TOKENS, planned.value);
        route := Some(planned.value);
      }
      return None;
    }

    /** The route and what is under way on it. */
    ghost predicate Under(i: nat, x: Tokens)
      reads this`route, this`failures, this`history, this`seen
    {
      && failures <= maxFailures && seen.Aligned() && LogsAligned(history) && numLayers == net.model.layers
      && route.Some? && i <= |route.value| && IsRoute(route.value, 0, numLayers) && (i > 0 ==> x.Aligned())
    }

    /** The chunk as it enters layer l. */
    ghost predicate Arrived(l: nat, hidden: seq<Hidden>, x: Tokens)
      requires seen.Aligned()
      reads this`seen
    {
      if x.Aligned() then Tokens(hidden, x.positions) == ChunkAt(net.model, l, seen, x)
      else l == 0 && hidden == x.hidden
    }

    /** While a chunk is under way at hop i: the hops before i have seen it, the others have not. */
    ghost predicate MidStep(i: nat, hidden: seq<Hidden>, x: Tokens)
      reads this, net, net.Repr
    {
      && Books({}) && Under(i, x) && Arrived(Boundary(route.value, i, numLayers), hidden, x)
      && Now().AllReady(route.value[..i], seen.Append(x)) && Now().AllReady(route.value[i..], seen)
    }

    /** What is left of `MidStep` when hop i has just failed. */
    ghost predicate MidFailure(i: nat, hidden: seq<Hidden>, x: Tokens)
      reads this, net, net.Repr
    {
      && Under(i, x) && i < |route.value| && Books({route.value[i].peerId}) && Arrived(route.value[i].start, hidden, x)
      && Logged(net.model, history, route.value[i].start, route.value[i].end, seen)
      && Now().AllReady(route.value[..i], seen.Append(x)) && Now().AllReady(route.value[i + 1..], seen)
    }

    /** Replaces hop i by hops that have seen what it had seen; nothing else moves. */
    method Reroute(i: nat, hidden: seq<Hidden>, x: Tokens) returns (r: Option<StepError>, ghost inner: seq<Hop>)
      requires MidFailure(i, hidden, x)
      modifies `route, `history, `hopSid, `openings, `gen, `failures, `exclude, net, net.Repr
      modifies net.journal`lookups, net.journal`failed
      ensures Books({}) && old(net.Repr) <= net.Repr && fresh(net.Repr - old(net.Repr))
      ensures old(failures) < failures <= maxFailures + 1
      ensures old(exclude) <= exclude && old(route).value[i].peerId in exclude
      ensures Surplus() <= old(Surplus())
      ensures r.Some? ==> (r.value == TooManyFailures <==> failures > maxFailures) && Explained(r.value, 0, numLayers)
      ensures net.forwards <= old(net.forwards) + Times(failures - old(failures), numLayers)
      ensures old(Now()).Keeps(Now(), old(route).value[i].start, old(route).value[i].end)
      ensures net.journal.failed == old(net.journal.failed) + (failures - old(failures)) - 1
      ensures net.journal.lookups == old(net.journal.lookups) + Recoveries(old(failures))
      ensures r == None ==> MidStep(i, hidden, x) && i < |route.value|
      ensures r == None ==>
                var (hops, h) := (old(route).value, old(route).value[i]);
                route == Some(Spliced(hops, i, inner)) && Chosen(inner, h.start, h.end)
      ensures r.Some? ==> route == old(route)
      ensures route.Some? && Starts(old(route).value) <= Starts(route.value)
    {
      hide IsRoute, Surplus, Logged, Ledger, Swarm.Valid, Swarm.Idle, Swarm.State, ChunkAt, Times, Chosen,
           Footing.Keeps, Footing.AllReady, LogsAligned, Spliced, Recoveries;
      inner := [];
      var hops, h := route.value, route.value[i];
      ghost var f := Now();
      HopsOrdered(hops, 0, numLayers);
      var replaced := Replace(h, seen);
      TimesMonotone(failures - old(failures), h.end - h.start, numLayers);
      OthersReady(f, Now(), hops, i, numLayers, seen.Append(x), seen);
      LogsStayAligned(f, Now(), h);
      if replaced.Err? {
        ExplainedWidely(replaced.error, h.start, h.end);
        r := Some(replaced.error);
      } else {
        inner := replaced.value;
        Splice(i, replaced.value, hidden, x);
        r := None;
      }
    }

    /** `self.route[i : i + 1] = ...`. */
    method Splice(i: nat, inner: seq<Hop>, ghost hidden: seq<Hidden>, ghost x: Tokens)
      requires Books({}) && Under(i, x) && i < |route.value| && Arrived(route.value[i].start, hidden, x)
      requires IsRoute(inner, route.value[i].start, route.value[i].end) && Now().AllReady(inner, seen)
      requires Now().AllReady(route.value[..i], seen.Append(x)) && Now().AllReady(route.value[i + 1..], seen)
      modifies `route
      ensures MidStep(i, hidden, x) && i < |route.value| && route == Some(Spliced(old(route).value, i, inner))
      ensures Starts(old(route).value) <= Starts(route.value) && Now() == old(Now())
    {
      hide Accounted, Swarm.Valid, Swarm.Idle, Now, ChunkAt, IsRoute, Footing.AllReady, LogsAligned, Spliced, Starts;
      var hops := route.value;
      SplicedReady(Now(), hops, i, inner, seen.Append(x), seen);
      SplicedIsRoute(hops, i, inner, numLayers);
      SplicedStarts(hops, i, inner, numLayers);
      route := Some(Spliced(hops, i, inner));
    }

    /** Sends the chunk to hop i, and logs it if the hop answers. */
    method TryHop(i: nat, hidden: seq<Hidden>, x: Tokens) returns (r: Option<seq<Hidden>>)
      requires MidStep(i, hidden, x) && i < |route.value|
      modifies `history, net, net.Repr, net.journal`failed
      ensures net.forwards == old(net.forwards) + 1 && old(net.Repr) <= net.Repr && fresh(net.Repr - old(net.Repr))
      ensures net.journal.failed == if r.Some? then old(net.journal.failed) else old(net.journal.failed) + 1
      ensures if r.Some? then MidStep(i + 1, r.value, x) else MidFailure(i, hidden, x)
      ensures old(Now()).Keeps(Now(), route.value[i].start, route.value[i].end)
    {
      hide Accounted, Swarm.Valid, Swarm.Idle, Swarm.State, ChunkAt, Logged, Footing.ServerHas, Footing.Keeps,
           Footing.AllReady, LogsAligned;
      ghost var f := Now();
      var hops, h := route.value, route.value[i];
      HopsOrdered(hops, 0, numLayers);
      HopReady(f, hops, i, seen);
      var sent := Forward(h, Tokens(hidden, x.positions), seen, x);
      OthersReady(f, Now(), hops, i, numLayers, seen.Append(x), seen);
      if sent.Err? {
        return None;
      }
      Note(f, i, hidden, x, sent.value);
      return Some(sent.value);
    }

    /** Hop i answered: its input is logged, and the chunk moves on. */
    method Note(ghost f: Footing, i: nat, hidden: seq<Hidden>, x: Tokens, out: seq<Hidden>)
      requires Books({}) && Under(i, x) && i < |route.value| && x.Aligned() && Arrived(route.value[i].start, hidden, x)
      requires out == ChunkAt(net.model, route.value[i].end, seen, x).hidden
      requires f.Keeps(Now(), route.value[i].start, route.value[i].end)
      requires Now().ServerHas(route.value[i], seen.Append(x))
      requires Logged(net.model, history, route.value[i].start, route.value[i].end, seen)
      requires f.AllReady(route.value[..i], seen.Append(x)) && f.AllReady(route.value[i + 1..], seen)
      modifies `history
      ensures MidStep(i + 1, out, x) && f.Keeps(Now(), route.value[i].start, route.value[i].end)
    {
      hide Accounted, Swarm.Valid, Swarm.Idle, Swarm.State, ChunkAt, Logged, Footing.ServerHas, Footing.Keeps,
           Footing.AllReady, LogsAligned;
      var hops, h := route.value, route.value[i];
      ghost var g := Now();
      HopsOrdered(hops, 0, numLayers);
      StepLogged(net.model, history, h.start, h.end, seen, x);
      var log := if h.start in history then history[h.start] else [];
      history := history[h.start := log + [Tokens(hidden, x.positions)]];
      LoggingKeeps(f, g, Now(), h, seen.Append(x));
      OthersReady(f, Now(), hops, i, numLayers, seen.Append(x), seen);
      HopDone(Now(), hops, i, seen.Append(x));
      LogStaysAligned(net.model, history, h.start, h.end, seen.Append(x));
    }

    /** `step`: sends a chunk through the chain. Whenever it returns, the result is exactly what the
        single-process model computes for the chunk after everything seen before; and it always
        ends, after a bounded number of forwards. */
    method Step(x: Tokens) returns (r: Result<seq<Hidden>, StepError>)
      requires Valid()
      modifies this, net, net.Repr, net.journal`lookups, net.journal`failed
      ensures r.Ok? ==> Valid() && route.Some?
      // a first step that found no route may be repeated
      ensures r.Err? && route.None? ==> Valid()
      ensures r.Ok? && x.Aligned() ==>
                r.value == ChunkAt(net.model, numLayers, old(seen), x).hidden && seen == old(seen).Append(x)
      ensures r.Ok? && !x.Aligned() ==> numLayers == 0 && seen == old(seen)
      ensures r.Err? ==> seen == old(seen)
      ensures Books({}) && old(net.Repr) <= net.Repr && fresh(net.Repr - old(net.Repr))
      ensures failures <= maxFailures + 1 && (r == Err(TooManyFailures) <==> failures > maxFailures)
      ensures r.Err? ==> Explained(r.error, 0, numLayers)
      ensures failures >= old(failures) && old(exclude) <= exclude
      ensures Surplus() <= old(Surplus())
      ensures net.forwards <= old(net.forwards) + numLayers + Times(failures - old(failures), numLayers + 1)
      // every failure counted is that of a call, and each but one too many has one recovery
      ensures net.journal.failed == old(net.journal.failed) + (failures - old(failures))
      ensures net.journal.lookups ==
                old(net.journal.lookups) + (if old(route).None? then 1 else 0) + Recoveries(old(failures))
      ensures old(route).Some? ==> route.Some? && Starts(old(route).value) <= Starts(route.value)
      // the hops of peers that have not failed stay, and a route that is new is a cheapest one
      ensures old(route).Some? ==> Stay(old(route).value, route.value, exclude)
      ensures r.Ok? && failures == old(failures) ==>
                if old(route).Some? then route == old(route) else Chosen(route.value, 0, numLayers)
    {
      hide Surplus, Accounted, Swarm.Valid, Swarm.Idle, Now, ChunkAt, Times, Starts, Stay, IsRoute, LogsAligned,
           Footing.AllReady, Footing.Keeps, MidStep, MidFailure, Explained, Chosen;
      FailuresPaid(failures, failures, failures, numLayers);
      var trouble := Depart();
      if trouble.Some? {
        return Err(trouble.value);
      }
      StepStarts(x);
      r := Cross(x);
      if r.Ok? {
        RouteDone(|route.value|, r.value, x);
        seen := if x.Aligned() then seen.Append(x) else seen;
      }
    }

    /** The loop of `step`: the chunk goes from hop to hop. */
    method Cross(x: Tokens) returns (r: Result<seq<Hidden>, StepError>)
      requires MidStep(0, x.hidden, x)
      modifies `route, `history, `hopSid, `openings, `gen, `failures, `exclude, net, net.Repr
      modifies net.journal`lookups, net.journal`failed
      ensures Books({}) && old(net.Repr) <= net.Repr && fresh(net.Repr - old(net.Repr))
      ensures old(failures) <= failures <= maxFailures + 1 && old(exclude) <= exclude
      ensures Surplus() <= old(Surplus())
      ensures failures == old(failures) ==> exclude == old(exclude) && route == old(route)
      ensures net.journal.failed == old(net.journal.failed) + (failures - old(failures))
      ensures net.journal.lookups == old(net.journal.lookups) + Recoveries(old(failures))
      ensures net.forwards <= old(net.forwards) + numLayers + Times(failures - old(failures), numLayers + 1)
      ensures route.Some? && Starts(old(route).value) <= Starts(route.value)
      ensures Stay(old(route).value, route.value, exclude)
      ensures r.Ok? ==> MidStep(|route.value|, r.value, x)
      ensures r.Err? ==>
                && failures > old(failures) && Explained(r.error, 0, numLayers)
                && (r.error == TooManyFailures <==> failures > maxFailures)
    {
      hide Surplus, Accounted, Swarm.Valid, Swarm.Idle, Now, ChunkAt, Times, Starts, Stay, IsRoute, LogsAligned,
           Footing.AllReady, Footing.Keeps, MidFailure, Explained, Chosen, MidStep;
      var hidden := x.hidden;
      var i: nat := 0;
      MidFacts(i, hidden, x);
      StayAll(route.value, exclude);
      FailuresPaid(failures, failures, failures, numLayers);
      while i < |route.value|
        invariant route.Some? && i <= |route.value| && MidStep(i, hidden, x)
        invariant old(net.Repr) <= net.Repr && fresh(net.Repr - old(net.Repr))
        invariant old(failures) <= failures <= maxFailures && old(exclude) <= exclude
        invariant Surplus() <= old(Surplus())
        invariant failures == old(failures) ==> exclude == old(exclude) && route == old(route)
        invariant net.journal.failed == old(net.journal.failed) + (failures - old(failures))
        invariant net.journal.lookups == old(net.journal.lookups) + (failures - old(failures))
        invariant net.forwards <= old(net.forwards) + i + Times(failures - old(failures), numLayers + 1)
        invariant Starts(old(route).value) <= Starts(route.value) && Stay(old(route).value, route.value, exclude)
        decreases maxFailures - failures, |route.value| - i
      {
        ghost var before, hops, out := failures, route.value, exclude;
        MidFacts(i, hidden, x);
        var trouble;
        trouble, i, hidden := Turn(i, hidden, x);
        FailuresPaid(old(failures), before, failures, numLayers);
        StayTransitive(old(route).value, hops, route.value, out, exclude);
        if trouble.Some? {
          return Err(trouble.value);
        }
      }
      MidFacts(i, hidden, x);
      return Ok(hidden);
    }

    /** One turn of the loop of `step`: hop i answers, or is replaced. */
    method Turn(i: nat, hidden: seq<Hidden>, x: Tokens) returns (trouble: Option<StepError>, j: nat, y: seq<Hidden>)
      requires MidStep(i, hidden, x) && i < |route.value|
      modifies `route, `history, `hopSid, `openings, `gen, `failures, `exclude, net, net.Repr
      modifies net.journal`lookups, net.journal`failed
      ensures Books({}) && old(net.Repr) <= net.Repr && fresh(net.Repr - old(net.Repr))
      ensures net.journal.failed == old(net.journal.failed) + (failures - old(failures))
      ensures net.journal.lookups == old(net.journal.lookups) + Recoveries(old(failures))
      ensures old(failures) <= failures <= maxFailures + 1 && old(exclude) <= exclude
      ensures Surplus() <= old(Surplus())
      ensures failures == old(failures) ==> exclude == old(exclude)
      ensures net.forwards <= old(net.forwards) + 1 + Times(failures - old(failures), numLayers)
      ensures route.Some? && Starts(old(route).value) <= Starts(route.value)
      ensures Stay(old(route).value, route.value, exclude)
      ensures trouble == None ==> j <= |route.value| && MidStep(j, y, x) && failures <= maxFailures
      ensures trouble == None && failures == old(failures) ==> j == i + 1 && route == old(route)
      ensures failures > old(failures) ==> j == i
      ensures trouble.Some? ==>
                && failures > old(failures) && Explained(trouble.value, 0, numLayers)
                && (trouble.value == TooManyFailures <==> failures > maxFailures)
    {
      hide Surplus, Accounted, Swarm.Valid, Swarm.Idle, Now, Times, Starts, Stay, Spliced, MidFailure, Explained,
           Chosen, Footing.AllReady, ChunkAt, IsRoute, LogsAligned, Footing.Keeps;
      var hops := route.value;
      var out := TryHop(i, hidden, x);
      match out {
        case Some(rows) =>
          StayAll(hops, exclude);
          return None, i + 1, rows;
        case None =>
          ghost var inner;
          trouble, inner := Reroute(i, hidden, x);
          StayAll(hops, exclude);
          SplicedStay(hops, i, inner, exclude);
          return trouble, i, hidden;
      }
    }

    lemma StepStarts(x: Tokens)
      requires Valid() && route.Some?
      ensures MidStep(0, x.hidden, x)
    {
      hide Accounted, Swarm.Valid, Swarm.Idle, Now, At;
      if x.Aligned() {
        ChunkAtEntry(net.model, seen, x);
      }
      assert route.value[0..] == route.value;
    }

    lemma MidFacts(i: nat, hidden: seq<Hidden>, x: Tokens)
      requires MidStep(i, hidden, x)
      ensures Books({}) && failures <= maxFailures && route.Some? && |route.value| <= numLayers
    {
      hide Accounted, Swarm.Valid, Swarm.Idle, Now, Footing.AllReady, ChunkAt;
      RouteLength(route.value, 0, numLayers);
    }

    lemma RouteDone(i: nat, hidden: seq<Hidden>, x: Tokens)
      requires MidStep(i, hidden, x) && i == |route.value|
      ensures x.Aligned() ==> hidden == ChunkAt(net.model, numLayers, seen, x).hidden
      ensures !x.Aligned() ==> numLayers == 0
      ensures i <= numLayers && Books({}) && failures <= maxFailures && LogsAligned(history)
              && IsRoute(route.value, 0, numLayers)
      ensures Now().AllReady(route.value, if x.Aligned() then seen.Append(x) else seen)
    {
      hide Accounted, Swarm.Valid, Swarm.Idle, Now, Footing.Ready, ChunkAt;
      RouteLength(route.value, 0, numLayers);
      assert route.value[..i] == route.value;
    }

    /** After `closed` openings have been dealt with: each is on an excluded peer, had its closing call
        fail, or has left no session on any server. */
    ghost predicate ClosedUpTo(closed: nat, unanswered: set<Sid>)
      requires net.Valid() && closed <= |openings|
      reads this, net, net.Repr
    {
      forall k :: 0 <= k < closed ==>
        || openings[k].0.peerId in exclude || openings[k].1 in unanswered
        || (openings[k].1 in net.live && Gone(net.State(), openings[k].1))
    }

    /** Any session of this client that some worker still holds is on an excluded peer, or its closing
        call failed. */
    ghost predicate OnlyLeft(unanswered: set<Sid>)
      requires net.Valid()
      reads this, net, net.Repr
    {
      forall a, key: Key :: a in net.workers && key in net.State()[a].sessions && key.sid.session == net.client ==>
        && key.sid.generation < |openings| && openings[key.sid.generation].1 == key.sid
        && openings[key.sid.generation].0.address == a
        && (openings[key.sid.generation].0.peerId in exclude || key.sid in unanswered)
    }

    /** `close`: asks every server ever opened, except on excluded peers, to drop its session. What is
        left of this client anywhere is on an excluded peer or where the closing call failed. */
    method Close() returns (ghost unanswered: set<Sid>)
      requires Books({})
      modifies net, net.Repr, net.journal`closed
      ensures net.journal.closed == old(net.journal.closed) + Due(openings, exclude)
      ensures net.Valid() && net.Idle() && old(net.Repr) <= net.Repr && fresh(net.Repr - old(net.Repr))
      ensures unanswered <= old(net.live) && net.live == old(net.live) - unanswered && net.forwards == old(net.forwards)
      ensures OnlyLeft(unanswered)
    {
      hide Swarm.WorkersValid, Swarm.IdsValid, Swarm.Idle, Swarm.State, Gone, ClosedUpTo;
      unanswered := {};
      var k := 0;
      NothingClosed();
      while k < |openings|
        invariant k <= |openings| && MidClose(k, unanswered) && net.home == old(net.home)
        invariant old(net.Repr) <= net.Repr && fresh(net.Repr - old(net.Repr))
        invariant unanswered <= old(net.live) && net.live == old(net.live) - unanswered
                  && net.forwards == old(net.forwards)
        invariant net.journal.closed == old(net.journal.closed) + Due(openings[..k], exclude)
      {
        DueNext(openings, k, exclude);
        unanswered := CloseNext(k, unanswered);
        k := k + 1;
      }
      assert openings[..k] == openings;
      NothingElseLeft(unanswered);
    }

    /** Before opening k is dealt with. */
    ghost predicate MidClose(k: nat, unanswered: set<Sid>)
      reads this, net, net.Repr
    {
      && this !in net.Repr && net.journal !in net.Repr && net.Valid() && net.Idle()
      && k <= |openings| == gen && ClosedUpTo(k, unanswered) && unanswered !! net.live
      && (forall j :: j in net.home ==> j < gen)
      && (forall j :: 0 <= j < gen ==>
            openings[j].1 == Sid(net.client, j) && j in net.home && net.home[j] == openings[j].0.address)
      && (forall j :: k <= j < gen ==> openings[j].1 in net.live || openings[j].0.peerId in exclude)
    }

    lemma NothingClosed()
      requires Books({})
      ensures MidClose(0, {})
    {
      hide Swarm.Valid, Swarm.Idle;
    }

    /** Deals with opening k. */
    method CloseNext(k: nat, ghost unanswered: set<Sid>) returns (ghost more: set<Sid>)
      requires k < |openings| && MidClose(k, unanswered)
      modifies net, net.Repr, net.journal`closed
      ensures MidClose(k + 1, more) && net.home == old(net.home) && net.forwards == old(net.forwards)
      ensures old(net.Repr) <= net.Repr && fresh(net.Repr - old(net.Repr))
      ensures unanswered <= more <= unanswered + old(net.live) && net.live == old(net.live) - more
      ensures var (h, sid) := openings[k];
              net.journal.closed == old(net.journal.closed) + if h.peerId in exclude then [] else [(h.address, sid)]
    {
      hide Swarm.WorkersValid, Swarm.IdsValid, Swarm.Idle, Swarm.State, Gone;
      more := unanswered;
      var (h, sid) := openings[k];
      if h.peerId !in exclude {
        ghost var live, states := net.live - {sid}, net.State();
        var ok := net.Close(h.address, sid);
        if !ok {
          more := more + {sid};
        }
        forall j | 0 <= j < k && openings[j].1 in old(net.live) && Gone(states, openings[j].1)
          ensures openings[j].1 in net.live && Gone(net.State(), openings[j].1)
        {
          GoneWhenSpared(live, states, net.State(), openings[j].1);
        }
      }
    }

    lemma NothingElseLeft(unanswered: set<Sid>)
      requires net.Valid() && |openings| == gen && ClosedUpTo(gen, unanswered)
      requires forall k :: k in net.home ==> k < gen
      requires forall k :: 0 <= k < gen ==>
                 openings[k].1 == Sid(net.client, k) && k in net.home && net.home[k] == openings[k].0.address
      ensures OnlyLeft(unanswered)
    {
    }
  }

  function Times(n: nat, k: nat): nat {
    n * k
  }

  lemma TimesMonotone(n: nat, k: nat, more: nat)
    requires k <= more
    ensures Times(n, k) <= Times(n, more)
  {
  }

  /** A failed forward and its recoveries fit in one more `layers + 1` for every failure. */
  lemma FailuresPaid(start: nat, before: nat, after: nat, layers: nat)
    requires start <= before <= after
    ensures before < after ==>
              Times(before - start, layers + 1) + 1 + Times(after - before, layers) <= Times(after - start, layers + 1)
    ensures Times(0, layers) == 0
  {
    assert (after - start) * (layers + 1) == (before - start) * (layers + 1) + (after - before) * (layers + 1);
    assert (after - before) * (layers + 1) == (after - before) * layers + (after - before);
  }

  lemma OneMore(n: nat, k: nat)
    ensures Times(n + 1, k) == Times(n, k) + k
  {
  }
}
