/** dvlm/dreamer/client.py, `StatefulSession`: a session pinned to one worker, with a log of every
    operation that succeeded. If its worker fails, the log is replayed on another. */
module OpLog {
  import opened Wrappers
  import opened Ids
  import opened Routing
  import opened Journals
  import opened RssmServer
  import opened RssmNetwork

  datatype CallError = NoWorkers | TooManyFailures | NeverAttached

  datatype Attachment = Attached | PeerFailed | NoServers

  /** Row i is the one to attach to: none that is allowed is faster, and none before it as fast. */
  predicate IsBest(rows: seq<ServerInfo>, exclude: set<PeerId>, i: nat) {
    && i < |rows| && rows[i].peerId !in exclude
    && forall j :: 0 <= j < |rows| && rows[j].peerId !in exclude ==>
                     rows[j].throughput <= rows[i].throughput && (j < i ==> rows[j].throughput < rows[i].throughput)
  }

  /** The registry listed nobody but excluded peers. */
  predicate NobodyLeft(answer: Option<seq<ServerInfo>>, exclude: set<PeerId>) {
    answer.Some? && forall s <- answer.value :: s.peerId in exclude
  }

  /** The registry listed this peer at this address, and it was the one to attach to. */
  ghost predicate Recommended(answer: Option<seq<ServerInfo>>, exclude: set<PeerId>, a: Address, peer: PeerId) {
    && answer.Some?
    && exists i: nat ::
         IsBest(answer.value, exclude, i) && answer.value[i].address == a && answer.value[i].peerId == peer
  }

  /** From `out` and `past` on: one peer at most was tried for each of `lookups`, and only such were excluded. */
  ghost predicate Spread(out: set<PeerId>, past: seq<PeerId>, exclude: set<PeerId>, tried: seq<PeerId>, lookups: int) {
    past <= tried && |tried| <= |past| + lookups && forall p <- exclude :: p in out || p in tried
  }

  lemma SpreadStarts(out: set<PeerId>, past: seq<PeerId>)
    ensures Spread(out, past, out, past, 0)
  {
  }

  lemma SpreadFurther(out: set<PeerId>, past: seq<PeerId>, exclude: set<PeerId>, tried: seq<PeerId>, lookups: int,
                      next: seq<PeerId>, more: int)
    requires Spread(out, past, exclude, tried, lookups) && tried <= next && |next| + lookups <= |tried| + more
    ensures Spread(out, past, exclude, next, more)
  {
  }

  lemma SpreadTransitive(out: set<PeerId>, past: seq<PeerId>, out1: set<PeerId>, past1: seq<PeerId>, lookups: int,
                         exclude: set<PeerId>, tried: seq<PeerId>, more: int)
    requires Spread(out, past, out1, past1, lookups) && Spread(out1, past1, exclude, tried, more)
    ensures Spread(out, past, exclude, tried, lookups + more)
  {
  }

  lemma SpreadByFailing(out: set<PeerId>, past: seq<PeerId>, exclude: set<PeerId>, tried: seq<PeerId>, lookups: int,
                        p: PeerId)
    requires Spread(out, past, exclude, tried, lookups) && p in tried
    ensures Spread(out, past, exclude + {p}, tried, lookups)
  {
  }

  class StatefulSession {
    const net: RssmSwarm
    const maxFailures: nat
    var ops: seq<Op>
    var failures: nat
    var exclude: set<PeerId>
    var address: Option<Address>
    /** Not set before the first attachment, and never unset. */
    var peerId: Option<PeerId>
    var sid: Option<Sid>

    /** The last call reported too many failures and left an address behind, whose worker need not have
        caught up with the log. */
    ghost var stale: bool

    /** The peers this session was given ids at, in order. */
    ghost var tried: seq<PeerId>

    /** Every peer the session was at has failed and is excluded, but for the one it is at. */
    ghost predicate Blames()
      reads `address, `peerId, `exclude, `tried
    {
      && (peerId.None? <==> tried == []) && (peerId.Some? ==> peerId.value == tried[|tried| - 1])
      && forall i :: 0 <= i < |tried| ==> tried[i] in exclude || (i == |tried| - 1 && address.Some?)
    }

    predicate Spent()
      reads this
    {
      failures > maxFailures
    }

    /** The id this session will use next, if it will use it again. */
    ghost function Ids(): set<Sid>
      reads `address, `sid, `stale
    {
      if address.Some? && sid.Some? && !stale then {sid.value} else {}
    }

    /** An address that is set belongs to a peer that is not excluded, and to an id made for it. */
    ghost predicate Placed(m: Moment)
      reads `address, `peerId, `sid, `exclude, `tried
    {
      && Blames()
      && (address.Some? ==>
            sid.Some? && peerId.Some? && peerId.value !in exclude && m.Issued(sid.value, address.value))
    }

    /** An address that is set belongs to an id that is no good any more. */
    ghost predicate Adrift(m: Moment)
      reads `address, `peerId, `sid, `exclude, `tried
    {
      Placed(m) && (address.Some? ==> sid.value !in m.book.live)
    }

    /** The worker holds exactly what the log says, unless the address is stale. */
    ghost predicate Synced(m: Moment)
      reads this
    {
      && Placed(m) && (stale ==> Spent() && address.Some?)
      && if stale then Adrift(m) else address.Some? ==> m.At(sid.value, address.value, net.rssm.Fold(ops))
    }

    /** And no handler is at work for the session. */
    ghost predicate Resting(m: Moment)
      reads this
    {
      Synced(m) && (address.Some? && !stale ==> m.Rests(sid.value, address.value, net.rssm.Fold(ops)))
    }

    ghost predicate Valid()
      reads this, net, net.workers.Values
    {
      net.Valid() && net.Idle() && Synced(net.Now())
    }

    /** What the client does with other ids, this session does not notice. */
    lemma SyncedLater(m: Moment, later: Moment, mine: set<Sid>)
      requires m.Sound() && m.Leads(mine, later) && Synced(m) && Ids() !! mine
      ensures Synced(later)
    {
      hide AllSpare;
      if address.Some? && !stale {
        AtLater(m, later, mine, sid.value, address.value, net.rssm.Fold(ops));
      }
    }

    /** What a caller can see of an address that is not stale. */
    lemma SeenNotStale()
      requires Valid() && (!Spent() || address.None?)
      ensures !stale
    {
    }

    constructor (net: RssmSwarm, ops: seq<Op>, maxFailures: nat)
      ensures this.net == net && this.ops == ops && this.maxFailures == maxFailures
      ensures failures == 0 && exclude == {} && address == None && peerId == None && sid == None && !stale
      ensures tried == []
    {
      this.net, this.ops, this.maxFailures := net, ops, maxFailures;
      failures, exclude, address, peerId, sid, stale, tried := 0, {}, None, None, None, false, [];
    }

    /** The first of the fastest rows whose peer is not excluded. */
    method Best(rows: seq<ServerInfo>) returns (best: Option<ServerInfo>)
      ensures best.None? <==> NobodyLeft(Some(rows), exclude)
      ensures best.Some? ==>
                best.value.peerId !in exclude && exists i: nat :: IsBest(rows, exclude, i) && rows[i] == best.value
    {
      best := None;
      var i, at := 0, 0;
      while i < |rows|
        invariant i <= |rows|
        invariant best.None? <==> forall j :: 0 <= j < i ==> rows[j].peerId in exclude
        invariant best.Some? ==> at < i && rows[at] == best.value && IsBest(rows[..i], exclude, at)
      {
        if rows[i].peerId !in exclude && (best.None? || rows[i].throughput > best.value.throughput) {
          best, at := Some(rows[i]), i;
        }
        i := i + 1;
      }
      assert rows[..i] == rows;
    }

    /** Brings a new session to where the log says. */
    method Replay() returns (ok: bool)
      requires net.Valid() && net.Idle() && address.Some? && sid.Some? && net.Now().At(sid.value, address.value, None)
      modifies net`pending, net`live, net.workers.Values, net.journal`failed
      ensures net.journal.failed == if ok then old(net.journal.failed) else old(net.journal.failed) + 1
      ensures net.Valid() && net.Idle() && old(net.Now()).Leads({sid.value}, net.Now())
      ensures if ok then net.Now().At(sid.value, address.value, net.rssm.Fold(ops))
              else sid.value !in net.live && net.Now().Issued(sid.value, address.value)
    {
      hide RssmSwarm.Valid, RssmSwarm.Idle, RssmSwarm.Now, Moment.At, Moment.Leads, Rssm.Apply;
      LeadsReflexive(net.Now(), {sid.value});
      var k := 0;
      while k < |ops|
        invariant k <= |ops| && net.Valid() && net.Idle() && old(net.Now()).Leads({sid.value}, net.Now())
        invariant net.Now().At(sid.value, address.value, net.rssm.Fold(ops[..k]))
        invariant net.journal.failed == old(net.journal.failed)
      {
        ghost var before := net.Now();
        var r := net.Call(address.value, sid.value, ops[k], net.rssm.Fold(ops[..k]));
        LeadsTransitive(old(net.Now()), before, net.Now(), {sid.value}, {sid.value});
        if r.None? {
          return false;
        }
        net.rssm.FoldNext(ops[..k], ops[k]);
        assert ops[..k + 1] == ops[..k] + [ops[k]];
        k := k + 1;
      }
      assert ops[..k] == ops;
      return true;
    }

    /** The session is where it was. */
    ghost predicate Standing(a: Option<Address>, peer: Option<PeerId>, id: Option<Sid>, past: seq<PeerId>)
      reads `address, `peerId, `sid, `tried
    {
      address == a && peerId == peer && sid == id && tried == past
    }

    /** The session has gone to the one that the registry's last answer recommended, if there was one. */
    ghost predicate Sought(past: seq<PeerId>)
      reads `address, `peerId, `exclude, `tried, net.journal`lookups
    {
      if address.None? then
        tried == past && (net.journal.Last().None? || NobodyLeft(net.journal.Last(), exclude))
      else
        && peerId.Some? && tried == past + [peerId.value]
        && Recommended(net.journal.Last(), exclude, address.value, peerId.value)
    }

    /** Opens a session on another worker and brings it up to date. */
    method Attach() returns (r: Attachment)
      requires Valid() && address.None?
      modifies `address, `peerId, `sid, `tried, net, net.workers.Values, net.journal`lookups, net.journal`failed
      ensures net.Valid() && net.Idle() && old(net.Now()).Leads({}, net.Now())
      ensures r.Attached? ==> Synced(net.Now()) && address.Some?
      ensures Ids() !! old(net.live)
      ensures r.PeerFailed? ==> Adrift(net.Now())
      ensures net.journal.lookups == old(net.journal.lookups) + 1
      ensures r.NoServers? <==> NobodyLeft(net.journal.Last(), exclude)
      ensures r.NoServers? ==> unchanged(this)
      ensures net.journal.Failures() == old(net.journal.Failures()) + if r.PeerFailed? then 1 else 0
      ensures Sought(old(tried))
    {
      hide RssmSwarm.Valid, RssmSwarm.Idle, RssmSwarm.State, RssmSwarm.Now, Moment.Leads, Moment.At, Moment.Issued,
           Rssm.Fold, IsBest, Journal.Silences, Blames;
      LeadsReflexive(net.Now(), {});
      var rows := net.Servers();
      net.Untouched();
      net.LiveNow();
      if rows.None? {
        return PeerFailed;
      }
      var best := Best(rows.value);
      if best.None? {
        return NoServers;
      }
      var ok := Join(best.value.address, best.value.peerId);
      return if ok then Attached else PeerFailed;
    }

    /** Opens a session on this worker and brings it up to date. */
    method Join(a: Address, peer: PeerId) returns (ok: bool)
      requires Valid() && address.None? && peer !in exclude
      modifies `address, `peerId, `sid, `tried, net, net.workers.Values, net.journal`failed
      ensures net.Valid() && net.Idle() && old(net.Now()).Leads({}, net.Now()) && Ids() !! old(net.live)
      ensures if ok then Synced(net.Now()) else Adrift(net.Now())
      ensures net.journal.failed == if ok then old(net.journal.failed) else old(net.journal.failed) + 1
      ensures address == Some(a) && peerId == Some(peer) && tried == old(tried) + [peer]
    {
      hide RssmSwarm.Valid, RssmSwarm.Idle, RssmSwarm.State, RssmSwarm.Now, Moment.Leads, Moment.At, Moment.Issued,
           Moment.Rests, Rssm.Fold, Blames;
      ghost var m0 := net.Now();
      net.LiveNow();
      Assign(a, peer);
      ghost var m1 := net.Now();
      ok := Replay();
      net.LiveNow();
      LeadsTransitive(m0, m1, net.Now(), {}, {sid.value});
      if ok {
        AtMeans(net.Now(), sid.value, a, net.rssm.Fold(ops));
      }
    }

    /** The session is given a new id at a worker, which has had nothing of its log yet. */
    method Assign(a: Address, peer: PeerId)
      requires net.Valid() && Placed(net.Now()) && address.None? && peer !in exclude
      modifies `address, `peerId, `sid, `tried, net`live, net`home, net`issued
      ensures net.Valid() && (old(net.Idle()) ==> net.Idle()) && old(net.Now()).Leads({}, net.Now())
      ensures Placed(net.Now()) && address == Some(a) && peerId == Some(peer) && tried == old(tried) + [peer]
      ensures sid.value !in old(net.live) && NeverSeen(net.State(), sid.value) && net.State() == old(net.State())
      ensures net.Now().At(sid.value, a, None) && net.Now().Rests(sid.value, a, None)
    {
      hide RssmSwarm.Valid, RssmSwarm.Idle, RssmSwarm.State, RssmSwarm.Now, Moment.Leads, Moment.At, Moment.Issued,
           Moment.Rests, NeverSeen;
      var id := net.HandOut(a);
      AtMeans(net.Now(), id, a, None);
      label HandedOut:
      address, peerId, sid, tried := Some(a), Some(peer), Some(id), tried + [peer];
      net.Untouched@HandedOut();
    }

    /** Counts a failure. Without one too many, the peer is never asked again. */
    method Fail() returns (r: Option<CallError>)
      requires !stale && Adrift(net.Now())
      modifies `failures, `exclude, `address, `stale
      ensures failures == old(failures) + 1 && Adrift(net.Now())
      ensures stale <==> r == Some(TooManyFailures) && address.Some?
      ensures r == Some(TooManyFailures) <==> Spent()
      ensures r == None ==>
                address.None? && peerId.Some? && exclude == old(exclude) + {peerId.value} && peerId.value in tried
      ensures r.Some? ==> exclude == old(exclude) && address == old(address) && !r.value.NoWorkers?
      ensures r == Some(NeverAttached) ==> address.None? && peerId.None?
    {
      failures := failures + 1;
      if failures > maxFailures {
        stale := address.Some?;
        return Some(TooManyFailures);
      }
      if peerId.None? {
        return Some(NeverAttached);
      }
      exclude := exclude + {peerId.value};
      address := None;
      return None;
    }

    /** One round of the loop of `call`: attaches if need be, and asks. */
    method Ask(op: Op) returns (r: Option<Tensor>, stuck: bool)
      requires Valid() && !stale
      modifies `address, `peerId, `sid, `tried, net, net.workers.Values, net.journal`lookups, net.journal`failed
      ensures net.Valid() && net.Idle() && old(net.Now()).Leads(old(Ids()), net.Now())
      ensures net.journal.lookups == old(net.journal.lookups) + if old(address).None? then 1 else 0
      ensures net.journal.Failures() == old(net.journal.Failures()) + if !stuck && r.None? then 1 else 0
      ensures if old(address).Some? then !stuck && Standing(old(address), old(peerId), old(sid), old(tried))
              else (stuck <==> NobodyLeft(net.journal.Last(), exclude)) && Sought(old(tried))
      ensures stuck ==> Valid() && address.None?
      ensures !stuck && r.None? ==> Adrift(net.Now())
      ensures !stuck && r.Some? ==>
                && address.Some? && Placed(net.Now())
                && var to := net.rssm.Apply(net.rssm.Fold(ops), op);
                   to.Some? && r.value == net.rssm.features(to.value) && net.Now().At(sid.value, address.value, to)
      ensures Ids() * old(net.live) <= old(Ids())
    {
      hide RssmSwarm.Valid, RssmSwarm.Idle, RssmSwarm.State, Moment.Leads, Moment.At, Moment.Issued, Rssm.Apply,
           Rssm.Fold;
      ghost var m0 := net.Now();
      LeadsReflexive(m0, Ids());
      if address.None? {
        var attached := Attach();
        if !attached.Attached? {
          return None, attached.NoServers?;
        }
      }
      ghost var m1 := net.Now();
      AtMeans(m1, sid.value, address.value, net.rssm.Fold(ops));
      r := net.Call(address.value, sid.value, op, net.rssm.Fold(ops));
      stuck := false;
      LeadsTransitive(m0, m1, net.Now(), old(Ids()), {sid.value});
      if r.Some? {
        AtMeans(net.Now(), sid.value, address.value, net.rssm.Apply(net.rssm.Fold(ops), op));
      }
    }

    /** What a round leaves when it failed, or when the call ends with it. */
    ghost predicate Rounded(r: Option<Result<Tensor, CallError>>, op: Op, past: seq<Op>)
      reads this, net.journal`lookups
    {
      match r
      case None => ops == past && !stale && address.None? && !Spent()
      case Some(Ok(features)) =>
        var to := net.rssm.Fold(ops);
        ops == past + [op] && !stale && to.Some? && features == net.rssm.features(to.value)
      case Some(Err(NoWorkers)) =>
        ops == past && !stale && address.None? && NobodyLeft(net.journal.Last(), exclude)
      case Some(Err(TooManyFailures)) => ops == past && Spent() && (stale <==> address.Some?)
      case Some(Err(NeverAttached)) =>
        ops == past && !stale && address.None? && peerId.None? && net.journal.Last().None?
    }

    lemma AdriftIsSynced(m: Moment)
      requires Adrift(m) && if stale then Spent() && address.Some? else address.None?
      ensures Synced(m) && Ids() == {}
    {
    }

    lemma AttachedIsSynced(m: Moment)
      requires Placed(m) && !stale && address.Some? && m.At(sid.value, address.value, net.rssm.Fold(ops))
      ensures Synced(m)
    {
    }

    /** One round of the loop of `call`, with what is recorded of it. */
    method Round(op: Op) returns (r: Option<Result<Tensor, CallError>>)
      requires Valid() && !stale
      modifies this, net, net.workers.Values, net.journal`lookups, net.journal`failed
      ensures Valid() && Rounded(r, op, old(ops)) && old(exclude) <= exclude
      ensures failures == old(failures) + if r.Some? && (r.value.Ok? || r.value.error.NoWorkers?) then 0 else 1
      ensures net.journal.Failures() == old(net.journal.Failures()) + (failures - old(failures))
      ensures net.journal.lookups == old(net.journal.lookups) + if old(address).None? then 1 else 0
      ensures if old(address).Some? then r.Some? ==> Standing(old(address), old(peerId), old(sid), old(tried))
              else address.Some? ==>
                     peerId.Some? && Recommended(net.journal.Last(), exclude, address.value, peerId.value)
      ensures Spread(old(exclude), old(tried), exclude, tried, net.journal.lookups - old(net.journal.lookups))
      ensures old(net.Now()).Leads(old(Ids()), net.Now()) && Ids() * old(net.live) <= old(Ids())
    {
      hide RssmSwarm.Valid, RssmSwarm.Idle, RssmSwarm.State, RssmSwarm.Now, Moment.Leads, Moment.At, Moment.Issued,
           Rssm.Apply, NobodyLeft, Recommended, Spread, Journal.Silences, Journal.Failures, Synced, Adrift, Placed,
           Blames;
      var answer, stuck := Ask(op);
      SpreadStarts(old(exclude), old(tried));
      SpreadFurther(old(exclude), old(tried), exclude, old(tried), 0, tried,
                    net.journal.lookups - old(net.journal.lookups));
      r := if stuck then Some(Err(NoWorkers)) else None;
      if answer.Some? && !stuck {
        net.rssm.FoldNext(ops, op);
        label Answered:
        ops := ops + [op];
        net.Untouched@Answered();
        AttachedIsSynced(net.Now());
        r := Some(Ok(answer.value));
      } else if !stuck {
        label Failed:
        ghost var out := exclude;
        var raised := Fail();
        net.Untouched@Failed();
        AdriftIsSynced(net.Now());
        if raised.Some? {
          r := Some(Err(raised.value));
        } else {
          SpreadByFailing(old(exclude), old(tried), out, tried, net.journal.lookups - old(net.journal.lookups),
                          peerId.value);
        }
      }
    }

    /** `call`: whenever it returns a result, it is the one the log so far leads to, and the operation
        is in the log. */
    method Call(op: Op) returns (r: Result<Tensor, CallError>)
      requires Valid() && !stale
      modifies this, net, net.workers.Values, net.journal`lookups, net.journal`failed
      ensures Valid() && old(failures) <= failures && old(exclude) <= exclude
      ensures failures <= if old(failures) <= maxFailures then maxFailures + 1 else old(failures) + 1
      ensures r == Err(TooManyFailures) ==> Spent()
      ensures stale <==> r == Err(TooManyFailures) && address.Some?
      ensures r == Err(NeverAttached) ==> peerId.None? && net.journal.Last().None?
      ensures r == Err(NoWorkers) ==> address.None? && NobodyLeft(net.journal.Last(), exclude)
      // whatever went wrong is counted once, and followed by another round unless the call raises
      ensures net.journal.Failures() == old(net.journal.Failures()) + (failures - old(failures))
      ensures net.journal.lookups ==
                old(net.journal.lookups) + (if old(address).None? then 1 else 0) + (failures - old(failures))
                - if r.Err? && !r.error.NoWorkers? then 1 else 0
      // where the session is, and whom it has excluded
      ensures net.journal.lookups == old(net.journal.lookups) ==>
                Standing(old(address), old(peerId), old(sid), old(tried))
      ensures net.journal.lookups > old(net.journal.lookups) && address.Some? ==>
                peerId.Some? && Recommended(net.journal.Last(), exclude, address.value, peerId.value)
      ensures Spread(old(exclude), old(tried), exclude, tried, net.journal.lookups - old(net.journal.lookups))
      ensures r.Ok? ==>
                var to := net.rssm.Fold(ops);
                ops == old(ops) + [op] && to.Some? && r.value == net.rssm.features(to.value)
      ensures r.Err? ==> ops == old(ops)
      ensures old(net.Now()).Leads(old(Ids()), net.Now()) && Ids() * old(net.live) <= old(Ids())
    {
      hide RssmSwarm.Valid, RssmSwarm.Idle, RssmSwarm.State, RssmSwarm.Now, Moment.Leads, Synced, NobodyLeft,
           Recommended, Spread, Ids, Journal.Failures, Journal.Silences, Journal.Last, Rssm.Fold;
      net.LiveNow();
      ghost var m0, mine := net.Now(), Ids();
      LeadsReflexive(m0, mine);
      SpreadStarts(exclude, tried);
      while true
        invariant Valid() && !stale && ops == old(ops) && old(failures) <= failures && old(exclude) <= exclude
        invariant failures == old(failures) || failures <= maxFailures
        invariant m0.Leads(mine, net.Now()) && Ids() * m0.book.live <= mine
        invariant net.journal.Failures() == old(net.journal.Failures()) + (failures - old(failures))
        invariant Spread(old(exclude), old(tried), exclude, tried, net.journal.lookups - old(net.journal.lookups))
        invariant if failures == old(failures) then
                    net.journal.lookups == old(net.journal.lookups) && address == old(address)
                    && Standing(old(address), old(peerId), old(sid), old(tried))
                  else
                    && address.None?
                    && net.journal.lookups == old(net.journal.lookups) + (failures - old(failures))
                         - if old(address).None? then 0 else 1
        decreases maxFailures - failures
      {
        net.LiveNow();
        ghost var m1, ids, out, past := net.Now(), Ids(), exclude, tried;
        ghost var lookups := net.journal.lookups;
        var ended := Round(op);
        SpreadTransitive(old(exclude), old(tried), out, past, lookups - old(net.journal.lookups), exclude, tried,
                         net.journal.lookups - lookups);
        LeadsTransitive(m0, m1, net.Now(), mine, ids);
        OwnIdsStayOwn(m0, m1, mine, ids, Ids());
        if ended.Some? {
          return ended.value;
        }
      }
    }

    /** The last fork asked for was of this session, and the child is where it says. */
    ghost predicate Forked(child: StatefulSession, before: seq<(Sid, Sid, bool)>)
      reads this, child, net.journal
    {
      && |net.journal.forked| == |before| + 1 && before < net.journal.forked
      && var (parent, id, ok) := net.journal.forked[|before|];
         && sid == Some(parent) && ok == child.address.Some?
         && (ok ==> child.address == address && child.peerId == peerId && child.sid == Some(id))
    }

    /** `fork`: the child starts from the same log, at its parent's worker if that made a copy. No call on
        the parent may be under way, which `Valid` sees to by `Idle`. */
    method Fork() returns (child: StatefulSession)
      requires Valid() && !stale
      modifies net, net.workers.Values, net.journal`forked
      ensures Valid() && fresh(child) && child.net == net && child.Valid() && !child.stale
      ensures child.ops == ops && child.exclude == exclude && child.failures == 0 && child.maxFailures == maxFailures
      // the worker is asked for a copy, and the child is there if and only if it was made
      ensures if address.Some? then Forked(child, old(net.journal.forked))
              else child.address.None? && net.journal.forked == old(net.journal.forked)
      ensures old(net.Now()).Leads({}, net.Now()) && child.Ids() !! old(net.live) && child.Ids() !! Ids()
    {
      hide RssmSwarm.Valid, RssmSwarm.Idle, RssmSwarm.State, RssmSwarm.Now, Moment.Leads, Moment.At, Moment.Issued,
           Rssm.Apply, Rssm.Fold, Blames;
      var copied: Option<Sid> := None;
      net.LiveNow();
      LeadsReflexive(net.Now(), {});
      if address.Some? {
        AtMeans(net.Now(), sid.value, address.value, net.rssm.Fold(ops));
        ghost var asked;
        copied, asked := Copy();
      }
      child := Child(copied);
    }

    /** A session with the same log and the same exclusions, at this one's worker if that made a copy. */
    method Child(copied: Option<Sid>) returns (child: StatefulSession)
      requires Valid()
      requires copied.Some? ==> address.Some? && net.Now().At(copied.value, address.value, net.rssm.Fold(ops))
      ensures fresh(child) && child.net == net && child.Valid() && !child.stale
      ensures child.ops == ops && child.exclude == exclude && child.failures == 0 && child.maxFailures == maxFailures
      ensures child.sid == copied && child.address == if copied.Some? then address else None
      ensures copied.Some? ==> child.peerId == peerId
    {
      hide RssmSwarm.Valid, RssmSwarm.Idle, RssmSwarm.State, RssmSwarm.Now, Moment.At, Moment.Issued, Rssm.Fold;
      child := new StatefulSession(net, ops, maxFailures);
      child.exclude := exclude;
      if copied.Some? {
        AtMeans(net.Now(), copied.value, address.value, net.rssm.Fold(ops));
        child.address, child.peerId, child.sid := address, peerId, copied;
        child.tried := [peerId.value];
      }
    }

    /** Asks the session's worker for a copy under a new id. */
    method Copy() returns (id: Option<Sid>, ghost asked: Sid)
      requires Valid() && !stale && address.Some?
      modifies net, net.workers.Values, net.journal`forked
      ensures sid.Some? && net.journal.forked == old(net.journal.forked) + [(sid.value, asked, id.Some?)]
      ensures id.Some? ==> asked == id.value
      ensures Valid() && old(net.Now()).Leads({}, net.Now())
      ensures id.Some? ==> id.value !in old(net.live) && net.Now().At(id.value, address.value, net.rssm.Fold(ops))
    {
      hide RssmSwarm.Valid, RssmSwarm.Idle, RssmSwarm.State, Moment.Leads, Moment.At, Moment.Issued, Rssm.Apply,
           Rssm.Fold;
      ghost var m0, s := net.Now(), net.rssm.Fold(ops);
      net.SoundNow();
      AtMeans(m0, sid.value, address.value, s);
      var made := net.HandOut(address.value);
      ghost var m1 := net.Now();
      AtMeans(m1, made, address.value, None);
      AtLater(m0, m1, {}, sid.value, address.value, s);
      var ok := net.Fork(address.value, sid.value, made, s);
      ghost var m2 := net.Now();
      LeadsTransitive(m0, m1, m2, {}, {made});
      AtLater(m0, m2, {}, sid.value, address.value, s);
      AtMeans(m2, sid.value, address.value, s);
      return if ok then Some(made) else None, made;
    }

    /** `close`: its only purpose is the worker's table, so a failure is ignored. */
    method Close() returns (done: bool)
      requires Valid()
      modifies net, net.workers.Values, net.journal`closed
      ensures net.Valid() && net.Idle() && old(net.Now()).Leads(Ids(), net.Now())
      ensures net.journal.closed ==
                old(net.journal.closed) + if address.Some? then [(address.value, sid.value)] else []
      ensures done ==> forall b :: b in net.workers ==> sid.Some? && sid.value !in net.workers[b].sessions
    {
      hide RssmSwarm.Valid, RssmSwarm.Idle, RssmSwarm.State, Moment.Leads, Moment.At, Moment.Issued, Rssm.Fold;
      LeadsReflexive(net.Now(), Ids());
      done := false;
      if address.Some? {
        net.LiveNow();
        if !stale {
          AtMeans(net.Now(), sid.value, address.value, net.rssm.Fold(ops));
        }
        if sid.value !in net.live {
          net.CloseDead(address.value, sid.value);
        } else {
          done := net.Close(address.value, sid.value);
        }
      }
    }
  }

  /* ---------- Why a log must be replayed whole, and a session must not be forgotten ---------- */

  /** A model whose state counts the operations it has seen. */
  const COUNTER := Rssm(
    (_: nat) => Latent([], []),
    (s: Latent, _: Tensor, _: Tensor, _: Tensor, _: int) => Latent(s.h + [[]], []),
    (s: Latent, _: Tensor, _: int) => Latent(s.h + [[]], []),
    (s: Latent) => s.h)

  function Count(n: nat): Tensor {
    seq(n, _ => [])
  }

  lemma {:induction false} CounterCounts(ops: seq<Op>)
    requires ops != [] ==> ops[0].Observe?
    ensures COUNTER.Fold(ops) == if ops == [] then None else Some(Latent(Count(|ops|), []))
  {
    if ops != [] {
      var before := ops[..|ops| - 1];
      CounterCounts(before);
      assert Count(|before|) + [[]] == Count(|ops|);
    }
  }

  /** A worker that holds only the first k operations of a log answers the next one as the whole log
      would, for every model, exactly when k is all of them. With k less, as after a replay that broke
      off or after the worker forgot the session (k == 0), an answer may be wrong. */
  lemma OnlyWholeLogsAnswerRight(ops: seq<Op>, k: nat, op: Op)
    requires ops != [] && ops[0].Observe? && k <= |ops| && (k > 0 || op.Observe?)
    ensures var partial, whole := COUNTER.Apply(COUNTER.Fold(ops[..k]), op), COUNTER.Apply(COUNTER.Fold(ops), op);
            partial.Some? && whole.Some? && (COUNTER.features(partial.value) == COUNTER.features(whole.value) <==>
                      k == |ops|)
  {
    CounterCounts(ops[..k]);
    CounterCounts(ops);
    assert ops[..|ops|] == ops;
  }

  /** What the next operation of an attached session answers when its worker stands at some log `held`:
      what the session's own log leads to exactly when the two are equally long. The worker's state is
      `w` when the operation arrives, `w1` when it has begun and `w2` when it has run. */
  lemma AnswersRightIffCaughtUp(s: StatefulSession, held: seq<Op>, op: Op, j: nat, w: RssmState, w1: RssmState,
                                w2: RssmState)
    requires s.net.rssm == COUNTER && s.sid.Some? && Lookup(w, s.sid.value) == COUNTER.Fold(held)
    requires (held + [op])[0].Observe? && (s.ops + [op])[0].Observe?
    requires BegunFrom(w, w1, j, s.sid.value, op, COUNTER) && RanFrom(w1, w2, j, COUNTER)
    ensures w2.handlers[j].Finished? && COUNTER.Fold(s.ops + [op]).Some?
    ensures COUNTER.features(w2.handlers[j].latent) == COUNTER.features(COUNTER.Fold(s.ops + [op]).value)
            <==> |held| == |s.ops|
  {
    hide BegunFrom, RanFrom, Rssm.Apply, Rssm.Fold, Lookup;
    RanAnswers(w, w1, w2, j, s.sid.value, op, COUNTER);
    CountsOn(s.ops, op);
    CountsOn(held, op);
  }

  lemma RanAnswers(w: RssmState, w1: RssmState, w2: RssmState, j: nat, sid: Sid, op: Op, rssm: Rssm)
    requires BegunFrom(w, w1, j, sid, op, rssm) && RanFrom(w1, w2, j, rssm)
    ensures j in w2.handlers && w2.handlers[j].Finished?
    ensures rssm.Apply(Lookup(w, sid), op) == Some(w2.handlers[j].latent)
  {
  }

  lemma CountsOn(log: seq<Op>, op: Op)
    requires (log + [op])[0].Observe?
    ensures COUNTER.Apply(COUNTER.Fold(log), op) == COUNTER.Fold(log + [op])
    ensures COUNTER.Fold(log + [op]).Some? && |COUNTER.features(COUNTER.Fold(log + [op]).value)| == |log| + 1
    ensures COUNTER.Fold(log + [op]) == Some(Latent(Count(|log| + 1), []))
  {
    COUNTER.FoldNext(log, op);
    CounterCounts(log + [op]);
  }

  /** A worker handles one operation from beginning to end, and nothing comes between. */
  method Undisturbed(w: RssmWorker, sid: Sid, op: Op) returns (features: Tensor, ghost j: nat, ghost w1: RssmState,
                                                               ghost w2: RssmState)
    requires w.Valid() && (sid in w.sessions || (op.Observe? && |w.sessions| < w.maxSessions))
    modifies w
    ensures w.Valid() && w.sessions.Keys == old(w.sessions).Keys + {sid}
    ensures old(w.State()).SparesBut(sid, w.State()) && w.handlers == old(w.handlers)
    ensures sid in w.dropped <==> sid in old(w.dropped)
    ensures BegunFrom(old(w.State()), w1, j, sid, op, w.rssm) && RanFrom(w1, w2, j, w.rssm)
    ensures features == w.rssm.features(w2.handlers[j].latent)
    ensures Lookup(w.State(), sid) == w.rssm.Apply(Lookup(old(w.State()), sid), op)
  {
    hide RssmState.SparesBut, RssmState.Consistent, BegunFrom, Rssm.Apply, Lookup;
    assert |w.sessions| < w.maxSessions ==> w.Kept(0) == w.sessions;
    ghost var w0 := w.State();
    var begun := w.Begin(sid, op, 0);
    j, w1 := begun.value, w.State();
    BegunWaits(w0, w1, j, sid, op, w.rssm);
    w.Run(begun.value);
    w2 := w.State();
    features := w.Commit(begun.value);
    SparesButTransitive(w0, w1, w2, sid);
    SparesButTransitive(w0, w2, w.State(), sid);
    HandledOnce(w0, w1, w2, w.State(), j, sid, op, w.rssm);
  }

  lemma BegunWaits(w: RssmState, w1: RssmState, j: nat, sid: Sid, op: Op, rssm: Rssm)
    requires BegunFrom(w, w1, j, sid, op, rssm)
    ensures j in w1.handlers && w1.handlers[j].Waiting? && w1.handlers[j].sid == sid
  {
  }

  lemma HandledOnce(w: RssmState, w1: RssmState, w2: RssmState, w3: RssmState, j: nat, sid: Sid, op: Op, rssm: Rssm)
    requires j !in w.handlers
    requires BegunFrom(w, w1, j, sid, op, rssm) && RanFrom(w1, w2, j, rssm) && CommittedFrom(w2, w3, j)
    ensures Lookup(w3, sid) == rssm.Apply(Lookup(w, sid), op) && w3.handlers == w.handlers
  {
  }

  /** A worker alone in its network. */
  method Alone() returns (net: RssmSwarm, w: RssmWorker)
    ensures fresh(net) && fresh(w) && net.Valid() && net.Idle() && net.rssm == w.rssm == COUNTER
    ensures net.workers == map[0 := w] && w.Valid() && w.maxSessions == 2 && |w.sessions| == 0
  {
    w := new RssmWorker(COUNTER, 2, 0);
    var journal := new Journal(_ => None);
    net := new RssmSwarm(COUNTER, map[0 := w], 0, journal);
  }

  lemma NeverSeenAt(net: RssmSwarm, a: Address, sid: Sid)
    requires NeverSeen(net.State(), sid) && a in net.workers
    ensures sid !in net.workers[a].sessions
  {
    assert a in net.State();
  }

  /** A call for an id is lost on its way, and the id given up. */
  method LoseCall(net: RssmSwarm, a: Address, id: Sid, op: Op)
    requires net.Valid() && net.Idle() && net.Now().Issued(id, a)
    modifies net`live, net`pending
    ensures net.Valid() && net.Idle() && net.Now().Issued(id, a) && id !in net.live && net.State() == old(net.State())
  {
    hide RssmSwarm.WorkersValid, RssmSwarm.State, Ledger.Accounts, Quiet, AllSpare;
    AllSpareReflexive(net.live - {id}, net.State());
    net.Abandon(Request(a, id, op), net.State());
  }

  /** A session with this log that could not be attached: the first call of its replay was lost, and that
      was one failure too many. Its id is new to every worker. */
  method Stranded(net: RssmSwarm, a: Address, log: seq<Op>) returns (s: StatefulSession)
    requires net.Valid() && net.Idle() && log != []
    modifies net`live, net`home, net`issued, net`pending
    ensures fresh(s) && s.net == net && s.Valid() && s.stale && s.ops == log
    ensures s.address == Some(a) && s.sid.Some? && NeverSeen(net.State(), s.sid.value)
    ensures net.State() == old(net.State())
  {
    hide RssmSwarm.Valid, RssmSwarm.Idle, RssmSwarm.State, Moment.At, Moment.Issued, Moment.Leads, NeverSeen;
    s := new StatefulSession(net, log, 0);
    s.Assign(a, 0);
    AtMeans(net.Now(), s.sid.value, a, None);
    LoseCall(net, a, s.sid.value, log[0]);
    label Lost:
    var _ := s.Fail();
    net.Untouched@Lost();
  }

  /** A session whose worker has seen nothing of its log asks it the next operation. */
  method AskAhead(s: StatefulSession, w: RssmWorker, op: Op) returns (features: Tensor)
    requires s.net.rssm == w.rssm == COUNTER && s.sid.Some? && s.sid.value !in w.sessions
    requires op.Observe? && s.ops != [] && s.ops[0].Observe?
    requires w.Valid() && |w.sessions| < w.maxSessions
    modifies w
    ensures COUNTER.Fold(s.ops + [op]).Some? && features != COUNTER.features(COUNTER.Fold(s.ops + [op]).value)
  {
    hide BegunFrom, RanFrom;
    ghost var w0 := w.State();
    ghost var j, w1, w2;
    features, j, w1, w2 := Undisturbed(w, s.sid.value, op);
    AnswersRightIffCaughtUp(s, [], op, j, w0, w1, w2);
  }

  /** The next operation of a stranded session is answered wrongly, by a worker that nothing disturbs. */
  method StaleAnswersWrongly(first: Op, op: Op) returns (s: StatefulSession, features: Tensor)
    requires first.Observe? && op.Observe?
    ensures fresh(s) && s.stale && s.ops == [first] && s.net.rssm == COUNTER
    ensures COUNTER.Fold(s.ops + [op]).Some? && features != COUNTER.features(COUNTER.Fold(s.ops + [op]).value)
  {
    hide *;
    var net, w := Alone();
    s := Stranded(net, 0, [first]);
    NeverSeenAt(net, 0, s.sid.value);
    features := AskAhead(s, w, op);
  }

  /* ---------- Why no call may be under way on a session that is forked ---------- */

  /** A child is made with its parent's log, and its parent's worker then copies the parent's state. If the
      worker has handled the operations `between` for the parent in the meantime, what the child's next
      operation answers is what the child's log leads to exactly when there were none. */
  lemma ForkedRightIffNothingBetween(child: StatefulSession, between: seq<Op>, op: Op, j: nat, w: RssmState,
                                     w1: RssmState, w2: RssmState)
    requires child.net.rssm == COUNTER && child.ops != [] && child.ops[0].Observe? && child.sid.Some?
    requires Lookup(w, child.sid.value) == COUNTER.Fold(child.ops + between)
    requires BegunFrom(w, w1, j, child.sid.value, op, COUNTER) && RanFrom(w1, w2, j, COUNTER)
    ensures w2.handlers[j].Finished? && COUNTER.Fold(child.ops + [op]).Some?
    ensures COUNTER.features(w2.handlers[j].latent) == COUNTER.features(COUNTER.Fold(child.ops + [op]).value)
            <==> between == []
  {
    hide BegunFrom, RanFrom, Lookup, Rssm.Fold;
    AnswersRightIffCaughtUp(child, child.ops + between, op, j, w, w1, w2);
  }

  /** A session on an id that stands where this log leads to. */
  method Assigned(net: RssmSwarm, a: Address, id: Sid, log: seq<Op>) returns (s: StatefulSession)
    requires net.Valid() && net.Idle() && net.Now().At(id, a, net.rssm.Fold(log))
    ensures fresh(s) && s.net == net && s.Valid() && !s.stale && s.ops == log
    ensures s.address == Some(a) && s.sid == Some(id)
  {
    hide RssmSwarm.Valid, RssmSwarm.Idle, RssmSwarm.Now, RssmSwarm.State, Moment.At, Moment.Issued, Rssm.Fold;
    AtMeans(net.Now(), id, a, net.rssm.Fold(log));
    s := new StatefulSession(net, log, 8);
    s.address, s.peerId, s.sid, s.tried := Some(a), Some(0), Some(id), [0];
    net.Untouched();
  }

  /** A new session attached to a worker that has handled its log, an operation. */
  method Attached(net: RssmSwarm, a: Address, first: Op) returns (s: StatefulSession)
    requires net.Valid() && net.Idle() && a in net.workers && first.Observe?
    requires |net.workers[a].sessions| < net.workers[a].maxSessions
    modifies net, net.workers[a]
    ensures fresh(s) && s.net == net && s.Valid() && !s.stale && s.ops == [first] && s.address == Some(a)
    ensures s.sid.value !in old(net.live) && s.sid.value !in net.workers[a].dropped
    ensures net.workers[a].sessions.Keys == old(net.workers[a].sessions).Keys + {s.sid.value}
  {
    hide RssmSwarm.Valid, RssmSwarm.Idle, RssmSwarm.Now, Moment.Leads, Moment.At, Moment.Rests, Moment.Issued,
         Rssm.Apply;
    var id := net.HandOut(a);
    assert a in net.State();
    Served(net, a, id, first, None);
    FoldOne(net.rssm, first);
    s := Assigned(net, a, id, [first]);
  }

  lemma FoldOne(rssm: Rssm, op: Op)
    ensures rssm.Fold([op]) == rssm.Apply(None, op)
  {
    assert [op] == [] + [op];
    rssm.FoldNext([], op);
  }

  /** A worker handles one operation of a live session, and nothing comes between. */
  method Served(net: RssmSwarm, a: Address, sid: Sid, op: Op, ghost s: Option<Latent>)
    requires net.Valid() && net.Idle() && net.Now().At(sid, a, s) && a in net.workers && sid !in net.workers[a].dropped
    requires var w := net.workers[a]; sid in w.sessions || (op.Observe? && |w.sessions| < w.maxSessions)
    modifies net.workers[a]
    ensures net.Valid() && net.Idle() && net.Now().At(sid, a, net.rssm.Apply(s, op))
    ensures net.workers[a].sessions.Keys == old(net.workers[a].sessions).Keys + {sid} && sid !in net.workers[a].dropped
  {
    hide Ledger.Accounts, Rssm.Apply, BegunFrom, RanFrom, RssmState.SparesBut, RssmWorker.Valid, AllSpare;
    var _, _, _, _ := Undisturbed(net.workers[a], sid, op);
    net.Moved(a, sid, {});
  }

  /** A worker handles `op` for one session and then copies it to another id. */
  method ServeThenFork(w: RssmWorker, sid: Sid, op: Op, child: Sid)
    requires w.Valid() && sid in w.sessions
    modifies w
    ensures w.Valid() && child in w.sessions
    ensures Lookup(w.State(), child) == w.rssm.Apply(Lookup(old(w.State()), sid), op)
  {
    hide RssmState.SparesBut, RssmState.Consistent, BegunFrom, RanFrom, Rssm.Apply, Lookup;
    var _, _, _, _ := Undisturbed(w, sid, op);
    var _ := w.Fork(sid, child, 0);
  }

  /** What `fork` does when a call of its parent's comes between: the log is copied, the worker handles
      `op` for the parent, and only then copies the parent's state. */
  method ForkDuringCall(parent: StatefulSession, w: RssmWorker, op: Op) returns (child: StatefulSession)
    requires parent.Valid() && !parent.stale && parent.address.Some? && parent.address.value in parent.net.workers
    requires w == parent.net.workers[parent.address.value]
    requires parent.sid.value in w.sessions && parent.sid.value !in w.dropped
    modifies parent`ops, parent.net`live, parent.net`home, parent.net`issued, w
    ensures fresh(child) && child.net == parent.net && child.ops == old(parent.ops)
    ensures parent.ops == old(parent.ops) + [op] && child.address == parent.address && child.sid.Some?
    ensures w.Valid() && child.sid.value in w.sessions
    ensures Lookup(w.State(), child.sid.value) == w.rssm.Fold(child.ops + [op])
  {
    hide *;
    ParentStands(parent, w);
    w.rssm.FoldNext(parent.ops, op);
    child := new StatefulSession(parent.net, parent.ops, parent.maxFailures);
    child.exclude := parent.exclude;
    var id := parent.net.HandOut(parent.address.value);
    ServeThenFork(w, parent.sid.value, op, id);
    parent.ops := parent.ops + [op];
    child.address, child.peerId, child.sid := parent.address, parent.peerId, Some(id);
  }

  lemma ParentStands(parent: StatefulSession, w: RssmWorker)
    requires parent.Valid() && !parent.stale && parent.address.Some? && parent.address.value in parent.net.workers
    requires w == parent.net.workers[parent.address.value] && parent.sid.value !in w.dropped
    ensures parent.net.Valid() && w.Valid() && w.rssm == parent.net.rssm && parent.sid.Some?
    ensures Lookup(w.State(), parent.sid.value) == w.rssm.Fold(parent.ops)
  {
    hide Ledger.Accounts, RssmState.Consistent, Lookup, Rssm.Fold;
  }

  /** A forked child asks the next operation, of a worker that nothing disturbs. */
  method AskForked(child: StatefulSession, w: RssmWorker, ghost between: seq<Op>, op: Op) returns (features: Tensor)
    requires child.net.rssm == w.rssm == COUNTER && child.sid.Some? && w.Valid() && child.sid.value in w.sessions
    requires child.ops != [] && child.ops[0].Observe?
    requires Lookup(w.State(), child.sid.value) == COUNTER.Fold(child.ops + between)
    modifies w
    ensures COUNTER.Fold(child.ops + [op]).Some?
    ensures features == COUNTER.features(COUNTER.Fold(child.ops + [op]).value) <==> between == []
  {
    hide BegunFrom, RanFrom, Rssm.Fold, Lookup;
    ghost var w0 := w.State();
    ghost var j, w1, w2;
    features, j, w1, w2 := Undisturbed(w, child.sid.value, op);
    ForkedRightIffNothingBetween(child, between, op, j, w0, w1, w2);
  }

  /** A worker alone in its network, and a session attached to it. */
  method AttachedAlone(first: Op) returns (s: StatefulSession, w: RssmWorker)
    requires first.Observe?
    ensures fresh(s) && fresh(s.net) && fresh(w) && s.net.rssm == w.rssm == COUNTER && s.net.workers == map[0 := w]
    ensures s.Valid() && !s.stale && s.ops == [first] && s.address == Some(0)
    ensures s.sid.value in w.sessions && s.sid.value !in w.dropped
  {
    hide *;
    var net;
    net, w := Alone();
    s := Attached(net, 0, first);
  }

  /** A child that was forked while a call of its parent's was under way, and the wrong answer it gets. */
  method OverlappedForkAnswersWrongly(first: Op, op: Op, next: Op)
    returns (parent: StatefulSession, child: StatefulSession, features: Tensor)
    requires first.Observe?
    ensures fresh(parent) && fresh(child) && child.net == parent.net && child.net.rssm == COUNTER
    ensures child.ops == [first] && parent.ops == [first, op]
    ensures COUNTER.Fold([first, next]).Some? && features != COUNTER.features(COUNTER.Fold([first, next]).value)
  {
    hide *;
    var w;
    parent, w := AttachedAlone(first);
    child := ForkDuringCall(parent, w, op);
    features := AskForked(child, w, [op], next);
    assert [first] + [next] == [first, next];
  }
}
