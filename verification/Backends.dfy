/** dvlm/dreamer/client.py: the two backends an agent can run on. `LocalBackend` keeps every state in
    its own process; `SwarmBackend` keeps them on workers. */
module Backends {
  import opened Wrappers
  import opened Ids
  import opened RssmServer
  import opened RssmNetwork
  import opened EncoderPool
  import opened OpLog
  import opened Journals

  type Frame = seq<real>

  /** The encoder works on each observation of a batch by itself. */
  function EncodeAll(encode: Frame -> seq<real>, obs: seq<Frame>): Tensor {
    seq(|obs|, i requires 0 <= i < |obs| => encode(obs[i]))
  }

  lemma EncodeAppend(encode: Frame -> seq<real>, a: seq<Frame>, b: seq<Frame>)
    ensures EncodeAll(encode, a) + EncodeAll(encode, b) == EncodeAll(encode, a + b)
  {
  }

  class LocalBackend {
    const rssm: Rssm
    const encode: Frame -> seq<real>
    var states: map<nat, Latent>
    var next: nat
    /** What was asked of each session since it was opened. */
    ghost var logs: map<nat, seq<Op>>

    ghost predicate Valid()
      reads this
    {
      && states.Keys <= logs.Keys && (forall i :: i in logs ==> i < next)
      && (forall i :: i in logs ==> rssm.Fold(logs[i]) == if i in states then Some(states[i]) else None)
    }

    constructor (rssm: Rssm, encode: Frame -> seq<real>)
      ensures Valid() && this.rssm == rssm && this.encode == encode && logs == map[]
    {
      this.rssm, this.encode := rssm, encode;
      states, next, logs := map[], 0, map[];
    }

    method NewSession() returns (id: nat)
      requires Valid()
      modifies this
      ensures Valid() && id !in old(logs) && logs == old(logs)[id := []]
    {
      id := next;
      next, logs := next + 1, logs[id := []];
    }

    /** `observe` and `imagine`. None is the KeyError of an unknown session. */
    method Do(id: nat, op: Op) returns (r: Option<Tensor>)
      requires Valid() && id in logs
      modifies this
      ensures Valid() && r.Some? == (op.Observe? || rssm.Fold(old(logs)[id]).Some?)
      ensures logs == if r.Some? then old(logs)[id := old(logs)[id] + [op]] else old(logs)
      ensures r.Some? ==> rssm.Fold(logs[id]).Some? && r.value == rssm.features(rssm.Fold(logs[id]).value)
    {
      hide Rssm.Fold;
      rssm.FoldNext(logs[id], op);
      if id !in states {
        if op.Imagine? {
          return None;
        }
        states := states[id := rssm.initial(|op.embed|)];
      }
      states := states[id := rssm.Step(states[id], op)];
      logs := logs[id := logs[id] + [op]];
      return Some(rssm.features(states[id]));
    }

    /** None is the KeyError of a session nothing was observed in. */
    method Fork(id: nat) returns (child: Option<nat>)
      requires Valid() && id in logs
      modifies this
      ensures Valid() && child.Some? == rssm.Fold(old(logs)[id]).Some?
      ensures child.Some? ==> child.value !in old(logs) && logs == old(logs)[child.value := old(logs)[id]]
      ensures child.None? ==> logs == old(logs)
    {
      if id !in states {
        return None;
      }
      child := Some(next);
      states, logs := states[next := states[id]], logs[next := logs[id]];
      next := next + 1;
    }

    method Close(id: nat)
      requires Valid()
      modifies this
      ensures Valid() && logs == old(logs) - {id}
    {
      states, logs := states - {id}, logs - {id};
    }
  }

  /* ---------- Encoding a batch on several encoders ---------- */

  /** Where part i of n parts begins: the first `total % n` parts have one more than the rest. */
  function PartStart(total: nat, n: nat, i: nat): nat
    requires 0 < n
  {
    i * (total / n) + if i < total % n then i else total % n
  }

  lemma PartsGrow(total: nat, n: nat, i: nat)
    requires i < n <= total
    ensures PartStart(total, n, i) < PartStart(total, n, i + 1) <= total
    ensures PartStart(total, n, i + 1) - PartStart(total, n, i) == total / n + if i < total % n then 1 else 0
    ensures PartStart(total, n, n) == total && PartStart(total, n, 0) == 0
  {
    var q, rest := total / n, total % n;
    assert total == n * q + rest;
    Spread(q, i, n);
  }

  lemma Spread(q: nat, i: nat, n: nat)
    requires i < n
    ensures (i + 1) * q == i * q + q <= n * q
  {
  }

  class SwarmBackend {
    const net: RssmSwarm
    const encode: Frame -> seq<real>
    /** The sessions that are open. */
    ghost var sessions: set<StatefulSession>
    /** How many of its operations have raised. */
    ghost var raised: nat

    /** Every session's worker, if it has one, holds what the session's own log says, and no two
        sessions use the same id. */
    ghost predicate Valid()
      reads `sessions, net, net.workers.Values, sessions
    {
      && net.Valid() && net.Idle()
      && (forall s <- sessions :: s.net == net && s.Synced(net.Now()))
      && (forall s <- sessions, t <- sessions :: s != t ==> s.Ids() !! t.Ids())
    }

    constructor (net: RssmSwarm, encode: Frame -> seq<real>)
      requires net.Valid() && net.Idle()
      ensures Valid() && sessions == {} && raised == 0 && this.net == net && this.encode == encode
    {
      this.net, this.encode, sessions, raised := net, encode, {}, 0;
    }

    /** Why a batch could not be encoded: the registry, the encoders or the batch were missing, or part i of
        it had every encoder fail. */
    ghost predicate Unencoded(obs: seq<Frame>)
      reads net.journal
    {
      var last := net.journal.Last();
      || last.None? || last.value == [] || obs == []
      || exists i :: 0 <= i < |obs| && GaveUp(net.journal.asked, FastestFirst(last.value), i)
    }

    ghost predicate Encoded(obs: seq<Frame>, before: nat)
      requires net.journal.Last().Some?
      reads net.journal
    {
      var encoders := |net.journal.Last().value|;
      net.journal.Encoded() == before + if encoders < |obs| then encoders else |obs|
    }

    /** `encode`: splits the batch over the encoders, each part falling through to other encoders. */
    method Encode(obs: seq<Frame>) returns (r: Option<Tensor>)
      modifies `raised, net.journal`lookups, net.journal`asked
      ensures r.Some? ==> |r.value| == |obs| > 0 && forall i :: 0 <= i < |obs| ==> r.value[i] == encode(obs[i])
      // every encoder listed encodes a part, unless there are more of them than observations
      ensures r.Some? ==> net.journal.Last().Some? && Encoded(obs, old(net.journal.Encoded()))
      ensures r.None? ==> Unencoded(obs)
      ensures raised == if r.Some? then old(raised) else old(raised) + 1
      ensures net.journal.lookups == old(net.journal.lookups) + 1
    {
      r := Distribute(obs);
      raised := if r.Some? then raised else raised + 1;
    }

    method Distribute(obs: seq<Frame>) returns (r: Option<Tensor>)
      modifies net.journal`lookups, net.journal`asked
      ensures r.Some? ==> r.value == EncodeAll(encode, obs) && obs != []
      ensures r.Some? ==> net.journal.Last().Some? && Encoded(obs, old(net.journal.Encoded()))
      ensures r.None? ==> Unencoded(obs)
      ensures net.journal.lookups == old(net.journal.lookups) + 1
    {
      hide Rotated, GaveUp, Journal.Encoded;
      var rows := net.Servers();
      if rows.None? || rows.value == [] || obs == [] {
        return None;
      }
      var encoders := FastestFirst(rows.value);
      var n := if |encoders| < |obs| then |encoders| else |obs|;
      var out, i := [], 0;
      PartsGrow(|obs|, n, 0);
      while i < n
        invariant i <= n && PartStart(|obs|, n, i) <= |obs| && net.journal.lookups == old(net.journal.lookups) + 1
        invariant out == EncodeAll(encode, obs[..PartStart(|obs|, n, i)])
        invariant net.journal.Encoded() == old(net.journal.Encoded()) + i
      {
        PartsGrow(|obs|, n, i);
        var from, to := PartStart(|obs|, n, i), PartStart(|obs|, n, i + 1);
        var f := encode;
        var part := EncodeOnPool(net.journal, encoders, obs[from..to], chunk => EncodeAll(f, chunk), i);
        if part.None? {
          return None;
        }
        EncodeAppend(encode, obs[..from], obs[from..to]);
        assert obs[..from] + obs[from..to] == obs[..to];
        out := out + part.value;
        i := i + 1;
      }
      assert obs[..|obs|] == obs;
      return Some(out);
    }

    /** The sessions not in use do not notice what was done with `mine`. */
    lemma OthersLater(m: Moment, later: Moment, mine: set<Sid>, acting: set<StatefulSession>)
      requires m.Sound() && m.Leads(mine, later)
      requires forall s <- sessions :: s !in acting ==> s.net == net && s.Synced(m) && s.Ids() !! mine
      ensures forall s <- sessions :: s !in acting ==> s.Synced(later)
    {
      forall s <- sessions | s !in acting
        ensures s.Synced(later)
      {
        s.SyncedLater(m, later, mine);
      }
    }

    method NewSession() returns (sess: StatefulSession)
      requires Valid()
      modifies `sessions
      ensures Valid() && fresh(sess) && sessions == old(sessions) + {sess} && sess.ops == [] && !sess.stale
              && sess.maxFailures == 8
    {
      hide RssmSwarm.Valid, RssmSwarm.Idle, RssmSwarm.Now, Moment.At;
      sess := new StatefulSession(net, [], 8);
      sessions := sessions + {sess};
    }

    /** `observe` and `imagine`: the result is the one the session's own log leads to, whatever happens
        to workers and to the other sessions; and no other session is touched. */
    method Do(sess: StatefulSession, op: Op) returns (r: Result<Tensor, CallError>)
      requires Valid() && sess in sessions && !sess.stale
      modifies `raised, sess, net, net.workers.Values, net.journal`lookups, net.journal`failed
      ensures raised == if r.Ok? then old(raised) else old(raised) + 1
      ensures r.Err? ==>
                match r.error
                case NoWorkers => NobodyLeft(net.journal.Last(), sess.exclude)
                case TooManyFailures => sess.Spent()
                case NeverAttached => sess.peerId.None? && net.journal.Last().None?
      ensures Valid() && (sess.stale <==> r == Err(TooManyFailures) && sess.address.Some?)
      ensures sess.ops == if r.Ok? then old(sess.ops) + [op] else old(sess.ops)
      ensures r.Ok? ==> net.rssm.Fold(sess.ops).Some? && r.value == net.rssm.features(net.rssm.Fold(sess.ops).value)
    {
      hide RssmSwarm.Valid, RssmSwarm.Idle, RssmSwarm.Now, Moment.Leads, Rssm.Fold, StatefulSession.Synced,
           StatefulSession.Standing, NobodyLeft, Recommended, StatefulSession.Ids, RssmSwarm.State;
      ghost var m0, ids := net.Now(), sess.Ids();
      net.SoundNow();
      net.LiveNow();
      IdsAreLive();
      r := sess.Call(op);
      StillApart(m0, sess, ids);
      raised := if r.Ok? then raised else raised + 1;
    }

    /** One session acted, with its own ids and new ones only. */
    lemma StillApart(m: Moment, sess: StatefulSession, ids: set<Sid>)
      requires m.Sound() && m.Leads(ids, net.Now()) && sess in sessions && sess.Ids() * m.book.live <= ids
      requires net.Valid() && net.Idle() && sess.net == net && sess.Synced(net.Now())
      requires forall s <- sessions ::
                 s != sess ==> s.net == net && s.Synced(m) && s.Ids() !! ids && s.Ids() <= m.book.live
      requires forall s <- sessions, t <- sessions :: s != t && s != sess && t != sess ==> s.Ids() !! t.Ids()
      ensures Valid()
    {
      hide RssmSwarm.Valid, RssmSwarm.Idle, RssmSwarm.Now, Moment.Leads, StatefulSession.Synced, StatefulSession.Ids,
           Moment.Sound;
      OthersLater(m, net.Now(), ids, {sess});
    }

    /** An id a session may use is one the client has not given up. */
    lemma IdsAreLive()
      requires forall s <- sessions :: s.Synced(net.Now())
      ensures forall s <- sessions :: s.Ids() <= net.live
    {
    }

    /** `fork`: the child's log is its parent's, and from now on they go separate ways. */
    method Fork(sess: StatefulSession) returns (child: StatefulSession)
      requires Valid() && sess in sessions && !sess.stale
      modifies `sessions, net, net.workers.Values, net.journal`forked
      ensures Valid() && fresh(child) && sessions == old(sessions) + {child} && child.ops == sess.ops && !child.stale
    {
      hide RssmSwarm.Valid, RssmSwarm.Idle, RssmSwarm.Now, Moment.Leads, Rssm.Fold, StatefulSession.Synced;
      ghost var m0 := net.Now();
      net.SoundNow();
      net.LiveNow();
      IdsAreLive();
      child := sess.Fork();
      OthersLater(m0, net.Now(), {}, {});
      sessions := sessions + {child};
    }

    method Close(sess: StatefulSession)
      requires Valid() && sess in sessions
      modifies `sessions, net, net.workers.Values, net.journal`closed
      ensures Valid() && sessions == old(sessions) - {sess}
      ensures net.journal.closed ==
                old(net.journal.closed) + if sess.address.Some? then [(sess.address.value, sess.sid.value)] else []
    {
      hide RssmSwarm.Valid, RssmSwarm.Idle, RssmSwarm.Now, Moment.Leads, Rssm.Fold, StatefulSession.Synced;
      ghost var m0 := net.Now();
      net.SoundNow();
      var _ := sess.Close();
      OthersLater(m0, net.Now(), sess.Ids(), {sess});
      sessions := sessions - {sess};
    }
  }
}
