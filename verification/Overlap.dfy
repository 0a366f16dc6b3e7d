/** dvlm/dreamer/client.py, `StatefulSession.call` as the coroutine it is: any number of sessions of one
    client have calls under way at once, and any of them may take its next part. Between two parts of a
    call anything may happen to the network, and any other call may attach, replay, fail or end. */
module Overlap {
  import opened Wrappers
  import opened Ids
  import opened RssmServer
  import opened RssmNetwork
  import opened OpLog

  /** A call of `op`, with its local state. */
  class Calling {
    const sess: StatefulSession
    const op: Op
    /** What was logged when the call began. */
    ghost const log: seq<Op>
    /** How much of the log the session's worker has had. */
    var replayed: nat
    var progress: Progress
    var result: Option<Result<Tensor, CallError>>
    /** Which lookup was the last this call made, if it made one. */
    ghost var lookup: nat

    /** What is under way: the replay of the log, or the operation itself. */
    function Next(): Op
      requires replayed <= |sess.ops|
      reads this, sess
    {
      if replayed < |sess.ops| then sess.ops[replayed] else op
    }

    /** The session's worker, if it has one, has had the operations replayed so far, and the next one as
        far as it has got. */
    ghost predicate Going(m: Moment)
      reads this, sess
    {
      && result.None? && !sess.stale && sess.ops == log && replayed <= |log| && sess.Placed(m)
      && (sess.address.Some? ==>
            m.Doing(sess.sid.value, sess.address.value, progress, sess.net.rssm.Fold(log[..replayed]), Next(),
                    sess.net.rssm))
    }

    /** What the call returned is what the log leads to with the operation, which is then in the log; what it
        raised has its reason. */
    ghost predicate Ended(m: Moment)
      reads this, sess
    {
      && result.Some? && sess.Resting(m)
      && match result.value
         case Ok(features) =>
           var to := sess.net.rssm.Fold(log + [op]);
           sess.ops == log + [op] && !sess.stale && to.Some? && features == sess.net.rssm.features(to.value)
         case Err(e) =>
           && sess.ops == log && (sess.stale <==> e.TooManyFailures? && sess.address.Some?)
           && (e.TooManyFailures? ==> sess.Spent())
           && (e.NoWorkers? ==> sess.address.None? && NobodyLeft(sess.net.journal.registry(lookup), sess.exclude))
           && (e.NeverAttached? ==> sess.peerId.None? && sess.net.journal.registry(lookup).None?)
    }

    ghost predicate Good(m: Moment)
      reads this, sess
    {
      Going(m) || Ended(m)
    }

    /** A call may begin on any session that has none under way, whatever the other sessions are doing. */
    constructor (sess: StatefulSession, op: Op)
      requires !sess.stale && sess.Resting(sess.net.Now())
      ensures this.sess == sess && this.op == op && log == sess.ops && result == None
      ensures Good(sess.net.Now())
    {
      this.sess, this.op, log := sess, op, sess.ops;
      replayed, progress, result, lookup := |sess.ops|, Unsent, None, 0;
      new;
      assert log[..replayed] == log;
    }

    /** What the client does with other ids, this call does not notice. */
    lemma GoodLater(m: Moment, later: Moment, mine: set<Sid>)
      requires m.Sound() && m.Leads(mine, later) && Good(m) && sess.Ids() !! mine
      ensures Good(later)
    {
      hide Ledger.Accounts, AllSpare, Moment.Doing, Rssm.Fold;
      if sess.address.Some? && !sess.stale {
        var (sid, a) := (sess.sid.value, sess.address.value);
        if result.None? {
          DoingLater(m, later, mine, sid, a, progress, sess.net.rssm.Fold(log[..replayed]), Next(), sess.net.rssm);
        } else {
          RestsLater(m, later, mine, sid, a, sess.net.rssm.Fold(sess.ops));
        }
      }
    }

    lemma IdsLive(m: Moment)
      requires Good(m)
      ensures sess.Ids() <= m.book.live
    {
      hide Moment.Issued, Rssm.Fold, Rssm.Start, Rssm.Apply, Ledger.Accounts;
    }

    lemma StillGoing(m: Moment)
      requires Good(m) && result.None?
      ensures Going(m)
    {
    }

    /** The session's id is no good any more, or there is none: another worker must be found, or the call
        raises. */
    method Failed()
      requires sess.net.Valid() && result.None? && !sess.stale && sess.ops == log && sess.Adrift(sess.net.Now())
      requires sess.peerId.None? ==> sess.net.journal.registry(lookup).None?
      modifies this`result, this`replayed, sess`failures, sess`exclude, sess`address, sess`stale
      ensures sess.net.Valid() && Good(sess.net.Now()) && sess.net.Now() == old(sess.net.Now()) && sess.Ids() == {}
      ensures sess.failures == old(sess.failures) + 1 && result != Some(Err(NoWorkers))
      ensures sess.address.Some? ==> sess.address == old(sess.address)
    {
      hide RssmSwarm.Valid, RssmSwarm.Idle, RssmSwarm.State, RssmSwarm.Now, Moment.Leads, Moment.At, Moment.Rests,
           Moment.Doing, Moment.Issued, Rssm.Fold;
      var raised := sess.Fail();
      replayed, result := 0, if raised.Some? then Some(Err(raised.value)) else None;
      sess.net.Untouched();
    }

    /** The call has made its lookup, and gone by it. */
    ghost predicate Looked(lookups: nat)
      reads this, sess, sess.net.journal`lookups
    {
      var last := sess.net.journal.Last();
      && sess.net.journal.lookups == lookups + 1 && lookup == lookups
      && (result == Some(Err(NoWorkers)) <==> NobodyLeft(last, sess.exclude))
      && (sess.address.Some? ==>
            sess.peerId.Some? && Recommended(last, sess.exclude, sess.address.value, sess.peerId.value))
    }

    /** The session looks for a worker. */
    method Attach()
      requires sess.net.Valid() && Going(sess.net.Now()) && sess.address.None?
      modifies this, sess, sess.net, sess.net.journal`lookups
      ensures sess.net.Valid() && Good(sess.net.Now())
      ensures Looked(old(sess.net.journal.lookups))
      ensures sess.failures - old(sess.failures) == sess.net.journal.Failures() - old(sess.net.journal.Failures())
      ensures old(sess.net.Now()).Leads({}, sess.net.Now()) && sess.Ids() !! old(sess.net.live)
    {
      hide RssmSwarm.Valid, RssmSwarm.Idle, RssmSwarm.State, RssmSwarm.Now, Moment.Leads, Moment.At, Moment.Rests,
           Moment.Doing, Moment.Issued, Rssm.Fold;
      LeadsReflexive(sess.net.Now(), {});
      lookup := sess.net.journal.lookups;
      var rows := sess.net.Servers();
      if rows.None? {
        Failed();
        return;
      }
      var best := sess.Best(rows.value);
      if best.None? {
        result := Some(Err(NoWorkers));
        return;
      }
      Start(best.value.address, best.value.peerId);
    }

    /** The session is given a new id at a worker, which has had nothing of its log yet. */
    method Start(a: Address, peer: PeerId)
      requires sess.net.Valid() && Going(sess.net.Now()) && sess.address.None? && peer !in sess.exclude
      modifies this`replayed, this`progress, sess`address, sess`peerId, sess`sid, sess`tried, sess.net
      ensures sess.net.Valid() && Going(sess.net.Now()) && sess.address == Some(a) && sess.peerId == Some(peer)
      ensures old(sess.net.Now()).Leads({}, sess.net.Now()) && sess.Ids() !! old(sess.net.live)
    {
      hide RssmSwarm.Valid, RssmSwarm.Idle, RssmSwarm.State, RssmSwarm.Now, Moment.Leads, Moment.At, Moment.Rests,
           Moment.Doing, Moment.Issued, Rssm.Fold, StatefulSession.Blames, NeverSeen;
      sess.Assign(a, peer);
      label Assigned:
      replayed, progress := 0, Unsent;
      sess.net.Untouched@Assigned();
      RestsIsDoing(sess.net.Now(), sess.sid.value, a, None, Next(), sess.net.rssm);
      FoldNothing();
    }

    lemma FoldNothing()
      ensures sess.net.rssm.Fold(log[..0]) == None
    {
    }

    /** What was under way has been answered: one more operation is replayed, or the call returns. */
    method Answered(features: Tensor)
      requires sess.net.Valid() && result.None? && !sess.stale && sess.ops == log && replayed <= |log|
      requires sess.Placed(sess.net.Now()) && sess.address.Some?
      requires var to := sess.net.rssm.Apply(sess.net.rssm.Fold(log[..replayed]), Next());
               && to.Some? && features == sess.net.rssm.features(to.value)
               && sess.net.Now().Rests(sess.sid.value, sess.address.value, to)
      modifies this`replayed, this`progress, this`result, sess`ops
      ensures sess.net.Valid() && Good(sess.net.Now()) && sess.net.Now() == old(sess.net.Now())
      ensures sess.Ids() == old(sess.Ids())
    {
      hide RssmSwarm.Valid, RssmSwarm.Idle, RssmSwarm.State, RssmSwarm.Now, Moment.Leads, Moment.At, Moment.Rests,
           Moment.Doing, Moment.Issued, Rssm.Fold, Rssm.Apply;
      var (a, sid, rssm) := (sess.address.value, sess.sid.value, sess.net.rssm);
      RestsIsDoing(sess.net.Now(), sid, a, rssm.Apply(rssm.Fold(log[..replayed]), Next()), op, rssm);
      if replayed < |sess.ops| {
        rssm.FoldNext(log[..replayed], log[replayed]);
        assert log[..replayed + 1] == log[..replayed] + [log[replayed]];
        replayed, progress := replayed + 1, Unsent;
        RestsIsDoing(sess.net.Now(), sid, a, rssm.Fold(log[..replayed]), Next(), rssm);
      } else {
        assert log[..replayed] == log;
        rssm.FoldNext(log, op);
        sess.ops := sess.ops + [op];
        result := Some(Ok(features));
      }
      sess.net.Untouched();
    }

    /** No answer comes, or the call does not wait for it: the session's id is given up. */
    method Lose()
      requires sess.net.Valid() && result.None? && !sess.stale && sess.ops == log && replayed <= |log|
      requires sess.Placed(sess.net.Now()) && sess.address.Some?
      modifies this`result, this`replayed, sess`failures, sess`exclude, sess`address, sess`stale, sess.net
      modifies sess.net.journal`failed
      ensures sess.net.Valid() && Good(sess.net.Now())
      ensures old(sess.net.Now()).Leads(old(sess.Ids()), sess.net.Now()) && sess.Ids() == {}
      ensures sess.failures == old(sess.failures) + 1 && result != Some(Err(NoWorkers))
      ensures sess.net.journal.failed == old(sess.net.journal.failed) + 1
    {
      hide RssmSwarm.Valid, RssmSwarm.Idle, RssmSwarm.State, RssmSwarm.Now, Moment.Leads, Moment.At, Moment.Rests,
           Moment.Doing, Moment.Issued, Rssm.Fold, Rssm.Apply;
      sess.net.GiveUp(Request(sess.address.value, sess.sid.value, Next()));
      sess.net.LiveNow();
      Failed();
    }

    /** What is under way takes its next part. */
    method Proceed()
      requires sess.net.Valid() && Going(sess.net.Now()) && sess.address.Some?
      modifies this`replayed, this`progress, this`result, sess, sess.net, sess.net.workers.Values
      modifies sess.net.journal`failed
      ensures sess.net.Valid() && Good(sess.net.Now()) && result != Some(Err(NoWorkers))
      ensures old(sess.net.Now()).Leads(old(sess.Ids()), sess.net.Now()) && sess.Ids() <= old(sess.Ids())
      ensures sess.failures - old(sess.failures) == sess.net.journal.failed - old(sess.net.journal.failed)
    {
      hide RssmSwarm.Valid, RssmSwarm.Idle, RssmSwarm.State, RssmSwarm.Now, Moment.Leads, Moment.At, Moment.Rests,
           Moment.Doing, Moment.Issued, Rssm.Fold, Rssm.Apply;
      ghost var m0, from := sess.net.Now(), sess.net.rssm.Fold(log[..replayed]);
      var (a, sid) := (sess.address.value, sess.sid.value);
      var tired: bool := *;
      LeadsReflexive(m0, {sid});
      match progress {
        case Unsent =>
          var begun := sess.net.PartBegin(a, sid, Next(), from);
          if begun.Some? {
            progress := begun.value;
          }
          tired := tired || begun.None?;
        case Begun(j) =>
          sess.net.PartRun(a, sid, Next(), j, from);
          progress := Ran(j);
        case Ran(j) =>
          var features := sess.net.PartCommit(a, sid, Next(), j, from);
          IssuedLater(m0, sess.net.Now(), {sid}, sid, a);
          if !tired {
            Answered(features);
            return;
          }
      }
      ghost var m1 := sess.net.Now();
      IssuedLater(m0, m1, {sid}, sid, a);
      if tired {
        Lose();
        LeadsTransitive(m0, m1, sess.net.Now(), {sid}, {sid});
      }
    }

    /** One part of the call, whichever comes next. */
    method Advance()
      requires sess.net.Valid() && Going(sess.net.Now())
      modifies this, sess, sess.net, sess.net.workers.Values, sess.net.journal`lookups, sess.net.journal`failed
      ensures sess.net.Valid() && Good(sess.net.Now())
      // a call that has no worker looks for one; whatever goes wrong is counted
      ensures if old(sess.address).None? then Looked(old(sess.net.journal.lookups))
              else sess.net.journal.lookups == old(sess.net.journal.lookups) && result != Some(Err(NoWorkers))
      ensures sess.failures - old(sess.failures) == sess.net.journal.Failures() - old(sess.net.journal.Failures())
      ensures old(sess.net.Now()).Leads(old(sess.Ids()), sess.net.Now())
      ensures sess.Ids() * old(sess.net.live) <= old(sess.Ids())
    {
      hide RssmSwarm.Valid, RssmSwarm.Idle, RssmSwarm.State, RssmSwarm.Now, Moment.Leads, Moment.At, Moment.Rests,
           Moment.Doing, Moment.Issued, Rssm.Fold, Rssm.Apply;
      if sess.address.None? {
        Attach();
      } else {
        Proceed();
      }
    }
  }

  /** The sessions the calls are on. */
  ghost function SessionsOf(calls: set<Calling>): set<StatefulSession> {
    set c | c in calls :: c.sess
  }

  /** The calls are on different sessions of one client, none of which uses another's id. */
  ghost predicate Apart(net: RssmSwarm, calls: set<Calling>)
    reads SessionsOf(calls)
  {
    && (forall c <- calls :: c.sess.net == net)
    && (forall c <- calls, d <- calls :: c != d ==> c.sess != d.sess && c.sess.Ids() !! d.sess.Ids())
  }

  ghost predicate AllGood(net: RssmSwarm, calls: set<Calling>)
    reads net, net.workers.Values, calls, SessionsOf(calls)
  {
    forall c <- calls :: c.Good(net.Now())
  }

  /** The calls other than `c` do not notice what was done with the ids in `mine`. */
  lemma OthersGood(calls: set<Calling>, c: Calling, m: Moment, later: Moment, mine: set<Sid>)
    requires m.Sound() && m.Leads(mine, later)
    requires forall d <- calls :: d != c ==> d.Good(m) && d.sess.Ids() !! mine
    ensures forall d <- calls :: d != c ==> d.Good(later) && d.sess.Ids() <= m.book.live
  {
    hide Moment.Sound, Moment.Leads, Calling.Good;
    forall d | d in calls && d != c
      ensures d.Good(later) && d.sess.Ids() <= m.book.live
    {
      d.GoodLater(m, later, mine);
      d.IdsLive(m);
    }
  }

  /** One call takes its next part. */
  method Turn(net: RssmSwarm, calls: set<Calling>, c: Calling)
    requires net.Valid() && Apart(net, calls) && AllGood(net, calls) && c in calls && c.result.None?
    modifies c, c.sess, net, net.workers.Values, net.journal`lookups, net.journal`failed
    ensures net.Valid() && Apart(net, calls) && AllGood(net, calls)
    ensures net.journal.lookups >= old(net.journal.lookups)
    ensures c.result == Some(Err(NoWorkers)) ==> old(net.journal.lookups) <= c.lookup < net.journal.lookups
  {
    hide RssmSwarm.Valid, RssmSwarm.Idle, RssmSwarm.State, RssmSwarm.Now, Moment.Leads, Calling.Good;
    ghost var m, mine := net.Now(), c.sess.Ids();
    net.SoundNow();
    net.LiveNow();
    c.StillGoing(m);
    c.Advance();
    OthersGood(calls, c, m, net.Now(), mine);
  }

  /** Any number of parts of any of the calls, in any order, with anything happening in between: every
      call that has ended returned what its own session's log leads to, and every other one is where its
      own parts have brought it. */
  method Together(net: RssmSwarm, calls: set<Calling>)
    requires net.Valid() && Apart(net, calls) && AllGood(net, calls)
    modifies calls, SessionsOf(calls), net, net.workers.Values, net.journal`lookups, net.journal`failed
    ensures net.Valid() && Apart(net, calls) && AllGood(net, calls)
    ensures forall c <- calls :: old(c.result).Some? ==> c.result == old(c.result)
    // who found nobody has looked meanwhile
    ensures forall c <- calls :: old(c.result).None? && c.result == Some(Err(NoWorkers)) ==>
              old(net.journal.lookups) <= c.lookup < net.journal.lookups
  {
    hide RssmSwarm.Valid, RssmSwarm.Idle, RssmSwarm.State, RssmSwarm.Now, Moment.Leads, Calling.Good, Apart;
    var n: nat := *;
    while n > 0
      invariant net.Valid() && Apart(net, calls) && AllGood(net, calls)
      invariant forall c <- calls :: old(c.result).Some? ==> c.result == old(c.result)
      invariant net.journal.lookups >= old(net.journal.lookups)
      invariant forall c <- calls :: old(c.result).None? && c.result == Some(Err(NoWorkers)) ==>
                  old(net.journal.lookups) <= c.lookup < net.journal.lookups
    {
      var passes: bool := *;
      if passes || calls == {} {
        Pass(net, calls);
      } else {
        var c :| c in calls;
        if c.result.None? {
          Turn(net, calls, c);
        }
      }
      n := n - 1;
    }
  }

  /** Time passes. */
  method Pass(net: RssmSwarm, calls: set<Calling>)
    requires net.Valid() && Apart(net, calls) && AllGood(net, calls)
    modifies net, net.workers.Values
    ensures net.Valid() && Apart(net, calls) && AllGood(net, calls)
  {
    hide RssmSwarm.Valid, RssmSwarm.Idle, RssmSwarm.State, RssmSwarm.Now, Moment.Leads, Calling.Good;
    ghost var m := net.Now();
    net.SoundNow();
    net.Drift();
    forall d | d in calls
      ensures d.Good(net.Now())
    {
      d.GoodLater(m, net.Now(), {});
    }
  }
}
