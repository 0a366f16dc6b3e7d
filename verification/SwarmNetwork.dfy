/** The network one client session lives in: the span workers, the calls its failures left behind,
    and everybody else's traffic. Every choice the environment has is nondeterministic, so what is
    proved here holds for every failure schedule.

    One hypothesis is built in, in `Reach`: a session that a worker has dropped (by timeout, or by
    restarting) is never answered again. */
module SwarmNetwork {
  import opened Wrappers
  import opened Ids
  import opened Decoder
  import opened SpanServer
  import opened Routing
  import opened Journals

  /** A message under way that its sender has given up on, or that is another client's. */
  datatype Message =
    | Request(address: Address, key: Key, x: Tokens, end: nat)
    | Closing(address: Address, sid: Sid)
  {
    function Sender(): Sid {
      match this
      case Request(_, key, _, _) => key.sid
      case Closing(_, sid) => sid
    }
  }

  datatype CallError = Unreachable | Rejected(cause: ServerError)

  type States = map<Address, WorkerState>

  /** No worker touched anything of the ids in `live`, except by dropping sessions. */
  ghost predicate AllSpare(live: set<Sid>, before: States, after: States) {
    before.Keys == after.Keys && forall a :: a in before ==> before[a].Spares(live, after[a])
  }

  ghost predicate Quiet(live: set<Sid>, s: States) {
    forall a, j :: a in s && j in s[a].handlers ==> s[a].handlers[j].key.sid !in live
  }

  /** No worker holds a session of this id. */
  ghost predicate Gone(s: States, sid: Sid) {
    forall a, k :: a in s && k in s[a].sessions ==> k.sid != sid
  }

  lemma GoneWhenSpared(live: set<Sid>, s0: States, s1: States, sid: Sid)
    requires Gone(s0, sid) && AllSpare(live, s0, s1) && sid in live
    ensures Gone(s1, sid)
  {
  }

  lemma QuietWhenSpared(live: set<Sid>, less: set<Sid>, s0: States, s1: States)
    requires Quiet(live, s0) && less <= live && AllSpare(less, s0, s1)
    ensures Quiet(less, s1)
  {
  }

  lemma SparedAt(live: set<Sid>, before: States, after: States, a: Address)
    requires AllSpare(live, before, after) && a in before
    ensures a in after && before[a].Spares(live, after[a])
  {
  }

  lemma AllSpareReflexive(live: set<Sid>, s: States)
    ensures AllSpare(live, s, s)
  {
  }

  lemma AllSpareWeaken(live: set<Sid>, less: set<Sid>, s0: States, s1: States)
    requires AllSpare(live, s0, s1) && less <= live
    ensures AllSpare(less, s0, s1)
  {
  }

  lemma AllSpareTransitive(live: set<Sid>, s0: States, s1: States, s2: States)
    requires AllSpare(live, s0, s1) && AllSpare(live, s1, s2)
    ensures AllSpare(live, s0, s2)
  {
    forall a | a in s0
      ensures s0[a].Spares(live, s2[a])
    {
      SparesTransitive(s0[a], s1[a], s2[a], live);
    }
  }

  /** Who may use which id: the client's ids, numbered, each belong to the one worker they were
      handed out for. */
  datatype Ledger = Ledger(client: nat, home: map<nat, Address>, live: set<Sid>, pending: seq<Message>) {
    ghost predicate Homed(sid: Sid, a: Address) {
      sid.session == client ==> sid.generation in home && home[sid.generation] == a
    }

    /** Everything that concerns an id of the client is at that id's worker, and nothing under way
        concerns a live one. */
    ghost predicate Accounts(s: States) {
      && (forall a, k :: a in s && k in s[a].sessions ==> Homed(k.sid, a))
      && (forall a, j :: a in s && j in s[a].handlers ==> Homed(s[a].handlers[j].key.sid, a))
      && (forall sid :: sid in live ==> sid.session == client && sid.generation in home)
      && (forall m <- pending :: m.Sender() !in live && Homed(m.Sender(), m.address))
    }

    lemma AccountsSent(s: States, m: Message)
      requires Accounts(s) && m.Sender() !in live && Homed(m.Sender(), m.address)
      ensures this.(pending := pending + [m]).Accounts(s)
    {
    }

    lemma AccountsForgotten(s: States, i: nat)
      requires Accounts(s) && i < |pending|
      ensures this.(pending := pending[..i] + pending[i + 1..]).Accounts(s)
    {
    }

    lemma AccountsGivenUp(s: States, sid: Sid)
      requires Accounts(s)
      ensures this.(live := live - {sid}).Accounts(s)
    {
    }

    lemma AccountsHandedOut(s: States, n: nat, a: Address)
      requires Accounts(s) && n !in home
      ensures this.(home := home[n := a], live := live + {Sid(client, n)}).Accounts(s)
      ensures Gone(s, Sid(client, n)) && Sid(client, n) !in live
      ensures Quiet(live, s) ==> Quiet(live + {Sid(client, n)}, s)
    {
    }
  }

  class Swarm {
    const model: Model
    const workers: map<Address, SpanWorker>
    /** The client session this run is about; ids of any other session belong to other clients. */
    const client: nat
    /** What the client asked, and the registry's answers. */
    const journal: Journal
    var pending: seq<Message>
    /** The client's ids that were handed out and had no call fail and no close. */
    var live: set<Sid>
    /** How many forwards the client has issued. */
    var forwards: nat
    /** The ids the client has handed out, by number, with the one worker each is for. */
    ghost var home: map<nat, Address>
    /** The workers and their caches. */
    ghost var Repr: set<object>

    ghost predicate Mine(sid: Sid) {
      sid.session == client
    }

    /** `a` is the worker the id was handed out for, if the client handed it out. */
    ghost predicate Homed(sid: Sid, a: Address)
      reads `home
    {
      Mine(sid) ==> sid.generation in home && home[sid.generation] == a
    }

    ghost predicate WorkersValid()
      reads `Repr, Repr
    {
      && (forall a :: a in workers ==> workers[a] in Repr && workers[a].caches <= Repr)
      && (forall a :: a in workers ==> workers[a].Valid() && workers[a].span.model == model)
      && (forall a, b :: a in workers && b in workers && a != b ==>
            workers[a] != workers[b] && workers[a].caches !! workers[b].caches)
    }

    ghost function State(): (s: States)
      requires WorkersValid()
      reads `Repr, Repr
      ensures s.Keys == workers.Keys && forall a :: a in workers ==> s[a] == workers[a].State()
    {
      map a | a in workers :: workers[a].State()
    }

    ghost function Book(): Ledger
      reads `pending, `live, `home
    {
      Ledger(client, home, live, pending)
    }

    ghost predicate IdsValid()
      requires WorkersValid()
      reads `pending, `live, `home, `Repr, Repr
    {
      Book().Accounts(State())
    }

    ghost predicate Valid()
      reads `pending, `live, `home, `Repr, Repr
    {
      this !in Repr && journal !in Repr && WorkersValid() && IdsValid()
    }

    ghost function Spans(): (spans: map<Address, DecoderSpan>)
      ensures spans.Keys == workers.Keys && forall a :: a in workers ==> spans[a] == workers[a].span
    {
      map a | a in workers :: workers[a].span
    }

    /** Every worker's sessions have caches of their own. */
    lemma AllOwned()
      requires Valid()
      ensures forall a :: a in workers ==> Owned(State()[a]) && Spans()[a].model == model
    {
      hide IdsValid;
      forall a | a in workers
        ensures Owned(State()[a])
      {
        assert workers[a].TableOwned();
      }
    }

    /** No handler is at work for a live id. */
    ghost predicate Idle()
      requires WorkersValid()
      reads `live, `Repr, Repr
    {
      Quiet(live, State())
    }

    constructor (model: Model, workers: map<Address, SpanWorker>, client: nat, journal: Journal)
      requires forall a :: a in workers ==> workers[a].Valid() && workers[a].span.model == model
      requires forall a :: a in workers ==>
                workers[a].sessions == map[] && workers[a].handlers == map[] && workers[a].caches == {}
      requires forall a, b :: a in workers && b in workers && a != b ==> workers[a] != workers[b]
      ensures this.model == model && this.workers == workers && this.client == client && this.journal == journal
      ensures Valid() && Idle() && Repr == set a | a in workers :: workers[a]
      ensures home == map[] && live == {} && pending == [] && forwards == 0
    {
      this.model, this.workers, this.client, this.journal := model, workers, client, journal;
      pending, live, forwards, home := [], {}, 0, map[];
      Repr := set a | a in workers :: workers[a];
    }

    /** Only worker `a` and its caches moved, and only for `sid`. */
    twostate predicate OnlyMoved(a: Address, sid: Sid)
      requires a in workers
      reads this, Repr, workers.Values, set b, c | b in workers && c in workers[b].caches :: c
    {
      && workers[a].Others(sid)
      && (forall b :: b in workers && b != a ==>
            unchanged(workers[b]) && forall c: KVCache :: c in workers[b].caches ==> c.layers == old(c.layers))
      && live == old(live) && home == old(home) && pending == old(pending)
      && Repr == old(Repr) + workers[a].caches
    }

    twostate lemma MovedWorkersValid(new a: Address, new sid: Sid)
      requires a in workers && old(Valid()) && workers[a].Valid() && OnlyMoved(a, sid)
      ensures WorkersValid()
    {
      hide IdsValid;
    }

    twostate lemma MovedIdsValid(new a: Address, new sid: Sid)
      requires a in workers && old(Valid()) && WorkersValid() && OnlyMoved(a, sid) && Homed(sid, a)
      ensures IdsValid()
    {
      hide WorkersValid, SpanWorker.Valid, SpanWorker.CachesKept, State;
    }

    /** One worker moved, for a single id: the swarm is valid again, and spares every other id. */
    twostate lemma WorkerMoved(new a: Address, new sid: Sid, new spared: set<Sid>)
      requires a in workers && old(Valid()) && workers[a].Valid() && OnlyMoved(a, sid)
      requires Homed(sid, a) && sid !in spared
      ensures Valid() && AllSpare(spared, old(State()), State())
    {
      hide IdsValid, SpanWorker.Valid, SpanWorker.CachesKept, Table.KeptBut, HandlersKept;
      MovedWorkersValid(a, sid);
      MovedIdsValid(a, sid);
      workers[a].OthersAreSpared(sid, spared);
    }

    /** Other objects may change. */
    twostate lemma Untouched()
      requires old(Valid()) && unchanged(this) && forall o: object :: o in old(Repr) ==> unchanged(o)
      ensures Valid() && State() == old(State()) && Idle() == old(Idle())
    {
    }

    lemma HandlerHomed(a: Address, j: nat)
      requires Valid() && a in workers && j in workers[a].handlers
      ensures Homed(workers[a].handlers[j].key.sid, a) && workers[a].handlers[j].cache in workers[a].caches
    {
    }

    /** Ids of other clients are never live. */
    lemma StrangersAreNotLive(sid: Sid)
      requires Valid() && !Mine(sid)
      ensures sid !in live
    {
    }

    /* ---------- One worker moves, for one id ---------- */

    method MoveBegin(a: Address, key: Key, x: Tokens, end: nat) returns (r: Result<nat, ServerError>)
      requires WorkersValid() && a in workers
      modifies this`Repr, workers[a], workers[a].caches
      ensures workers[a].Valid() && OnlyMoved(a, key.sid) && old(Repr) <= Repr && fresh(Repr - old(Repr))
      ensures r.Ok? ==> x.Aligned() && BegunFrom(old(workers[a].State()), workers[a].State(), r.value, key, x, end,
                                                 workers[a].span.Size())
      ensures r.Err? ==> !r.error.LayersFailed? && (r.error == RangeMismatch ==>
                key in old(workers[a].sessions) &&
                (old(workers[a].sessions)[key].start, old(workers[a].sessions)[key].end) != (key.start, end))
    {
      hide SpanWorker.State, Table.KeptBut, HandlersKept, BegunFrom, RowsOwned, HandlersOwned, SpanWorker.Kept;
      var now: int := *;
      r := workers[a].Begin(key, x, end, now);
      Repr := Repr + workers[a].caches;
    }

    /** A forward begins, for an id that is not spared. */
    method Begins(a: Address, key: Key, x: Tokens, end: nat, ghost spared: set<Sid>)
      returns (r: Result<nat, ServerError>)
      requires Valid() && a in workers && Homed(key.sid, a) && key.sid !in spared
      modifies `Repr, Repr
      ensures Valid() && old(Repr) <= Repr && fresh(Repr - old(Repr)) && AllSpare(spared, old(State()), State())
      ensures r.Ok? ==>
                && x.Aligned()
                && BegunFrom(old(State())[a], State()[a], r.value, key, x, end, workers[a].span.Size())
      ensures r.Err? ==> !r.error.LayersFailed? && (r.error == RangeMismatch ==>
                key in old(workers[a].sessions) &&
                (old(workers[a].sessions)[key].start, old(workers[a].sessions)[key].end) != (key.start, end))
    {
      hide SpanWorker.Valid, IdsValid, AllSpare, State, SpanWorker.State, OnlyMoved, BegunFrom;
      r := MoveBegin(a, key, x, end);
      WorkerMoved(a, key.sid, spared);
    }

    method MoveRun(a: Address, j: nat) returns (r: Result<(), ServerError>)
      requires WorkersValid() && a in workers && j in workers[a].handlers && workers[a].handlers[j].Waiting?
      modifies workers[a], workers[a].caches
      ensures workers[a].Valid() && OnlyMoved(a, old(workers[a].handlers)[j].key.sid)
      ensures if r.Ok? then RanFrom(old(workers[a].State()), workers[a].State(), j, workers[a].span)
              else r.error.LayersFailed?
    {
      hide SpanWorker.State, Table.KeptBut, HandlersKept, RanFrom, RowsOwned, HandlersOwned, DecoderSpan.Run;
      CacheOfHandler(a, j);
      var budget: nat := *;
      r := workers[a].Run(j, budget);
    }

    lemma CacheOfHandler(a: Address, j: nat)
      requires WorkersValid() && a in workers && j in workers[a].handlers
      ensures workers[a].handlers[j].cache in workers[a].caches
    {
    }

    /** A handler runs, for an id that is not spared. */
    method Runs(a: Address, j: nat, ghost spared: set<Sid>) returns (r: Result<(), ServerError>)
      requires Valid() && a in workers && j in workers[a].handlers && workers[a].handlers[j].Waiting?
      requires workers[a].handlers[j].key.sid !in spared
      modifies Repr
      ensures Valid() && AllSpare(spared, old(State()), State())
      ensures if r.Ok? then RanFrom(old(State())[a], State()[a], j, workers[a].span) else r.error.LayersFailed?
    {
      HandlerHomed(a, j);
      hide SpanWorker.Valid, IdsValid, AllSpare, State, SpanWorker.State, OnlyMoved, RanFrom;
      r := MoveRun(a, j);
      WorkerMoved(a, old(workers[a].handlers)[j].key.sid, spared);
    }

    method MoveCommit(a: Address, j: nat) returns (out: seq<Hidden>)
      requires WorkersValid() && a in workers && j in workers[a].handlers && workers[a].handlers[j].Finished?
      modifies workers[a]
      ensures workers[a].Valid() && OnlyMoved(a, old(workers[a].handlers)[j].key.sid)
      ensures out == old(workers[a].handlers)[j].out && CommittedFrom(old(workers[a].State()), workers[a].State(), j)
    {
      hide SpanWorker.State, Table.KeptBut, HandlersKept, CommittedFrom, RowsOwned, HandlersOwned;
      out := workers[a].Commit(j);
    }

    /** A handler commits, for an id that is not spared. */
    method Commits(a: Address, j: nat, ghost spared: set<Sid>) returns (out: seq<Hidden>)
      requires Valid() && a in workers && j in workers[a].handlers && workers[a].handlers[j].Finished?
      requires workers[a].handlers[j].key.sid !in spared
      modifies Repr
      ensures Valid() && AllSpare(spared, old(State()), State())
      ensures out == old(workers[a].handlers)[j].out && CommittedFrom(old(State())[a], State()[a], j)
    {
      HandlerHomed(a, j);
      hide SpanWorker.Valid, IdsValid, AllSpare, State, SpanWorker.State, OnlyMoved, CommittedFrom;
      out := MoveCommit(a, j);
      WorkerMoved(a, old(workers[a].handlers)[j].key.sid, spared);
    }

    method MoveClose(a: Address, sid: Sid)
      requires WorkersValid() && a in workers
      modifies workers[a]
      ensures workers[a].Valid() && OnlyMoved(a, sid) && workers[a].handlers == old(workers[a].handlers)
      ensures forall k :: k in workers[a].sessions <==> k in old(workers[a].sessions) && k.sid != sid
    {
      hide Table.KeptBut, HandlersKept, RowsOwned, HandlersOwned;
      workers[a].Close(sid);
    }

    method Closes(a: Address, sid: Sid, ghost spared: set<Sid>)
      requires Valid() && a in workers && Homed(sid, a) && sid !in spared
      modifies workers[a]
      ensures Valid() && AllSpare(spared, old(State()), State()) && workers[a].handlers == old(workers[a].handlers)
      ensures forall k :: k in workers[a].sessions <==> k in old(workers[a].sessions) && k.sid != sid
    {
      hide SpanWorker.Valid, IdsValid, AllSpare, State, SpanWorker.State, OnlyMoved;
      MoveClose(a, sid);
      WorkerMoved(a, sid, spared);
    }

    /* ---------- What the environment may do at any time ---------- */

    /** Any part of any handler that is not the client's live call, any delivery or loss of a
        message somebody gave up on, any new traffic of other clients, any loss of state. */
    method Meddle()
      requires Valid()
      modifies this, Repr
      ensures Valid() && old(Repr) <= Repr && fresh(Repr - old(Repr))
      ensures live == old(live) && home == old(home) && forwards == old(forwards)
      ensures AllSpare(live, old(State()), State())
    {
      hide IdsValid, AllSpare, State, SpanWorker.Valid;
      AllSpareReflexive(live, State());
      if * {
        ForeignTraffic();
      } else if * {
        if pending != [] {
          var i: nat := *;
          Deliver(i % |pending|);
        }
      } else {
        var a: Address, j: nat, now: int := *, *, *;
        if a in workers {
          Disturb(a, j, now);
        }
      }
    }

    /** A worker loses sessions, or goes on with a handler nobody is waiting for. */
    method Disturb(a: Address, j: nat, now: int)
      requires Valid() && a in workers
      modifies Repr
      ensures Valid() && AllSpare(live, old(State()), State())
    {
      hide IdsValid, AllSpare, State, SpanWorker.Valid;
      AllSpareReflexive(live, State());
      if * {
        TimeOut(a, now);
      } else if * {
        Restart(a);
      } else if j in workers[a].handlers && workers[a].handlers[j].key.sid !in live {
        Advance(a, j);
      }
    }

    /** Another client sends something. */
    method ForeignTraffic()
      requires Valid()
      modifies `pending
      ensures Valid() && State() == old(State())
    {
      assert forall sid <- live :: sid.session == client;
      hide Ledger.Accounts, WorkersValid, State;
      var m: Message := *;
      if m.Sender().session != client {
        Book().AccountsSent(State(), m);
        pending := pending + [m];
      }
    }

    /** A message arrives, or is lost for good. */
    method Deliver(i: nat)
      requires Valid() && i < |pending|
      modifies this, Repr
      ensures Valid() && old(Repr) <= Repr && fresh(Repr - old(Repr))
      ensures live == old(live) && home == old(home) && forwards == old(forwards)
      ensures AllSpare(live, old(State()), State())
    {
      hide IdsValid, State, AllSpare, SpanWorker.Valid, SpanWorker.State;
      var m := Take(i);
      var arrives: bool := *;
      if arrives && m.address in workers {
        Arrive(m);
      }
    }

    method Take(i: nat) returns (m: Message)
      requires Valid() && i < |pending|
      modifies `pending
      ensures Valid() && State() == old(State()) && AllSpare(live, old(State()), State())
      ensures m.Sender() !in live && Homed(m.Sender(), m.address)
    {
      hide WorkersValid, State, AllSpare;
      m := pending[i];
      assert m.Sender() !in live && Homed(m.Sender(), m.address);
      hide Ledger.Accounts;
      AllSpareReflexive(live, State());
      Book().AccountsForgotten(State(), i);
      pending := pending[..i] + pending[i + 1..];
    }

    method Arrive(m: Message)
      requires Valid() && m.address in workers && m.Sender() !in live && Homed(m.Sender(), m.address)
      modifies `Repr, Repr
      ensures Valid() && old(Repr) <= Repr && fresh(Repr - old(Repr))
      ensures AllSpare(live, old(State()), State())
    {
      hide SpanWorker.Valid, SpanWorker.State, IdsValid, AllSpare, State;
      match m {
        case Request(a, key, x, end) => var _ := Begins(a, key, x, end, live);
        case Closing(a, sid) => Closes(a, sid, live);
      }
    }

    /** The heartbeat's collection of expired sessions. */
    method TimeOut(a: Address, now: int)
      requires Valid() && a in workers
      modifies workers[a]
      ensures Valid() && AllSpare(live, old(State()), State())
    {
      hide SpanWorker.Valid, IdsValid, AllSpare, State, SpanWorker.State, Owned, Table.KeptBut, HandlersKept,
           WorkerState.Spares, SpanWorker.ExpiredKeys;
      ghost var nobody := Sid(client + 1, 0);
      StrangersAreNotLive(nobody);
      workers[a].Gc(now, nobody);
      WorkerMoved(a, nobody, live);
    }

    /** A worker comes back at the same address without its sessions. */
    method Restart(a: Address)
      requires Valid() && a in workers
      modifies workers[a]
      ensures Valid() && AllSpare(live, old(State()), State())
    {
      hide SpanWorker.Valid, IdsValid, AllSpare, State, SpanWorker.State, Owned, Table.KeptBut, HandlersKept,
           WorkerState.Spares;
      ghost var nobody := Sid(client + 1, 0);
      StrangersAreNotLive(nobody);
      workers[a].Drop(workers[a].sessions.Keys, nobody);
      WorkerMoved(a, nobody, live);
    }

    /** A handler nobody is waiting for takes its next part, or is cancelled. */
    method Advance(a: Address, j: nat)
      requires Valid() && a in workers && j in workers[a].handlers && workers[a].handlers[j].key.sid !in live
      modifies Repr
      ensures Valid() && AllSpare(live, old(State()), State())
    {
      hide SpanWorker.Valid, IdsValid, AllSpare, State;
      if * {
        Cancels(a, j);
      } else if workers[a].handlers[j].Waiting? {
        var _ := Runs(a, j, live);
      } else {
        var _ := Commits(a, j, live);
      }
    }

    /** A handler is cancelled. */
    method Cancels(a: Address, j: nat)
      requires Valid() && a in workers && j in workers[a].handlers && workers[a].handlers[j].key.sid !in live
      modifies workers[a]
      ensures Valid() && AllSpare(live, old(State()), State())
    {
      HandlerHomed(a, j);
      hide SpanWorker.Valid, IdsValid, AllSpare, State, SpanWorker.State, Table.KeptBut, HandlersKept;
      ghost var sid := workers[a].handlers[j].key.sid;
      workers[a].Cancel(j);
      WorkerMoved(a, sid, live);
    }

    method Interfere()
      requires Valid()
      modifies this, Repr
      ensures Valid() && old(Repr) <= Repr && fresh(Repr - old(Repr))
      ensures live == old(live) && home == old(home) && forwards == old(forwards)
      ensures AllSpare(live, old(State()), State())
    {
      ghost var start := State();
      var n: nat := *;
      while n > 0
        invariant Valid() && old(Repr) <= Repr && fresh(Repr - old(Repr))
        invariant live == old(live) && home == old(home) && forwards == old(forwards)
        invariant AllSpare(live, start, State())
      {
        ghost var before := State();
        Meddle();
        AllSpareTransitive(live, start, before, State());
        n := n - 1;
      }
    }

    /* ---------- The client's own calls ---------- */

    lemma RangeAgrees(a: Address, key: Key, end: nat)
      requires Valid() && a in workers && (Lookup(State()[a], key).Some? ==> Lookup(State()[a], key).value.end == end)
      ensures key in workers[a].sessions ==>
                workers[a].sessions[key].start == key.start && workers[a].sessions[key].end == end
    {
      hide IdsValid;
    }

    /** Begins the client's forward at a worker that has not dropped the session. */
    method BeginOwn(a: Address, key: Key, x: Tokens, end: nat) returns (r: Result<nat, ServerError>)
      requires Valid() && a in workers && key.sid in live && Homed(key.sid, a)
      requires Lookup(State()[a], key).Some? ==> Lookup(State()[a], key).value.end == end
      modifies `Repr, Repr
      ensures Valid() && old(Repr) <= Repr && fresh(Repr - old(Repr))
      ensures AllSpare(live - {key.sid}, old(State()), State())
      ensures r.Err? ==> r.error != RangeMismatch && !r.error.LayersFailed?
      ensures r.Ok? ==>
                && x.Aligned()
                && BegunFrom(old(State())[a], State()[a], r.value, key, x, end, workers[a].span.Size())
    {
      hide SpanWorker.Valid, IdsValid, State, AllSpare, BegunFrom, Lookup;
      RangeAgrees(a, key, end);
      r := Begins(a, key, x, end, live - {key.sid});
    }

    /** The same for a call that began at `s0`, since when its session has stayed as it was. */
    method BeginSince(a: Address, key: Key, x: Tokens, end: nat, ghost s0: States) returns (r: Result<nat, ServerError>)
      requires Valid() && a in workers && key.sid in live && Homed(key.sid, a)
      requires AllSpare(live - {key.sid}, s0, State()) && a in s0 && Lookup(State()[a], key) == Lookup(s0[a], key)
      requires Lookup(s0[a], key).Some? ==> Lookup(s0[a], key).value.end == end
      requires AtWork(State()[a], key.sid, {})
      modifies `Repr, Repr
      ensures Valid() && old(Repr) <= Repr && fresh(Repr - old(Repr)) && AllSpare(live - {key.sid}, s0, State())
      ensures r.Err? ==> r.error != RangeMismatch && !r.error.LayersFailed?
      ensures r.Ok? ==>
                x.Aligned() && Pending(State()[a], r.value, key, x, EntryOr(s0[a], key, end, workers[a].span.Size()))
    {
      hide SpanWorker.State, IdsValid, State, AllSpare, Pending, BegunFrom, Lookup, AtWork, EntryOr;
      ghost var s1 := State();
      r := BeginOwn(a, key, x, end);
      AllSpareTransitive(live - {key.sid}, s0, s1, State());
      if r.Ok? {
        BegunIsPendingSince(s0[a], s1[a], State()[a], r.value, key, x, end, workers[a].span.Size());
      }
    }

    /** A call is under way: time passes, and it arrives at a worker that still has the session as it
        was, or nobody will ever answer it. */
    method Reach(a: Address, key: Key) returns (ok: bool)
      requires Valid() && key.sid in live
      requires a in workers ==> AtWork(State()[a], key.sid, {})
      modifies this, Repr
      ensures Valid() && old(Repr) <= Repr && fresh(Repr - old(Repr))
      ensures live == old(live) && home == old(home) && forwards == old(forwards)
      ensures AllSpare(live, old(State()), State())
      ensures ok ==>
                && a in workers && key !in old(State())[a].dropped
                && Lookup(State()[a], key) == Lookup(old(State())[a], key)
      ensures ok ==> AtWork(State()[a], key.sid, {})
    {
      hide IdsValid, State, AllSpare, WorkerState.Spares, Lookup, Owned, AtWork, RowsOwned, HandlersOwned;
      ghost var s0 := State();
      if a in workers {
        assert workers[a].TableOwned();
      }
      Interfere();
      if a !in workers {
        return false;
      }
      // The hypothesis: a session its worker has dropped is never answered again.
      var lost: bool := *;
      if lost || key in workers[a].dropped {
        return false;
      }
      SparedAt(live, s0, State(), a);
      NotDroppedEarlier(live, s0, State(), a, key);
      LookupWhenSpared(s0[a], State()[a], live, key);
      AtWorkWhenSpared(s0[a], State()[a], live, key.sid, {});
      return true;
    }

    /** The call's handler begins. */
    method Send(a: Address, key: Key, x: Tokens, end: nat) returns (r: Result<nat, CallError>)
      requires Valid() && key.sid in live && Homed(key.sid, a)
      requires a in workers && key !in State()[a].dropped && Lookup(State()[a], key).Some? ==>
                Lookup(State()[a], key).value.end == end
      requires a in workers ==> AtWork(State()[a], key.sid, {})
      modifies this, Repr
      ensures Valid() && old(Repr) <= Repr && fresh(Repr - old(Repr))
      ensures live == old(live) && home == old(home) && forwards == old(forwards)
      ensures AllSpare(live - {key.sid}, old(State()), State())
      ensures r.Err? ==> r.error != Rejected(RangeMismatch)
      ensures r.Ok? ==>
                && a in workers && x.Aligned() && key !in old(State())[a].dropped
                && Pending(State()[a], r.value, key, x, EntryOr(old(State())[a], key, end, workers[a].span.Size()))
    {
      hide SpanWorker.State, IdsValid, State, AllSpare, WorkerState.Spares, Pending, BegunFrom, Lookup, Owned, AtWork,
           EntryOr, RowsOwned, HandlersOwned;
      ghost var s0 := State();
      var ok := Reach(a, key);
      AllSpareWeaken(live, live - {key.sid}, s0, State());
      r := Err(Unreachable);
      if ok {
        var begun := BeginSince(a, key, x, end, s0);
        r := if begun.Ok? then Ok(begun.value) else Err(Rejected(begun.error));
      }
    }

    /** The executor gets to the call's handler. */
    method Execute(a: Address, j: nat, ghost key: Key, ghost x: Tokens, ghost e: Entry)
      returns (r: Result<(), CallError>)
      requires Valid() && key.sid in live && a in workers && x.Aligned() && |e.layers| == workers[a].span.Size()
      requires Pending(State()[a], j, key, x, e)
      modifies this, Repr
      ensures Valid() && old(Repr) <= Repr && fresh(Repr - old(Repr))
      ensures live == old(live) && home == old(home) && forwards == old(forwards)
      ensures AllSpare(live - {key.sid}, old(State()), State())
      ensures r.Err? ==> r.error != Rejected(RangeMismatch)
      ensures r.Ok? ==>
                var run := workers[a].span.Complete(x, e.layers, e.length, key.start, e.end);
                run.result.Ok? && Computed(State()[a], j, key, |x.hidden|, run.result.value, e.(layers := run.layers))
    {
      hide IdsValid, State, WorkerState.Spares, SpanWorker.Valid, RanFrom, Computed, EntryOr;
      ghost var s0, others := State(), live - {key.sid};
      Interfere();
      ghost var s1 := State();
      AllSpareWeaken(live, others, s0, s1);
      PendingWhenSpared(s0[a], s1[a], live, j, key, x, e);
      var ran := Runs(a, j, others);
      AllSpareTransitive(others, s0, s1, State());
      if ran.Ok? {
        RanIsComputed(s1[a], State()[a], j, workers[a].span, key, x, e);
      }
      r := if ran.Ok? then Ok(()) else Err(Rejected(ran.error));
    }

    /** The call's handler commits and answers; the answer may still be a while under way. */
    method Answer(a: Address, j: nat, ghost w: WorkerState, ghost key: Key, ghost x: Tokens, ghost end: nat)
      returns (out: seq<Hidden>)
      requires Valid() && key.sid in live && a in workers
      requires ComputedFrom(w, State()[a], workers[a].span, j, key, x, end)
      modifies this, Repr
      ensures Valid() && old(Repr) <= Repr && fresh(Repr - old(Repr))
      ensures live == old(live) && home == old(home) && forwards == old(forwards)
      ensures AllSpare(live - {key.sid}, old(State()), State())
      ensures Answered(w, State()[a], workers[a].span, key, x, end, out) && AtWork(State()[a], key.sid, {})
    {
      hide IdsValid, State, AllSpare, WorkerState.Spares, CommittedFrom, ComputedFrom, Answered, Owned, AtWork,
           RowsOwned, HandlersOwned;
      ghost var s0, others := State(), live - {key.sid};
      Interfere();
      ghost var s1 := State();
      AllSpareWeaken(live, others, s0, s1);
      SparedAt(live, s0, s1, a);
      ComputedFromWhenSpared(w, s0[a], s1[a], live, workers[a].span, j, key, x, end);
      HandlerOf(w, s1[a], workers[a].span, j, key, x, end);
      out := Commits(a, j, others);
      ghost var s2 := State();
      AllSpareTransitive(others, s0, s1, s2);
      CommittedIsAnswered(w, s1[a], s2[a], workers[a].span, j, key, x, end);
      Settle(a, w, key, x, end, out, s0);
    }

    /** More time passes. */
    method Settle(a: Address, ghost w: WorkerState, ghost key: Key, ghost x: Tokens, ghost end: nat,
                  ghost out: seq<Hidden>,
                  ghost s0: States)
      requires Valid() && key.sid in live && a in workers && AllSpare(live - {key.sid}, s0, State())
      requires Answered(w, State()[a], workers[a].span, key, x, end, out) && AtWork(State()[a], key.sid, {})
      modifies this, Repr
      ensures Valid() && old(Repr) <= Repr && fresh(Repr - old(Repr))
      ensures live == old(live) && home == old(home) && forwards == old(forwards)
      ensures AllSpare(live - {key.sid}, s0, State())
      ensures Answered(w, State()[a], workers[a].span, key, x, end, out) && AtWork(State()[a], key.sid, {})
    {
      hide IdsValid, State, AllSpare, WorkerState.Spares, Owned, Answered, AtWork, RowsOwned, HandlersOwned;
      ghost var s1, others := State(), live - {key.sid};
      assert workers[a].TableOwned();
      Interfere();
      AllSpareWeaken(live, others, s1, State());
      AllSpareTransitive(others, s0, s1, State());
      SparedAt(live, s1, State(), a);
      AtWorkWhenSpared(s1[a], State()[a], live, key.sid, {});
      AnsweredWhenSpared(w, s1[a], State()[a], live, workers[a].span, key, x, end, out);
    }

    lemma IdleAtWork(a: Address, sid: Sid)
      requires Valid() && Idle() && sid in live
      ensures a in workers ==> AtWork(State()[a], sid, {})
    {
      hide IdsValid;
    }

    /** The client stops waiting; the request itself may still be under way. */
    method Abandon(key: Key, a: Address, x: Tokens, end: nat, ghost s0: States)
      requires Valid() && Homed(key.sid, a) && Quiet(live, s0) && AllSpare(live - {key.sid}, s0, State())
      modifies `live, `pending
      ensures Valid() && Idle() && live == old(live) - {key.sid} && State() == old(State())
    {
      hide Ledger.Accounts, WorkersValid, State, AllSpare, Quiet;
      QuietWhenSpared(live, live - {key.sid}, s0, State());
      Book().AccountsGivenUp(State(), key.sid);
      live := live - {key.sid};
      if * {
        Book().AccountsSent(State(), Request(a, key, x, end));
        pending := pending + [Request(a, key, x, end)];
      }
    }

    /** Once its own handler is done, an answered call leaves no handler of a live id. */
    lemma IdleAgain(a: Address, sid: Sid, s0: States)
      requires Valid() && Quiet(live, s0) && AllSpare(live - {sid}, s0, State()) && Homed(sid, a) && Mine(sid)
      requires a in workers && AtWork(State()[a], sid, {})
      ensures Idle()
    {
      hide AllSpare, WorkerState.Spares;
      QuietWhenSpared(live, live - {sid}, s0, State());
    }

    lemma EntrySizedAt(a: Address, key: Key, end: nat)
      requires Valid() && a in workers
      ensures workers[a].span.Valid()
      ensures |EntryOr(State()[a], key, end, workers[a].span.Size()).layers| == workers[a].span.Size()
    {
      workers[a].EntrySized(key, end);
    }

    /** One call up to its handler's commit, with anything in between; the caller may tire of it. */
    method Compute(a: Address, key: Key, x: Tokens, end: nat) returns (r: Result<nat, CallError>)
      requires Valid() && key.sid in live && Homed(key.sid, a)
      requires a in workers && key !in State()[a].dropped && Lookup(State()[a], key).Some? ==>
                Lookup(State()[a], key).value.end == end
      requires a in workers ==> AtWork(State()[a], key.sid, {})
      modifies this, Repr
      ensures Valid() && old(Repr) <= Repr && fresh(Repr - old(Repr))
      ensures live == old(live) && home == old(home) && forwards == old(forwards)
      ensures AllSpare(live - {key.sid}, old(State()), State())
      ensures r.Err? ==> r.error != Rejected(RangeMismatch)
      ensures r.Ok? ==>
                && a in workers && x.Aligned()
                && ComputedFrom(old(State())[a], State()[a], workers[a].span, r.value, key, x, end)
    {
      hide Ledger.Accounts, WorkersValid, IdsValid, State, AllSpare, WorkerState.Spares, AtWork, Pending, Computed,
           Lookup, RunLayers, DecoderSpan.Run, DecoderSpan.Complete, SpanWorker.Valid, SpanWorker.State;
      ghost var s0, others := State(), live - {key.sid};
      if a in workers {
        EntrySizedAt(a, key, end);
      }
      var sent := Send(a, key, x, end);
      ghost var s1 := State();
      var tired: bool := *;
      r := if tired then Err(Unreachable) else sent;
      if r.Ok? {
        ghost var e := EntryOr(s0[a], key, end, workers[a].span.Size());
        var ran := Execute(a, sent.value, key, x, e);
        AllSpareTransitive(others, s0, s1, State());
        tired := *;
        if ran.Err? || tired {
          r := Err(if ran.Err? then ran.error else Unreachable);
        }
      }
    }

    method Attempt(a: Address, key: Key, x: Tokens, end: nat) returns (r: Result<seq<Hidden>, CallError>)
      requires Valid() && key.sid in live && Homed(key.sid, a)
      requires a in workers && key !in State()[a].dropped && Lookup(State()[a], key).Some? ==>
                Lookup(State()[a], key).value.end == end
      requires a in workers ==> AtWork(State()[a], key.sid, {})
      modifies this, Repr
      ensures Valid() && old(Repr) <= Repr && fresh(Repr - old(Repr))
      ensures live == old(live) && home == old(home) && forwards == old(forwards)
      ensures AllSpare(live - {key.sid}, old(State()), State())
      ensures r.Err? ==> r.error != Rejected(RangeMismatch)
      ensures r.Ok? ==>
                && a in workers && x.Aligned() && AtWork(State()[a], key.sid, {})
                && Answered(old(State())[a], State()[a], workers[a].span, key, x, end, r.value)
    {
      hide SpanWorker.Valid, SpanWorker.State, IdsValid, State, AllSpare, WorkerState.Spares, AtWork, ComputedFrom,
           Lookup, Answered;
      ghost var s0, others := State(), live - {key.sid};
      var computed := Compute(a, key, x, end);
      if computed.Err? {
        r := Err(computed.error);
      } else {
        ghost var s1 := State();
        var out := Answer(a, computed.value, s0[a], key, x, end);
        AllSpareTransitive(others, s0, s1, State());
        r := Ok(out);
      }
    }

    /** The forward call of the client's protocol. An id whose call fails is given up; an id whose
        calls are all answered has had every one of them run exactly once. */
    method Forward(a: Address, key: Key, x: Tokens, end: nat) returns (r: Result<seq<Hidden>, CallError>)
      requires Valid() && Idle() && key.sid in live && Mine(key.sid) && Homed(key.sid, a)
      requires a in workers && key !in State()[a].dropped && Lookup(State()[a], key).Some? ==>
                Lookup(State()[a], key).value.end == end
      modifies this, Repr, journal`failed
      ensures Valid() && Idle() && old(Repr) <= Repr && fresh(Repr - old(Repr))
      ensures home == old(home) && forwards == old(forwards) + 1
      ensures journal.failed == if r.Ok? then old(journal.failed) else old(journal.failed) + 1
      ensures AllSpare(old(live) - {key.sid}, old(State()), State())
      ensures r.Err? ==> live == old(live) - {key.sid} && r.error != Rejected(RangeMismatch)
      ensures r.Ok? ==>
                && live == old(live) && a in workers && x.Aligned()
                && Answered(old(State())[a], State()[a], workers[a].span, key, x, end, r.value)
    {
      hide IdsValid, WorkersValid, State, AllSpare, WorkerState.Spares, AtWork, Lookup, Answered;
      ghost var s0 := State();
      forwards := forwards + 1;
      IdleAtWork(a, key.sid);
      r := Attempt(a, key, x, end);
      var tired: bool := *;
      if r.Err? || tired {
        Abandon(key, a, x, end, s0);
        r := Err(if r.Err? then r.error else Unreachable);
      } else {
        IdleAgain(a, key.sid, s0);
      }
      label Over:
      journal.Note(r.Ok?);
      Untouched@Over();
    }

    /** The registry's answer. */
    method Servers() returns (rows: Option<seq<ServerInfo>>)
      modifies journal`lookups
      ensures journal.lookups == old(journal.lookups) + 1
      ensures rows == journal.Last() == journal.registry(old(journal.lookups))
    {
      rows := journal.Servers();
    }

    /** The client hands out a new id for a worker. Nobody has ever used it. */
    method HandOut(n: nat, a: Address)
      requires Valid() && Idle() && n !in home
      modifies `live, `home
      ensures Valid() && Idle() && State() == old(State())
      ensures live == old(live) + {Sid(client, n)} && home == old(home)[n := a]
      ensures Sid(client, n) !in old(live) && Gone(State(), Sid(client, n))
    {
      hide Ledger.Accounts, WorkersValid, State, Gone, Quiet;
      Book().AccountsHandedOut(State(), n, a);
      live, home := live + {Sid(client, n)}, home[n := a];
    }

    /** The client's closing call. Only one that is answered is known to have happened. */
    method Close(a: Address, sid: Sid) returns (ok: bool)
      requires Valid() && Idle() && sid in live && Homed(sid, a)
      modifies this, Repr, journal`closed
      ensures Valid() && Idle() && old(Repr) <= Repr && fresh(Repr - old(Repr))
      ensures home == old(home) && forwards == old(forwards) && journal.closed == old(journal.closed) + [(a, sid)]
      ensures AllSpare(old(live) - {sid}, old(State()), State())
      ensures if ok then live == old(live) && Gone(State(), sid) else live == old(live) - {sid}
    {
      hide IdsValid, WorkersValid, State, AllSpare, WorkerState.Spares, Gone;
      ghost var s0 := State();
      ok := TryClose(a, sid);
      if !ok {
        QuietWhenSpared(live, live - {sid}, s0, State());
        Hang(a, sid);
      }
      label Over:
      journal.NoteClosed(a, sid);
      Untouched@Over();
    }

    /** An id the client gave up closing: the request may still be under way. */
    method Hang(a: Address, sid: Sid)
      requires Valid() && Homed(sid, a) && Quiet(live - {sid}, State())
      modifies `live, `pending
      ensures Valid() && Idle() && live == old(live) - {sid} && State() == old(State())
    {
      hide Ledger.Accounts, WorkersValid, State, Quiet;
      Book().AccountsGivenUp(State(), sid);
      live := live - {sid};
      if * {
        Book().AccountsSent(State(), Closing(a, sid));
        pending := pending + [Closing(a, sid)];
      }
    }

    method TryClose(a: Address, sid: Sid) returns (ok: bool)
      requires Valid() && sid in live && Homed(sid, a) && Quiet(live, State())
      modifies this, Repr
      ensures Valid() && old(Repr) <= Repr && fresh(Repr - old(Repr))
      ensures live == old(live) && home == old(home) && forwards == old(forwards)
      ensures AllSpare(live - {sid}, old(State()), State())
      ensures ok ==> Gone(State(), sid) && Quiet(live, State())
    {
      hide SpanWorker.Valid, SpanWorker.State, IdsValid, State, AllSpare, WorkerState.Spares, Gone, Quiet;
      ghost var s0, others := State(), live - {sid};
      Interfere();
      ghost var s1 := State();
      AllSpareWeaken(live, others, s0, s1);
      var lost: bool := *;
      if lost || a !in workers {
        return false;
      }
      QuietWhenSpared(live, live, s0, s1);
      CloseOwn(a, sid);
      ghost var s2 := State();
      AllSpareTransitive(others, s0, s1, s2);
      Interfere();
      AllSpareWeaken(live, others, s2, State());
      AllSpareTransitive(others, s0, s2, State());
      GoneWhenSpared(live, s2, State(), sid);
      QuietWhenSpared(live, live, s2, State());
      lost := *;
      return !lost;
    }

    method CloseOwn(a: Address, sid: Sid)
      requires Valid() && a in workers && sid in live && Homed(sid, a) && Quiet(live, State())
      modifies workers[a]
      ensures Valid() && AllSpare(live - {sid}, old(State()), State()) && Gone(State(), sid) && Quiet(live, State())
    {
      hide IdsValid, State, SpanWorker.Valid, AllSpare, Table.KeptBut, HandlersKept, WorkerState.Spares;
      OnlyAtHome(a, sid);
      Closes(a, sid, live - {sid});
    }

    lemma OnlyAtHome(a: Address, sid: Sid)
      requires Valid() && sid in live && Homed(sid, a)
      ensures forall b, k :: b in workers && b != a && k in workers[b].sessions ==> k.sid != sid
    {
    }
  }

  lemma NotDroppedEarlier(live: set<Sid>, s0: States, s1: States, a: Address, key: Key)
    requires AllSpare(live, s0, s1) && a in s0 && key !in s1[a].dropped
    ensures key !in s0[a].dropped
  {
  }
}
