/** The network the recurrent sessions of one client live in: the workers, the calls its failures left
    behind, and everybody else's traffic. Every choice the environment has is nondeterministic.

    One hypothesis is built in, in `Send`: an `observe` for a session that its worker has dropped (by
    timeout, or by restarting) is never answered. The workers themselves refuse `imagine` and `fork`
    for such a session. */
module RssmNetwork {
  import opened Wrappers
  import opened Ids
  import opened RssmServer
  import opened Routing
  import opened Journals

  /** A message under way that its sender has given up on, or that is another client's. */
  datatype Message =
    | Request(address: Address, sid: Sid, op: Op)
    | Forking(address: Address, parent: Sid, child: Sid)
    | Closing(address: Address, sid: Sid)
  {
    /** The id whose session the message can change. */
    function Target(): Sid {
      match this
      case Forking(_, _, child) => child
      case _ => this.sid
    }
  }

  type States = map<Address, RssmState>

  /** No worker touched anything of the ids in `live`, except by dropping sessions. */
  ghost predicate AllSpare(live: set<Sid>, before: States, after: States) {
    before.Keys == after.Keys && forall a :: a in before ==> before[a].Spares(live, after[a])
  }

  ghost predicate Quiet(live: set<Sid>, s: States) {
    forall a, j :: a in s && j in s[a].handlers ==> s[a].handlers[j].sid !in live
  }

  lemma AllSpareReflexive(live: set<Sid>, s: States)
    ensures AllSpare(live, s, s)
  {
  }

  lemma AllSpareWeaken(live: set<Sid>, less: set<Sid>, s0: States, s1: States)
    requires AllSpare(live, s0, s1) && less <= live
    ensures AllSpare(less, s0, s1)
  {
  }

  lemma AllSpareTransitive(live: set<Sid>, s0: States, s1: States, s2: States)
    requires AllSpare(live, s0, s1) && AllSpare(live, s1, s2)
    ensures AllSpare(live, s0, s2)
  {
    forall a | a in s0
      ensures s0[a].Spares(live, s2[a])
    {
      SparesTransitive(s0[a], s1[a], s2[a], live);
    }
  }

  lemma QuietWhenSpared(live: set<Sid>, less: set<Sid>, s0: States, s1: States)
    requires Quiet(live, s0) && less <= live && AllSpare(less, s0, s1)
    ensures Quiet(less, s1)
  {
  }

  /** Who may use which id: the client's ids, numbered, each belong to the one worker they were
      handed out for. */
  datatype Ledger = Ledger(client: nat, home: map<nat, Address>, live: set<Sid>, pending: seq<Message>) {
    predicate Homed(sid: Sid, a: Address) {
      sid.session == client ==> sid.generation in home && home[sid.generation] == a
    }

    /** Everything that concerns an id of the client is at that id's worker, nothing under way can
        change a live one, and a live session that was dropped has not come back. */
    ghost predicate Accounts(s: States) {
      && (forall a, k :: a in s && k in s[a].sessions ==> Homed(k, a))
      && (forall a, k :: a in s && k in s[a].dropped ==> Homed(k, a))
      && (forall a, j :: a in s && j in s[a].handlers ==> Homed(s[a].handlers[j].sid, a))
      && (forall sid :: sid in live ==> sid.session == client && sid.generation in home)
      && (forall a, k :: a in s && k in live && k in s[a].dropped ==> k !in s[a].sessions)
      && (forall m <- pending :: m.Target() !in live && Homed(m.Target(), m.address))
    }

    /** One worker moved, for one id. */
    lemma AccountsAfter(s: States, a: Address, w: RssmState, sid: Sid)
      requires Accounts(s) && a in s && s[a].SparesBut(sid, w) && Homed(sid, a)
      requires sid in live && sid in w.dropped ==> sid !in w.sessions
      ensures Accounts(s[a := w])
    {
    }

    lemma AccountsSent(s: States, m: Message)
      requires Accounts(s) && m.Target() !in live && Homed(m.Target(), m.address)
      ensures this.(pending := pending + [m]).Accounts(s)
    {
    }

    lemma AccountsForgotten(s: States, i: nat)
      requires Accounts(s) && i < |pending|
      ensures this.(pending := pending[..i] + pending[i + 1..]).Accounts(s)
    {
    }

    lemma AccountsGivenUp(s: States, sid: Sid)
      requires Accounts(s)
      ensures this.(live := live - {sid}).Accounts(s)
    {
    }

    lemma AccountsHandedOut(s: States, n: nat, a: Address)
      requires Accounts(s) && n !in home
      ensures this.(home := home[n := a], live := live + {Sid(client, n)}).Accounts(s)
      ensures NeverSeen(s, Sid(client, n)) && Sid(client, n) !in live
    {
    }
  }

  lemma OneMoved(s: States, a: Address, w: RssmState, sid: Sid, spared: set<Sid>)
    requires a in s && s[a].SparesBut(sid, w) && sid !in spared
    ensures AllSpare(spared, s, s[a := w])
  {
    OthersAreSpared(s[a], w, sid, spared);
  }

  lemma SparedAt(live: set<Sid>, s0: States, s1: States, a: Address)
    requires AllSpare(live, s0, s1) && a in s0
    ensures a in s1 && s0[a].Spares(live, s1[a])
  {
  }

  /** No worker has, or dropped, a session of this id. */
  ghost predicate NeverSeen(s: States, sid: Sid) {
    forall a :: a in s ==> sid !in s[a].sessions && sid !in s[a].dropped && AtWork(s[a], sid, {})
  }

  lemma BlankStands(s: States, sid: Sid, a: Address)
    requires NeverSeen(s, sid)
    ensures a in s ==> Stands(s[a], sid, None) && AtWork(s[a], sid, {})
  {
  }

  lemma QuietWhenHandedOut(live: set<Sid>, s: States, sid: Sid)
    requires Quiet(live, s) && NeverSeen(s, sid)
    ensures Quiet(live + {sid}, s)
  {
  }

  lemma AbsentWhenSpared(live: set<Sid>, s0: States, s1: States, sid: Sid)
    requires AllSpare(live, s0, s1) && sid in live && forall a :: a in s0 ==> sid !in s0[a].sessions
    ensures forall a :: a in s1 ==> sid !in s1[a].sessions
  {
  }

  lemma NeverSeenWhenSpared(live: set<Sid>, s0: States, s1: States, sid: Sid)
    requires NeverSeen(s0, sid) && AllSpare(live, s0, s1) && sid in live
    ensures NeverSeen(s1, sid)
  {
  }

  /** A live id with no handler at work has none later, and its worker still has the session as it was
      unless it dropped it. */
  lemma SparedAtWork(live: set<Sid>, s0: States, s1: States, a: Address, sid: Sid)
    requires AllSpare(live, s0, s1) && sid in live && a in s0 && s0[a].Consistent() && AtWork(s0[a], sid, {})
    ensures a in s1 && AtWork(s1[a], sid, {})
    ensures sid !in s1[a].dropped ==> sid !in s0[a].dropped && Lookup(s1[a], sid) == Lookup(s0[a], sid)
  {
  }

  /** How far a call has got: its handler has not begun, waits for the executor, or has yet to commit. */
  datatype Progress = Unsent | Begun(j: nat) | Ran(j: nat)

  /** A network at one moment. */
  datatype Moment = Moment(book: Ledger, workers: States) {
    ghost predicate Sound() {
      book.Accounts(workers) && forall a :: a in workers ==> workers[a].Consistent()
    }

    /** The client handed the id out for `a`. */
    ghost predicate Issued(sid: Sid, a: Address) {
      sid.session == book.client && book.Homed(sid, a)
    }

    /** The id is still good, and its session stands at `s`. */
    ghost predicate At(sid: Sid, a: Address, s: Option<Latent>) {
      Issued(sid, a) && sid in book.live && (a in workers ==> Stands(workers[a], sid, s))
    }

    /** And no handler is at work for it. */
    ghost predicate Rests(sid: Sid, a: Address, s: Option<Latent>) {
      At(sid, a, s) && (a in workers ==> AtWork(workers[a], sid, {}))
    }

    /** A call of `op` on the session, which stood at `from`, has got this far. */
    ghost predicate Doing(sid: Sid, a: Address, p: Progress, from: Option<Latent>, op: Op, rssm: Rssm) {
      && Issued(sid, a) && sid in book.live
      && match p
         case Unsent => Rests(sid, a, from)
         case Begun(j) =>
           a in workers && rssm.Start(from, op).Some? && Pending(workers[a], j, sid, op, rssm.Start(from, op).value)
         case Ran(j) =>
           a in workers && rssm.Apply(from, op).Some? && Computed(workers[a], j, sid, rssm.Apply(from, op).value)
    }

    /** Until `later` the client used no ids but those in `mine` and new ones. */
    ghost predicate Leads(mine: set<Sid>, later: Moment) {
      && later.book.client == book.client && book.live - mine <= later.book.live
      && (forall sid :: sid in later.book.live && sid !in book.live ==> sid.generation !in book.home)
      && (forall n :: n in book.home ==> n in later.book.home && later.book.home[n] == book.home[n])
      && AllSpare(book.live - mine, workers, later.workers)
    }
  }

  lemma LeadsReflexive(m: Moment, mine: set<Sid>)
    ensures m.Leads(mine, m)
  {
    AllSpareReflexive(m.book.live - mine, m.workers);
  }

  lemma LeadsTransitive(m0: Moment, m1: Moment, m2: Moment, mine: set<Sid>, next: set<Sid>)
    requires m0.Leads(mine, m1) && m1.Leads(next, m2) && next * m0.book.live <= mine
    ensures m0.Leads(mine, m2)
  {
    hide AllSpare;
    var others := m0.book.live - mine;
    AllSpareWeaken(m1.book.live - next, others, m1.workers, m2.workers);
    AllSpareTransitive(others, m0.workers, m1.workers, m2.workers);
  }

  /** Who used only ids of `mine`, new ones apart, and now uses only those or new ones, still does. */
  lemma OwnIdsStayOwn(m0: Moment, m1: Moment, mine: set<Sid>, ids: set<Sid>, next: set<Sid>)
    requires m0.Leads(mine, m1) && ids * m0.book.live <= mine && next * m1.book.live <= ids
    ensures next * m0.book.live <= mine
  {
  }

  lemma AtMeans(m: Moment, sid: Sid, a: Address, s: Option<Latent>)
    requires m.At(sid, a, s)
    ensures m.Issued(sid, a) && sid in m.book.live
  {
  }

  /** What the client did with other ids does not show at this one. */
  lemma AtLater(m: Moment, later: Moment, mine: set<Sid>, sid: Sid, a: Address, s: Option<Latent>)
    requires m.Sound() && m.Leads(mine, later) && m.At(sid, a, s) && sid !in mine
    ensures later.At(sid, a, s)
  {
    if a in m.workers {
      StandsWhenSpared(m.workers[a], later.workers[a], m.book.live - mine, sid, s);
    }
  }

  /** Nor do they show at a call that is under way. */
  lemma DoingLater(m: Moment, later: Moment, mine: set<Sid>, sid: Sid, a: Address, p: Progress, from: Option<Latent>,
                   op: Op, rssm: Rssm)
    requires m.Sound() && m.Leads(mine, later) && m.Doing(sid, a, p, from, op, rssm) && sid !in mine
    ensures later.Doing(sid, a, p, from, op, rssm)
  {
    hide Ledger.Accounts, Stands, AtWork, Pending, Computed, RssmState.Spares, Rssm.Start, Rssm.Apply;
    var others := m.book.live - mine;
    if a in m.workers {
      SparedAt(others, m.workers, later.workers, a);
      match p {
        case Unsent =>
          StandsWhenSpared(m.workers[a], later.workers[a], others, sid, from);
          AtWorkWhenSpared(m.workers[a], later.workers[a], others, sid, {});
        case Begun(j) =>
          PendingWhenSpared(m.workers[a], later.workers[a], others, j, sid, op, rssm.Start(from, op).value);
        case Ran(j) =>
          ComputedWhenSpared(m.workers[a], later.workers[a], others, j, sid, rssm.Apply(from, op).value);
      }
    }
  }

  lemma IssuedLater(m: Moment, later: Moment, mine: set<Sid>, sid: Sid, a: Address)
    requires m.Issued(sid, a) && m.Leads(mine, later)
    ensures later.Issued(sid, a)
  {
  }

  lemma RestsIsDoing(m: Moment, sid: Sid, a: Address, s: Option<Latent>, op: Op, rssm: Rssm)
    requires m.Rests(sid, a, s)
    ensures m.At(sid, a, s) && m.Doing(sid, a, Unsent, s, op, rssm)
  {
  }

  lemma RestsLater(m: Moment, later: Moment, mine: set<Sid>, sid: Sid, a: Address, s: Option<Latent>)
    requires m.Sound() && m.Leads(mine, later) && m.Rests(sid, a, s) && sid !in mine
    ensures later.Rests(sid, a, s)
  {
    hide Ledger.Accounts, RssmState.Spares;
    AtLater(m, later, mine, sid, a, s);
    if a in m.workers {
      SparedAt(m.book.live - mine, m.workers, later.workers, a);
      AtWorkWhenSpared(m.workers[a], later.workers[a], m.book.live - mine, sid, {});
    }
  }

  class RssmSwarm {
    const rssm: Rssm
    const workers: map<Address, RssmWorker>
    /** Ids of any other session number belong to other clients. */
    const client: nat
    /** What the client asked, and the registry's answers. */
    const journal: Journal
    var pending: seq<Message>
    /** The client's ids that were handed out and had no call fail and no close. */
    var live: set<Sid>
    /** How many ids the client has handed out, and the one worker each of them is for. */
    var issued: nat
    var home: map<nat, Address>

    function Book(): Ledger
      reads this
    {
      Ledger(client, home, live, pending)
    }

    ghost function Now(): Moment
      reads this, workers.Values
    {
      Moment(Book(), State())
    }

    ghost predicate WorkersValid()
      reads workers.Values
    {
      && (forall a :: a in workers ==> workers[a].Valid() && workers[a].rssm == rssm)
      && (forall a, b :: a in workers && b in workers && a != b ==> workers[a] != workers[b])
    }

    ghost function State(): (s: States)
      reads workers.Values
      ensures s.Keys == workers.Keys && forall a :: a in workers ==> s[a] == workers[a].State()
    {
      map a | a in workers :: workers[a].State()
    }

    ghost predicate Valid()
      reads this, workers.Values
    {
      WorkersValid() && Book().Accounts(State()) && forall n :: n in home ==> n < issued
    }

    /** No handler is at work for a live id. */
    ghost predicate Idle()
      reads this, workers.Values
    {
      Quiet(live, State())
    }

    /** Other objects may change. */
    twostate lemma Untouched()
      requires unchanged(this) && forall a :: a in workers ==> unchanged(workers[a])
      ensures Now() == old(Now()) && State() == old(State()) && Valid() == old(Valid()) && Idle() == old(Idle())
    {
    }

    lemma LiveNow()
      ensures Now().book.live == live
    {
    }

    lemma SoundNow()
      requires Valid()
      ensures Now().Sound()
    {
      hide Ledger.Accounts;
    }

    lemma ConsistentAt(a: Address)
      requires Valid() && a in workers
      ensures State()[a].Consistent()
    {
      hide Ledger.Accounts;
    }

    constructor (rssm: Rssm, workers: map<Address, RssmWorker>, client: nat, journal: Journal)
      requires forall a :: a in workers ==> workers[a].Valid() && workers[a].rssm == rssm
      requires forall a :: a in workers ==> workers[a].State() == RssmState(map[], map[], map[], {})
      requires forall a, b :: a in workers && b in workers && a != b ==> workers[a] != workers[b]
      ensures this.rssm == rssm && this.workers == workers && this.client == client && this.journal == journal
      ensures Valid() && Idle() && home == map[] && live == {} && pending == []
    {
      this.rssm, this.workers, this.client, this.journal := rssm, workers, client, journal;
      pending, live, issued, home := [], {}, 0, map[];
    }

    /** One worker moved, for one id. */
    twostate lemma Moved(new a: Address, new sid: Sid, new spared: set<Sid>)
      requires old(Valid()) && a in workers && workers[a].Valid() && forall b :: b in workers && b != a ==>
                unchanged(workers[b])
      requires Book() == old(Book()) && issued == old(issued) && Book().Homed(sid, a) && sid !in spared
      requires old(workers[a].State()).SparesBut(sid, workers[a].State())
      requires sid in live && sid in workers[a].dropped ==> sid !in workers[a].sessions
      ensures Valid() && State() == old(State())[a := workers[a].State()] && AllSpare(spared, old(State()), State())
    {
      hide Ledger.Accounts, RssmState.SparesBut, AllSpare, RssmWorker.Valid;
      assert State() == old(State())[a := workers[a].State()];
      Book().AccountsAfter(old(State()), a, workers[a].State(), sid);
      OneMoved(old(State()), a, workers[a].State(), sid, spared);
    }

    /* ---------- What the environment may do at any time ---------- */

    /** Somebody sends something about an id that is not live: another client, or this one, whose other
        sessions may have calls of their own under way. */
    method ForeignTraffic()
      requires Valid()
      modifies `pending
      ensures Valid()
    {
      hide Ledger.Accounts, WorkersValid, State;
      var m: Message := *;
      if m.Target() !in live && Book().Homed(m.Target(), m.address) {
        Book().AccountsSent(State(), m);
        pending := pending + [m];
      }
    }

    /** A message arrives, or is lost for good. */
    method Deliver(i: nat)
      requires Valid() && i < |pending|
      modifies `pending, workers.Values
      ensures Valid() && AllSpare(live, old(State()), State())
    {
      var m := pending[i];
      assert m.Target() !in live && Book().Homed(m.Target(), m.address);
      hide Ledger.Accounts, WorkersValid, State, AllSpare;
      Forget(i);
      AllSpareReflexive(live, State());
      var arrives: bool := *;
      if arrives && m.address in workers {
        Arrive(m);
      }
    }

    method Forget(i: nat)
      requires Valid() && i < |pending|
      modifies `pending
      ensures Valid()
    {
      hide Ledger.Accounts, WorkersValid, State;
      Book().AccountsForgotten(State(), i);
      pending := pending[..i] + pending[i + 1..];
    }

    method Arrive(m: Message)
      requires Valid() && m.address in workers && m.Target() !in live && Book().Homed(m.Target(), m.address)
      modifies workers[m.address]
      ensures Valid() && AllSpare(live, old(State()), State())
    {
      hide Ledger.Accounts, RssmState.SparesBut, AllSpare, RssmWorker.Valid, RssmWorker.State;
      var w, now: int := workers[m.address], *;
      match m {
        case Request(_, sid, op) => var _ := w.Begin(sid, op, now);
        case Forking(_, parent, child) => var _ := w.Fork(parent, child, now);
        case Closing(_, sid) => w.Close(sid);
      }
      Moved(m.address, m.Target(), live);
    }

    /** A worker collects its expired sessions, or comes back at its address without any. */
    method Lose(a: Address, now: int)
      requires Valid() && a in workers
      modifies workers[a]
      ensures Valid() && AllSpare(live, old(State()), State())
    {
      ghost var nobody := Sid(client + 1, 0);
      assert nobody !in live;
      hide Ledger.Accounts, RssmState.SparesBut, AllSpare, RssmWorker.Valid, RssmWorker.State;
      if * {
        workers[a].Gc(now, nobody);
      } else {
        workers[a].Drop(workers[a].sessions.Keys, nobody);
      }
      Moved(a, nobody, live);
    }

    /** A handler nobody is waiting for takes its next part, or is cancelled. */
    method Advance(a: Address, j: nat)
      requires Valid() && a in workers && j in workers[a].handlers && workers[a].handlers[j].sid !in live
      modifies workers[a]
      ensures Valid() && AllSpare(live, old(State()), State())
    {
      var w := workers[a];
      ghost var sid := w.handlers[j].sid;
      assert Book().Homed(sid, a);
      hide Ledger.Accounts, RssmState.SparesBut, AllSpare, RssmWorker.Valid, RssmWorker.State;
      if * {
        w.Cancel(j);
      } else if w.handlers[j].Waiting? {
        w.Run(j);
      } else {
        var _ := w.Commit(j);
      }
      Moved(a, sid, live);
    }

    method Meddle()
      requires Valid()
      modifies `pending, workers.Values
      ensures Valid() && AllSpare(live, old(State()), State())
    {
      AllSpareReflexive(live, State());
      hide Ledger.Accounts, AllSpare;
      if * {
        ForeignTraffic();
      } else if * {
        if pending != [] {
          var i: nat := *;
          Deliver(i % |pending|);
        }
      } else if * {
        var a: Address, now: int := *, *;
        if a in workers {
          Lose(a, now);
        }
      } else {
        var a: Address, j: nat := *, *;
        if a in workers && j in workers[a].handlers && workers[a].handlers[j].sid !in live {
          Advance(a, j);
        }
      }
    }

    method Interfere()
      requires Valid()
      modifies `pending, workers.Values
      ensures Valid() && AllSpare(live, old(State()), State())
    {
      hide *;
      ghost var start := State();
      AllSpareReflexive(live, start);
      var n: nat := *;
      while n > 0
        invariant Valid() && AllSpare(live, start, State())
      {
        ghost var before := State();
        Meddle();
        AllSpareTransitive(live, start, before, State());
        n := n - 1;
      }
    }

    /** Time passes while a call of the client's is under way. */
    method Wait(ghost sid: Sid, ghost s0: States)
      requires Valid() && AllSpare(live - {sid}, s0, State())
      modifies `pending, workers.Values
      ensures Valid() && AllSpare(live, old(State()), State()) && AllSpare(live - {sid}, s0, State())
    {
      hide *;
      ghost var s1 := State();
      Interfere();
      AllSpareWeaken(live, live - {sid}, s1, State());
      AllSpareTransitive(live - {sid}, s0, s1, State());
    }

    /* ---------- The client's own calls ---------- */

    method BeginOwn(a: Address, sid: Sid, op: Op) returns (r: Result<nat, RssmError>)
      requires Valid() && sid in live && Book().Homed(sid, a) && a in workers
      requires op.Observe? ==> sid !in workers[a].dropped
      modifies workers[a]
      ensures Valid() && AllSpare(live - {sid}, old(State()), State())
      ensures r.Ok? ==>
                sid !in old(State())[a].dropped && BegunFrom(old(State())[a], State()[a], r.value, sid, op, rssm)
    {
      assert sid in workers[a].dropped ==> sid !in workers[a].sessions;
      hide Ledger.Accounts, RssmState.SparesBut, AllSpare, RssmWorker.Valid, BegunFrom;
      var now: int := *;
      r := workers[a].Begin(sid, op, now);
      Moved(a, sid, live - {sid});
    }

    method RunOwn(a: Address, j: nat)
      requires Valid() && a in workers && j in workers[a].handlers && workers[a].handlers[j].Waiting?
      modifies workers[a]
      ensures Valid() && AllSpare(live - {old(workers[a].handlers)[j].sid}, old(State()), State())
      ensures RanFrom(old(State())[a], State()[a], j, rssm)
    {
      var w := workers[a];
      ghost var sid := w.handlers[j].sid;
      assert Book().Homed(sid, a);
      hide Ledger.Accounts, RssmState.SparesBut, AllSpare, RssmWorker.Valid;
      w.Run(j);
      Moved(a, sid, live - {sid});
    }

    method CommitOwn(a: Address, j: nat) returns (features: Tensor)
      requires Valid() && a in workers && j in workers[a].handlers && workers[a].handlers[j].Finished?
      modifies workers[a]
      ensures Valid() && AllSpare(live - {old(workers[a].handlers)[j].sid}, old(State()), State())
      ensures CommittedFrom(old(State())[a], State()[a], j)
              && features == rssm.features(old(workers[a].handlers)[j].latent)
    {
      var w := workers[a];
      ghost var sid := w.handlers[j].sid;
      assert Book().Homed(sid, a);
      hide Ledger.Accounts, RssmState.SparesBut, AllSpare, RssmWorker.Valid;
      features := w.Commit(j);
      Moved(a, sid, live - {sid});
    }

    /** The call arrives and its handler begins, or it is refused or lost. */
    method Send(a: Address, sid: Sid, op: Op) returns (r: Option<nat>)
      requires Valid() && sid in live && Book().Homed(sid, a) && (a in workers ==> AtWork(State()[a], sid, {}))
      modifies `pending, workers.Values
      ensures Valid() && AllSpare(live - {sid}, old(State()), State())
      ensures r.Some? ==>
                && a in workers && sid !in old(State())[a].dropped
                && var from := rssm.Start(Lookup(old(State())[a], sid), op);
                   from.Some? && Pending(State()[a], r.value, sid, op, from.value)
    {
      hide Ledger.Accounts, AllSpare, RssmState.Spares, RssmWorker.Valid, RssmWorker.State, AtWork, BegunFrom, Lookup,
           Rssm.Start, Pending, RssmState.Consistent;
      ghost var s0 := State();
      AllSpareReflexive(live - {sid}, s0);
      if a in workers {
        ConsistentAt(a);
      }
      Wait(sid, s0);
      ghost var s1 := State();
      // The hypothesis: an observation for a session its worker has dropped is never answered.
      var lost: bool := *;
      if lost || a !in workers || (op.Observe? && sid in workers[a].dropped) {
        return None;
      }
      var begun := BeginOwn(a, sid, op);
      AllSpareTransitive(live - {sid}, s0, s1, State());
      if begun.Err? {
        return None;
      }
      SparedAtWork(live, s0, s1, a, sid);
      BegunIsPending(s1[a], State()[a], begun.value, sid, op, rssm);
      return Some(begun.value);
    }

    /** The executor gets to the call's handler. */
    method Execute(a: Address, j: nat, ghost sid: Sid, ghost op: Op, ghost from: Latent, ghost s0: States)
      requires Valid() && sid in live && a in workers && AllSpare(live - {sid}, s0, State())
      requires Pending(State()[a], j, sid, op, from)
      modifies `pending, workers.Values
      ensures Valid() && AllSpare(live - {sid}, s0, State()) && Computed(State()[a], j, sid, rssm.Step(from, op))
    {
      hide Ledger.Accounts, AllSpare, RssmState.Spares, AtWork, Computed, RanFrom;
      ghost var s1 := State();
      Wait(sid, s0);
      ghost var s2 := State();
      SparedAt(live, s1, s2, a);
      PendingWhenSpared(s1[a], s2[a], live, j, sid, op, from);
      RunOwn(a, j);
      AllSpareTransitive(live - {sid}, s0, s2, State());
      RanIsComputed(s2[a], State()[a], j, sid, op, from, rssm);
    }

    /** The call's handler commits and answers; the answer may still be a while under way. */
    method Answer(a: Address, j: nat, ghost sid: Sid, ghost to: Latent, ghost s0: States) returns (features: Tensor)
      requires Valid() && sid in live && a in workers && AllSpare(live - {sid}, s0, State())
      requires Computed(State()[a], j, sid, to)
      modifies `pending, workers.Values
      ensures Valid() && AllSpare(live - {sid}, s0, State())
      ensures features == rssm.features(to) && Stands(State()[a], sid, Some(to)) && AtWork(State()[a], sid, {})
    {
      hide Ledger.Accounts, AllSpare, RssmState.Spares, AtWork, CommittedFrom, Lookup, Stands, RssmState.Consistent;
      ghost var s1 := State();
      Wait(sid, s0);
      ghost var s2 := State();
      SparedAt(live, s1, s2, a);
      ComputedWhenSpared(s1[a], s2[a], live, j, sid, to);
      features := CommitOwn(a, j);
      ghost var s3 := State();
      AllSpareTransitive(live - {sid}, s0, s2, s3);
      CommittedStands(s2[a], s3[a], j, sid, to);
      ConsistentAt(a);
      Wait(sid, s0);
      SparedAt(live, s3, State(), a);
      StandsWhenSpared(s3[a], State()[a], live, sid, Some(to));
      AtWorkWhenSpared(s3[a], State()[a], live, sid, {});
    }

    /** The call with everything that may happen meanwhile; the caller may tire of it at any point. */
    method Attempt(a: Address, sid: Sid, op: Op) returns (r: Option<Tensor>)
      requires Valid() && sid in live && Book().Homed(sid, a) && (a in workers ==> AtWork(State()[a], sid, {}))
      modifies `pending, workers.Values
      ensures Valid() && AllSpare(live - {sid}, old(State()), State())
      ensures r.Some? ==>
                && a in workers && sid !in old(State())[a].dropped
                && var to := rssm.Apply(Lookup(old(State())[a], sid), op);
                   && to.Some? && r.value == rssm.features(to.value)
                   && Stands(State()[a], sid, to) && AtWork(State()[a], sid, {})
    {
      hide Ledger.Accounts, AllSpare, AtWork, Pending, Computed, Lookup, Stands, Rssm.Start, Rssm.Step;
      ghost var s0 := State();
      var sent := Send(a, sid, op);
      var tired: bool := *;
      if sent.None? || tired {
        return None;
      }
      ghost var from := rssm.Start(Lookup(s0[a], sid), op).value;
      Execute(a, sent.value, sid, op, from, s0);
      tired := *;
      if tired {
        return None;
      }
      var features := Answer(a, sent.value, sid, rssm.Step(from, op), s0);
      return Some(features);
    }

    lemma IdleAtWork(a: Address, sid: Sid)
      requires Idle() && sid in live && a in workers
      ensures AtWork(State()[a], sid, {})
    {
    }

    lemma IdleAgain(a: Address, sid: Sid, s0: States)
      requires Valid() && Quiet(live, s0) && AllSpare(live - {sid}, s0, State()) && sid in live && Book().Homed(sid, a)
      requires a in workers && AtWork(State()[a], sid, {})
      ensures Idle()
    {
      hide AllSpare;
      QuietWhenSpared(live, live - {sid}, s0, State());
    }

    /** The client gives an id up; a message about it may still be under way. */
    method Abandon(m: Message, ghost s0: States)
      requires Valid() && Book().Homed(m.Target(), m.address) && Quiet(live, s0)
               && AllSpare(live - {m.Target()}, s0, State())
      modifies `live, `pending
      ensures Valid() && Idle() && live == old(live) - {m.Target()} && State() == old(State())
    {
      hide AllSpare, Ledger.Accounts, WorkersValid, State, Quiet;
      QuietWhenSpared(live, live - {m.Target()}, s0, State());
      Book().AccountsGivenUp(State(), m.Target());
      live := live - {m.Target()};
      if * {
        Book().AccountsSent(State(), m);
        pending := pending + [m];
      }
    }

    /** A call of `observe` or `imagine` on a session that stands at `from`. An id whose call fails is
        given up; an answered call has been applied exactly once. */
    method Call(a: Address, sid: Sid, op: Op, ghost from: Option<Latent>) returns (r: Option<Tensor>)
      requires Valid() && Idle() && Now().At(sid, a, from)
      modifies `pending, `live, workers.Values, journal`failed
      ensures Valid() && Idle() && old(Now()).Leads({sid}, Now())
      ensures journal.failed == if r.Some? then old(journal.failed) else old(journal.failed) + 1
      ensures r.None? ==> sid !in live && Now().Issued(sid, a)
      ensures r.Some? ==>
                var to := rssm.Apply(from, op);
                to.Some? && r.value == rssm.features(to.value) && Now().At(sid, a, to)
    {
      hide Ledger.Accounts, AllSpare, WorkersValid, RssmWorker.State, AtWork, Lookup, Rssm.Apply, Quiet;
      ghost var s0 := State();
      if a in workers {
        IdleAtWork(a, sid);
      }
      r := Attempt(a, sid, op);
      var tired: bool := *;
      if r.None? || tired {
        Abandon(Request(a, sid, op), s0);
        r := None;
      } else {
        IdleAgain(a, sid, s0);
      }
      label Over:
      journal.Note(r.Some?);
      Untouched@Over();
    }

    /** The client hands out a new id for a worker. Nobody has ever used it. */
    method HandOut(a: Address) returns (sid: Sid)
      requires Valid()
      modifies `live, `home, `issued
      ensures Valid() && (old(Idle()) ==> Idle()) && old(Now()).Leads({}, Now())
      ensures sid !in old(live) && live == old(live) + {sid} && State() == old(State())
      ensures NeverSeen(State(), sid) && Now().At(sid, a, None) && Now().Rests(sid, a, None)
    {
      hide Ledger.Accounts, WorkersValid, State, NeverSeen, Quiet;
      Book().AccountsHandedOut(State(), issued, a);
      AllSpareReflexive(live - {}, State());
      BlankStands(State(), Sid(client, issued), a);
      if Idle() {
        QuietWhenHandedOut(live, State(), Sid(client, issued));
      }
      sid := Sid(client, issued);
      live, home, issued := live + {sid}, home[issued := a], issued + 1;
    }

    /** A call of `fork`. The parent's session is only read; the child's is made whole or not at all. */
    method Fork(a: Address, parent: Sid, child: Sid, ghost from: Option<Latent>) returns (ok: bool)
      requires Valid() && Idle() && Now().At(parent, a, from)
      requires child in live && parent != child && NeverSeen(State(), child) && Now().Issued(child, a)
      modifies `pending, `live, workers.Values, journal`forked
      ensures journal.forked == old(journal.forked) + [(parent, child, ok)]
      ensures Valid() && Idle() && old(Now()).Leads({child}, Now())
      ensures if ok then from.Some? && Now().At(child, a, from) else child !in live
    {
      hide Ledger.Accounts, AllSpare, WorkersValid, RssmWorker.State, AtWork, Lookup, Quiet, NeverSeen;
      ghost var s0 := State();
      AllSpareReflexive(live - {child}, s0);
      ok := TryFork(a, parent, child);
      var tired: bool := *;
      if !ok || tired {
        Abandon(Forking(a, parent, child), s0);
        ok := false;
      } else {
        IdleAgain(a, child, s0);
      }
      label Over:
      journal.NoteForked(parent, child, ok);
      Untouched@Over();
    }

    method TryFork(a: Address, parent: Sid, child: Sid) returns (ok: bool)
      requires Valid() && Idle() && {parent, child} <= live && parent != child && NeverSeen(State(), child)
      requires Book().Homed(parent, a) && Book().Homed(child, a)
      modifies `pending, workers.Values
      ensures Valid() && AllSpare(live - {child}, old(State()), State())
      ensures ok ==>
                && a in workers && parent !in old(State())[a].dropped && AtWork(State()[a], child, {})
                && Lookup(old(State())[a], parent).Some? && Stands(State()[a], child, Lookup(old(State())[a], parent))
    {
      hide Ledger.Accounts, AllSpare, RssmState.Spares, RssmWorker.Valid, RssmWorker.State, AtWork, Lookup, Stands,
           NeverSeen, RssmState.Consistent, Quiet;
      ghost var s0 := State();
      AllSpareReflexive(live - {child}, s0);
      if a in workers {
        ConsistentAt(a);
        IdleAtWork(a, parent);
      }
      Wait(child, s0);
      ghost var s1 := State();
      var lost: bool := *;
      if lost || a !in workers {
        return false;
      }
      SparedAtWork(live, s0, s1, a, parent);
      NeverSeenWhenSpared(live, s0, s1, child);
      ok := ForkOwn(a, parent, child);
      ghost var s2 := State();
      AllSpareTransitive(live - {child}, s0, s1, s2);
      ConsistentAt(a);
      Wait(child, s0);
      SparedAt(live, s2, State(), a);
      if ok {
        StandsWhenSpared(s2[a], State()[a], live, child, Lookup(s0[a], parent));
        AtWorkWhenSpared(s2[a], State()[a], live, child, {});
      }
    }

    method ForkOwn(a: Address, parent: Sid, child: Sid) returns (ok: bool)
      requires Valid() && a in workers && {parent, child} <= live && NeverSeen(State(), child) && Book().Homed(child, a)
      modifies workers[a]
      ensures Valid() && AllSpare(live - {child}, old(State()), State())
      ensures ok ==>
                && parent !in old(State())[a].dropped && AtWork(State()[a], child, {})
                && Lookup(old(State())[a], parent).Some? && Stands(State()[a], child, Lookup(old(State())[a], parent))
    {
      assert parent in workers[a].dropped ==> parent !in workers[a].sessions;
      assert child !in State()[a].dropped;
      hide Ledger.Accounts, RssmState.SparesBut, AllSpare, RssmWorker.Valid, Lookup;
      var now: int := *;
      var forked := workers[a].Fork(parent, child, now);
      Moved(a, child, live - {child});
      return forked.Ok?;
    }

    /** The closing call. Only one that is answered is known to have happened. */
    method Close(a: Address, sid: Sid) returns (ok: bool)
      requires Valid() && Idle() && sid in live && Now().Issued(sid, a)
      modifies `pending, `live, workers.Values, journal`closed
      ensures journal.closed == old(journal.closed) + [(a, sid)]
      ensures Valid() && Idle() && sid !in live && old(Now()).Leads({sid}, Now())
      ensures ok ==> forall b :: b in workers ==> sid !in State()[b].sessions
    {
      hide Ledger.Accounts, AllSpare, WorkersValid, RssmWorker.State, Quiet;
      ghost var s0 := State();
      AllSpareReflexive(live - {sid}, s0);
      ok := TryClose(a, sid, s0);
      Abandon(Closing(a, sid), s0);
      label Over:
      journal.NoteClosed(a, sid);
      Untouched@Over();
    }

    method TryClose(a: Address, sid: Sid, ghost s0: States) returns (ok: bool)
      requires Valid() && sid in live && Book().Homed(sid, a) && AllSpare(live - {sid}, s0, State())
      modifies `pending, workers.Values
      ensures Valid() && AllSpare(live - {sid}, s0, State())
      ensures ok ==> forall b :: b in workers ==> sid !in State()[b].sessions
    {
      hide Ledger.Accounts, AllSpare, RssmWorker.Valid, RssmWorker.State;
      Wait(sid, s0);
      ghost var s1 := State();
      var lost: bool := *;
      if lost || a !in workers {
        return false;
      }
      CloseOwn(a, sid);
      ghost var s2 := State();
      AllSpareTransitive(live - {sid}, s0, s1, s2);
      Wait(sid, s0);
      AbsentWhenSpared(live, s2, State(), sid);
      ok := *;
    }

    method CloseOwn(a: Address, sid: Sid)
      requires Valid() && a in workers && sid in live && Book().Homed(sid, a)
      modifies workers[a]
      ensures Valid() && AllSpare(live - {sid}, old(State()), State())
      ensures forall b :: b in workers ==> sid !in State()[b].sessions
    {
      assert forall b :: b in workers && b != a ==> sid !in workers[b].sessions;
      hide Ledger.Accounts, RssmState.SparesBut, AllSpare, RssmWorker.Valid;
      workers[a].Close(sid);
      Moved(a, sid, live - {sid});
    }

    /** The closing call for an id the client has given up already. Nothing is known of what comes of it. */
    method CloseDead(a: Address, sid: Sid)
      requires Valid() && Idle() && sid !in live && Now().Issued(sid, a)
      modifies `pending, journal`closed
      ensures journal.closed == old(journal.closed) + [(a, sid)]
      ensures Valid() && Idle() && old(Now()).Leads({}, Now())
    {
      hide AllSpare, Ledger.Accounts, WorkersValid, State, Quiet;
      AllSpareReflexive(live - {}, State());
      Book().AccountsSent(State(), Closing(a, sid));
      pending := pending + [Closing(a, sid)];
      label Over:
      journal.NoteClosed(a, sid);
      Untouched@Over();
    }

    /* ---------- Calls that overlap with others of the client, one part at a time ---------- */

    /** Time passes. */
    method Drift()
      requires Valid()
      modifies `pending, workers.Values
      ensures Valid() && old(Now()).Leads({}, Now())
    {
      hide AllSpare, Ledger.Accounts, WorkersValid, State;
      ghost var s0 := State();
      Interfere();
      AllSpareWeaken(live, live - {}, s0, State());
    }

    /** The call arrives and its handler begins; None if it is refused or lost. */
    method PartBegin(a: Address, sid: Sid, op: Op, ghost from: Option<Latent>) returns (p: Option<Progress>)
      requires Valid() && Now().Doing(sid, a, Unsent, from, op, rssm)
      modifies `pending, workers.Values
      ensures Valid() && old(Now()).Leads({sid}, Now())
      ensures p.Some? ==> Now().Doing(sid, a, p.value, from, op, rssm)
    {
      hide Ledger.Accounts, AllSpare, RssmWorker.Valid, AtWork, BegunFrom, Lookup, Rssm.Start, Pending;
      ghost var s0 := State();
      AllSpareReflexive(live - {sid}, s0);
      // The hypothesis: an observation for a session its worker has dropped is never answered.
      var lost: bool := *;
      if lost || a !in workers || (op.Observe? && sid in workers[a].dropped) {
        return None;
      }
      var begun := BeginOwn(a, sid, op);
      if begun.Err? {
        return None;
      }
      BegunIsPending(s0[a], State()[a], begun.value, sid, op, rssm);
      return Some(Begun(begun.value));
    }

    /** The executor gets to the handler. */
    method PartRun(a: Address, sid: Sid, op: Op, j: nat, ghost from: Option<Latent>)
      requires Valid() && Now().Doing(sid, a, Begun(j), from, op, rssm)
      modifies `pending, workers.Values
      ensures Valid() && old(Now()).Leads({sid}, Now()) && Now().Doing(sid, a, Ran(j), from, op, rssm)
    {
      hide Ledger.Accounts, AllSpare, RssmWorker.Valid, AtWork, RanFrom, Computed, Rssm.Start, Rssm.Step;
      ghost var s0 := State();
      RunOwn(a, j);
      RanIsComputed(s0[a], State()[a], j, sid, op, rssm.Start(from, op).value, rssm);
    }

    /** The handler commits and answers. */
    method PartCommit(a: Address, sid: Sid, ghost op: Op, j: nat, ghost from: Option<Latent>) returns (features: Tensor)
      requires Valid() && Now().Doing(sid, a, Ran(j), from, op, rssm)
      modifies `pending, workers.Values
      ensures Valid() && old(Now()).Leads({sid}, Now())
      ensures var to := rssm.Apply(from, op); to.Some? && features == rssm.features(to.value) && Now().Rests(sid, a, to)
    {
      hide Ledger.Accounts, AllSpare, RssmWorker.Valid, AtWork, CommittedFrom, Stands, Rssm.Apply;
      ghost var s0 := State();
      features := CommitOwn(a, j);
      CommittedStands(s0[a], State()[a], j, sid, rssm.Apply(from, op).value);
    }

    /** The client gives an id up, whatever else it is doing; a message about it may still be under way. */
    method Disown(m: Message)
      requires Valid() && Now().Issued(m.Target(), m.address)
      modifies `live, `pending
      ensures Valid() && old(Now()).Leads({m.Target()}, Now())
      ensures m.Target() !in live && Now().Issued(m.Target(), m.address)
    {
      hide AllSpare, Ledger.Accounts, WorkersValid, State;
      AllSpareReflexive(live - {m.Target()}, State());
      Book().AccountsGivenUp(State(), m.Target());
      live := live - {m.Target()};
      if * {
        Book().AccountsSent(State(), m);
        pending := pending + [m];
      }
    }

    /** A call fails, and its id is given up. */
    method GiveUp(m: Message)
      requires Valid() && Now().Issued(m.Target(), m.address)
      modifies `live, `pending, journal`failed
      ensures journal.failed == old(journal.failed) + 1
      ensures Valid() && old(Now()).Leads({m.Target()}, Now())
      ensures m.Target() !in live && Now().Issued(m.Target(), m.address)
    {
      hide Valid, Idle, Moment.Leads, Moment.Issued, State, Book;
      Disown(m);
      label Over:
      journal.Note(false);
      Untouched@Over();
    }

    /** The registry's answer. */
    method Servers() returns (rows: Option<seq<ServerInfo>>)
      modifies journal`lookups
      ensures journal.lookups == old(journal.lookups) + 1
      ensures rows == journal.Last() == journal.registry(old(journal.lookups))
      ensures journal.Failures() == if rows.Some? then old(journal.Failures()) else old(journal.Failures()) + 1
    {
      rows := journal.Servers();
    }
  }
}
