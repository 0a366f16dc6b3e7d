/** dvlm/dreamer/server.py: a worker that keeps one recurrent latent state per session.

    The handlers of `observe` and `imagine` await the executor in their middle, like `forward` does,
    and hold on to the session's list meanwhile: the table and every such handler share it. So the
    lists live in `cells`, numbered, and the table and the handlers refer to them by number. */
module RssmServer {
  import opened Wrappers
  import opened Ids

  /** A tensor, one row per environment of the batch. */
  type Tensor = seq<seq<real>>

  datatype Latent = Latent(h: Tensor, z: Tensor)

  datatype Op =
    | Observe(embed: Tensor, action: Tensor, isFirst: Tensor, seed: int)
    | Imagine(action: Tensor, seed: int)

  /** The recurrent model. All sampling takes its seed as an argument. */
  datatype Rssm = Rssm(
    initial: nat -> Latent,
    obsStep: (Latent, Tensor, Tensor, Tensor, int) -> Latent,
    imgStep: (Latent, Tensor, int) -> Latent,
    features: Latent -> Tensor)
  {
    function Step(s: Latent, op: Op): Latent {
      match op
      case Observe(embed, action, isFirst, seed) => obsStep(s, action, embed, isFirst, seed)
      case Imagine(action, seed) => imgStep(s, action, seed)
    }

    /** Where an operation starts from: `observe` opens a missing session, `imagine` does not. */
    function Start(s: Option<Latent>, op: Op): Option<Latent> {
      match s
      case Some(_) => s
      case None => if op.Observe? then Some(initial(|op.embed|)) else None
    }

    function Apply(s: Option<Latent>, op: Op): Option<Latent> {
      match Start(s, op)
      case None => None
      case Some(from) => Some(Step(from, op))
    }

    /** The state after a log of operations on a fresh session. */
    function Fold(ops: seq<Op>): Option<Latent>
      decreases |ops|
    {
      if ops == [] then None else Apply(Fold(ops[..|ops| - 1]), ops[|ops| - 1])
    }

    lemma FoldNext(ops: seq<Op>, op: Op)
      ensures Fold(ops + [op]) == Apply(Fold(ops), op)
    {
      assert (ops + [op])[..|ops|] == ops;
    }

    /** An observation moves the session's state, or the initial one for its batch, by the model's `obsStep`. */
    lemma FoldObserve(ops: seq<Op>, embed: Tensor, action: Tensor, isFirst: Tensor, seed: int)
      ensures Fold(ops + [Observe(embed, action, isFirst, seed)]) ==
                Some(obsStep(Fold(ops).GetOr(initial(|embed|)), action, embed, isFirst, seed))
    {
      FoldNext(ops, Observe(embed, action, isFirst, seed));
    }

    /** A dreamt action moves the session's state by `imgStep`; without a state there is nothing to move. */
    lemma FoldImagine(ops: seq<Op>, action: Tensor, seed: int)
      ensures Fold(ops + [Imagine(action, seed)]) ==
                if Fold(ops).None? then None else Some(imgStep(Fold(ops).value, action, seed))
    {
      FoldNext(ops, Imagine(action, seed));
    }
  }

  datatype Cell = Cell(sid: Sid, latent: Latent)

  datatype Row = Row(cell: nat, lastUsed: int)

  datatype Handler =
    | Waiting(sid: Sid, cell: nat, op: Op)
    | Finished(sid: Sid, cell: nat, latent: Latent)

  datatype RssmError = AtCapacity | UnknownSession

  /** All a worker holds, as a value. */
  datatype RssmState = RssmState(cells: map<nat, Cell>, sessions: map<Sid, Row>, handlers: map<nat, Handler>,
                                 dropped: set<Sid>) {
    predicate Consistent() {
      && (forall s :: s in sessions ==> sessions[s].cell in cells && cells[sessions[s].cell].sid == s)
      && (forall j :: j in handlers ==> handlers[j].cell in cells && cells[handlers[j].cell].sid == handlers[j].sid)
    }

    /** Up to `later`, nothing that belongs to the ids in `live` was touched, except that sessions may
        have been dropped, and apart from when they were last used. */
    ghost predicate Spares(live: set<Sid>, later: RssmState) {
      && dropped <= later.dropped
      && (forall s :: s in later.sessions && s !in sessions ==> s !in live)
      && (forall s :: s in later.dropped && s !in dropped && s in live ==> s in sessions && s !in later.sessions)
      && (forall s :: s in sessions && s in live && s !in later.dropped ==>
            s in later.sessions && later.sessions[s].cell == sessions[s].cell)
      && (forall j :: j in later.handlers && (j !in handlers || handlers[j].sid !in live) ==>
                later.handlers[j].sid !in live)
      && (forall j :: j in handlers && handlers[j].sid in live ==>
                j in later.handlers && later.handlers[j] == handlers[j])
      && (forall c :: c in cells && cells[c].sid in live ==> c in later.cells && later.cells[c] == cells[c])
    }

    /** The same, for every id but one. */
    ghost predicate SparesBut(sid: Sid, later: RssmState) {
      && dropped <= later.dropped
      && (forall s :: s in later.sessions && s !in sessions ==> s == sid)
      && (forall s :: s in later.dropped && s !in dropped && s != sid ==> s in sessions && s !in later.sessions)
      && (forall s :: s in sessions && s != sid && s !in later.dropped ==>
            s in later.sessions && later.sessions[s].cell == sessions[s].cell)
      && (forall j :: j in later.handlers && (j !in handlers || handlers[j].sid == sid) ==>
                later.handlers[j].sid == sid)
      && (forall j :: j in handlers && handlers[j].sid != sid ==>
                j in later.handlers && later.handlers[j] == handlers[j])
      && (forall c :: c in cells && cells[c].sid != sid ==> c in later.cells && later.cells[c] == cells[c])
    }
  }

  lemma SparesTransitive(a: RssmState, b: RssmState, c: RssmState, live: set<Sid>)
    requires a.Spares(live, b) && b.Spares(live, c)
    ensures a.Spares(live, c)
  {
  }

  lemma SparesButTransitive(a: RssmState, b: RssmState, c: RssmState, sid: Sid)
    requires a.SparesBut(sid, b) && b.SparesBut(sid, c)
    ensures a.SparesBut(sid, c)
  {
  }

  lemma OthersAreSpared(a: RssmState, b: RssmState, sid: Sid, live: set<Sid>)
    requires a.SparesBut(sid, b) && sid !in live
    ensures a.Spares(live, b)
  {
  }

  /** What a worker holds for a session. */
  function Lookup(w: RssmState, sid: Sid): Option<Latent> {
    if sid in w.sessions && w.sessions[sid].cell in w.cells then Some(w.cells[w.sessions[sid].cell].latent) else None
  }

  /** `w'` is `w` after the operation has begun as handler j: it works on the session's own list. */
  ghost predicate BegunFrom(w: RssmState, w': RssmState, j: nat, sid: Sid, op: Op, rssm: Rssm) {
    && sid in w'.sessions && w'.sessions[sid].cell in w'.cells && w'.cells[w'.sessions[sid].cell].sid == sid
    && w'.handlers == w.handlers[j := Waiting(sid, w'.sessions[sid].cell, op)]
    && Lookup(w', sid) == rssm.Start(Lookup(w, sid), op)
  }

  /** `w'` is `w` after handler j's operation has run on what its list held at that moment. */
  ghost predicate RanFrom(w: RssmState, w': RssmState, j: nat, rssm: Rssm) {
    && j in w.handlers && w.handlers[j].Waiting? && w.handlers[j].cell in w.cells
    && var h := w.handlers[j];
       w' == w.(handlers := w.handlers[j := Finished(h.sid, h.cell, rssm.Step(w.cells[h.cell].latent, h.op))])
  }

  /** `w'` is `w` after handler j has written its list and answered. */
  ghost predicate CommittedFrom(w: RssmState, w': RssmState, j: nat) {
    && j in w.handlers && w.handlers[j].Finished?
    && var h := w.handlers[j];
       w' == w.(handlers := w.handlers - {j}, cells := w.cells[h.cell := Cell(h.sid, h.latent)])
  }

  /** No handler other than those in `js` is at work for the id. */
  ghost predicate AtWork(w: RssmState, sid: Sid, js: set<nat>) {
    forall i :: i in w.handlers && w.handlers[i].sid == sid ==> i in js
  }

  /** The session's list is number c, unless the worker dropped the session. */
  ghost predicate Keeps(w: RssmState, sid: Sid, c: nat) {
    sid !in w.dropped ==> sid in w.sessions && w.sessions[sid].cell == c
  }

  /** Handler j, alone, waits to run `op` on the session, which stands at `from`. */
  ghost predicate Pending(w: RssmState, j: nat, sid: Sid, op: Op, from: Latent) {
    && j in w.handlers && AtWork(w, sid, {j}) && w.handlers[j] == Waiting(sid, w.handlers[j].cell, op)
    && w.handlers[j].cell in w.cells && w.cells[w.handlers[j].cell] == Cell(sid, from)
    && Keeps(w, sid, w.handlers[j].cell)
  }

  /** Handler j, alone, is about to move the session to `to`. */
  ghost predicate Computed(w: RssmState, j: nat, sid: Sid, to: Latent) {
    && j in w.handlers && AtWork(w, sid, {j}) && w.handlers[j] == Finished(sid, w.handlers[j].cell, to)
    && w.handlers[j].cell in w.cells && w.cells[w.handlers[j].cell].sid == sid
    && Keeps(w, sid, w.handlers[j].cell)
  }

  /** The worker holds `s` for the session, unless it dropped it. */
  ghost predicate Stands(w: RssmState, sid: Sid, s: Option<Latent>) {
    sid in w.dropped || Lookup(w, sid) == s
  }

  lemma StandsWhenSpared(w: RssmState, w': RssmState, live: set<Sid>, sid: Sid, s: Option<Latent>)
    requires w.Spares(live, w') && sid in live && w.Consistent() && Stands(w, sid, s)
    ensures Stands(w', sid, s)
  {
  }

  lemma AtWorkWhenSpared(w: RssmState, w': RssmState, live: set<Sid>, sid: Sid, js: set<nat>)
    requires w.Spares(live, w') && sid in live && AtWork(w, sid, js)
    ensures AtWork(w', sid, js)
  {
  }

  lemma BegunIsPending(w: RssmState, w': RssmState, j: nat, sid: Sid, op: Op, rssm: Rssm)
    requires BegunFrom(w, w', j, sid, op, rssm) && AtWork(w, sid, {})
    ensures rssm.Start(Lookup(w, sid), op).Some?
    ensures Pending(w', j, sid, op, rssm.Start(Lookup(w, sid), op).value)
  {
    hide Rssm.Start;
  }

  lemma PendingWhenSpared(w: RssmState, w': RssmState, live: set<Sid>, j: nat, sid: Sid, op: Op, from: Latent)
    requires Pending(w, j, sid, op, from) && w.Spares(live, w') && sid in live
    ensures Pending(w', j, sid, op, from)
  {
  }

  lemma RanIsComputed(w: RssmState, w': RssmState, j: nat, sid: Sid, op: Op, from: Latent, rssm: Rssm)
    requires Pending(w, j, sid, op, from) && RanFrom(w, w', j, rssm)
    ensures Computed(w', j, sid, rssm.Step(from, op))
  {
  }

  lemma ComputedWhenSpared(w: RssmState, w': RssmState, live: set<Sid>, j: nat, sid: Sid, to: Latent)
    requires Computed(w, j, sid, to) && w.Spares(live, w') && sid in live
    ensures Computed(w', j, sid, to)
  {
  }

  lemma CommittedStands(w: RssmState, w': RssmState, j: nat, sid: Sid, to: Latent)
    requires Computed(w, j, sid, to) && CommittedFrom(w, w', j)
    ensures Stands(w', sid, Some(to)) && AtWork(w', sid, {}) && w.handlers[j].latent == to
  {
  }

  class RssmWorker {
    const rssm: Rssm
    const maxSessions: nat
    const sessionTimeout: int
    var cells: map<nat, Cell>
    var sessions: map<Sid, Row>
    var handlers: map<nat, Handler>
    var nextHandler: nat
    var nextCell: nat
    /** Sessions this worker has dropped on its own: by timeout, or by restarting. */
    var dropped: set<Sid>

    ghost function State(): RssmState
      reads this
    {
      RssmState(cells, sessions, handlers, dropped)
    }

    ghost predicate Valid()
      reads this
    {
      && State().Consistent()
      && (forall c :: c in cells ==> c < nextCell) && (forall j :: j in handlers ==> j < nextHandler)
    }

    constructor (rssm: Rssm, maxSessions: nat, sessionTimeout: int)
      ensures this.rssm == rssm && this.maxSessions == maxSessions && this.sessionTimeout == sessionTimeout
      ensures Valid() && State() == RssmState(map[], map[], map[], {})
    {
      this.rssm, this.maxSessions, this.sessionTimeout := rssm, maxSessions, sessionTimeout;
      cells, sessions, handlers, nextHandler, nextCell, dropped := map[], map[], map[], 0, 0, {};
    }

    function ExpiredKeys(now: int): (expired: set<Sid>)
      reads this
      ensures expired <= sessions.Keys
    {
      set s | s in sessions && sessions[s].lastUsed < now - sessionTimeout
    }

    /** The table a new session would have to fit in: without its expired sessions, if it is full. */
    function Kept(now: int): map<Sid, Row>
      reads this
    {
      if |sessions| < maxSessions then sessions else sessions - ExpiredKeys(now)
    }

    /** A full table makes room by the sessions that were not used since the cutoff, and by no others. */
    lemma KeptAreUsed(now: int, s: Sid)
      ensures s in Kept(now) <==>
                s in sessions && (|sessions| < maxSessions || sessions[s].lastUsed >= now - sessionTimeout)
      ensures s in Kept(now) ==> Kept(now)[s] == sessions[s]
    {
    }

    /** The worker loses these sessions, whatever their handlers are doing. */
    method Drop(keys: set<Sid>, ghost sid: Sid)
      requires Valid() && keys <= sessions.Keys
      modifies `sessions, `dropped
      ensures Valid() && old(State()).SparesBut(sid, State())
      ensures sessions == old(sessions) - keys && dropped == old(dropped) + keys
    {
      sessions, dropped := sessions - keys, dropped + keys;
    }

    method Gc(now: int, ghost sid: Sid)
      requires Valid()
      modifies `sessions, `dropped
      ensures Valid() && old(State()).SparesBut(sid, State())
      ensures sessions == old(sessions) - old(ExpiredKeys(now)) && dropped == old(dropped) + old(ExpiredKeys(now))
      // exactly those used since the timeout's cutoff stay
      ensures forall s :: s in sessions <==> s in old(sessions) && old(sessions)[s].lastUsed >= now - sessionTimeout
    {
      Drop(ExpiredKeys(now), sid);
    }

    /** Puts a new list in the table. */
    method Put(sid: Sid, latent: Latent, now: int)
      requires Valid()
      modifies `cells, `sessions, `nextCell
      ensures Valid() && old(State()).SparesBut(sid, State())
      ensures sid in sessions && sessions[sid].cell !in old(cells)
      ensures cells == old(cells)[sessions[sid].cell := Cell(sid, latent)]
      ensures sessions == old(sessions)[sid := sessions[sid]] && Lookup(State(), sid) == Some(latent)
              && sessions[sid].lastUsed == now
    {
      cells := cells[nextCell := Cell(sid, latent)];
      sessions := sessions[sid := Row(nextCell, now)];
      nextCell := nextCell + 1;
    }

    /** The handler of `observe` or `imagine` up to its await; returns the handler's number. */
    method Begin(sid: Sid, op: Op, now: int) returns (r: Result<nat, RssmError>)
      requires Valid()
      modifies this
      ensures Valid() && old(State()).SparesBut(sid, State())
      ensures |sessions| <= if |old(sessions)| <= maxSessions then maxSessions else |old(sessions)|
      ensures (sid in dropped <==> sid in old(dropped)) && (r.Err? ==> sid !in sessions)
      ensures r.Ok? ==> r.value !in old(handlers) && BegunFrom(old(State()), State(), r.value, sid, op, rssm)
      ensures r.Ok? ==> sessions[sid].lastUsed == now
      ensures r == Err(AtCapacity) <==> op.Observe? && sid !in old(sessions) && |old(Kept(now))| >= maxSessions
      ensures r == Err(UnknownSession) <==> op.Imagine? && sid !in old(sessions)
      ensures r == Err(UnknownSession) ==> State() == old(State())
      ensures r.Ok? <==> sid in old(sessions) || (op.Observe? && |old(Kept(now))| < maxSessions)
      ensures r.Ok? && sid in old(sessions) ==> sessions == old(sessions)[sid := sessions[sid]]
      ensures r.Ok? && sid !in old(sessions) ==> sessions == old(Kept(now))[sid := sessions[sid]]
      ensures r == Err(AtCapacity) ==> sessions == old(Kept(now))
    {
      hide RssmState.SparesBut, ExpiredKeys, Kept;
      ghost var w0 := State();
      SparesButReflexive(w0, sid);
      if sid !in sessions {
        if op.Imagine? {
          return Err(UnknownSession);
        }
        var ok := Admit(sid, rssm.initial(|op.embed|), now);
        if !ok {
          return Err(AtCapacity);
        }
      }
      ghost var w1 := State();
      var j := Enlist(sid, op, now);
      SparesButTransitive(w0, w1, State(), sid);
      return Ok(j);
    }

    /** Opens a session unless the table is full even after expired ones have gone. */
    method Admit(sid: Sid, latent: Latent, now: int) returns (ok: bool)
      requires Valid() && sid !in sessions
      modifies `cells, `sessions, `nextCell, `dropped
      ensures Valid() && old(State()).SparesBut(sid, State())
      ensures |sessions| <= if |old(sessions)| <= maxSessions then maxSessions else |old(sessions)|
      ensures ok <==> |old(Kept(now))| < maxSessions
      ensures ok ==> sid in sessions && sessions == old(Kept(now))[sid := sessions[sid]]
      ensures !ok ==> sid !in sessions && sessions == old(Kept(now))
      ensures sid in dropped <==> sid in old(dropped)
      ensures ok ==> Lookup(State(), sid) == Some(latent)
    {
      hide RssmState.SparesBut, ExpiredKeys;
      ghost var w0 := State();
      SparesButReflexive(w0, sid);
      if |sessions| >= maxSessions {
        Gc(now, sid);
        if |sessions| >= maxSessions {
          return false;
        }
      }
      ghost var w1 := State();
      Put(sid, latent, now);
      SparesButTransitive(w0, w1, State(), sid);
      return true;
    }

    /** Marks the session used. */
    method Use(sid: Sid, now: int, ghost other: Sid)
      requires Valid() && sid in sessions
      modifies `sessions
      ensures Valid() && old(State()).SparesBut(other, State())
      ensures sessions == old(sessions)[sid := old(sessions)[sid].(lastUsed := now)]
    {
      sessions := sessions[sid := sessions[sid].(lastUsed := now)];
    }

    method Enlist(sid: Sid, op: Op, now: int) returns (j: nat)
      requires Valid() && sid in sessions
      modifies `sessions, `handlers, `nextHandler
      ensures Valid() && old(State()).SparesBut(sid, State())
      ensures sessions == old(sessions)[sid := old(sessions)[sid].(lastUsed := now)] && j !in old(handlers)
      ensures handlers == old(handlers)[j := Waiting(sid, sessions[sid].cell, op)]
      ensures Lookup(State(), sid) == Lookup(old(State()), sid)
    {
      sessions := sessions[sid := sessions[sid].(lastUsed := now)];
      j := nextHandler;
      handlers := handlers[j := Waiting(sid, sessions[sid].cell, op)];
      nextHandler := nextHandler + 1;
    }

    /** The executor's turn for handler j. */
    method Run(j: nat)
      requires Valid() && j in handlers && handlers[j].Waiting?
      modifies `handlers
      ensures Valid() && old(State()).SparesBut(old(handlers)[j].sid, State())
              && RanFrom(old(State()), State(), j, rssm)
    {
      var h := handlers[j];
      handlers := handlers[j := Finished(h.sid, h.cell, rssm.Step(cells[h.cell].latent, h.op))];
    }

    /** The rest of the handler: writes its list and answers. If the session was dropped meanwhile,
        nobody can see the list. */
    method Commit(j: nat) returns (features: Tensor)
      requires Valid() && j in handlers && handlers[j].Finished?
      modifies `handlers, `cells
      ensures Valid() && old(State()).SparesBut(old(handlers)[j].sid, State())
              && CommittedFrom(old(State()), State(), j)
      ensures features == rssm.features(old(handlers)[j].latent)
    {
      var h := handlers[j];
      cells, handlers := cells[h.cell := Cell(h.sid, h.latent)], handlers - {j};
      return rssm.features(h.latent);
    }

    /** A handler is cancelled where it stands, or its operation raises. */
    method Cancel(j: nat)
      requires Valid() && j in handlers
      modifies `handlers
      ensures Valid() && old(State()).SparesBut(old(handlers)[j].sid, State()) && handlers == old(handlers) - {j}
    {
      handlers := handlers - {j};
    }

    /** Copies a session to another id, whatever the number of sessions. */
    method Fork(sid: Sid, child: Sid, now: int) returns (r: Result<(), RssmError>)
      requires Valid()
      modifies `cells, `sessions, `nextCell
      ensures Valid() && old(State()).SparesBut(child, State())
      ensures r.Ok? <==> sid in old(sessions)
      ensures r.Ok? ==> Lookup(State(), child) == Lookup(old(State()), sid) != None
      ensures r.Ok? ==> child in sessions && sid in sessions && handlers == old(handlers)
      ensures r.Ok? && sid != child ==> sessions == old(sessions)[sid := sessions[sid]][child := sessions[child]]
      ensures r.Ok? && sid == child ==> sessions == old(sessions)[sid := sessions[sid]]
      ensures r.Ok? ==> sessions[sid].lastUsed == sessions[child].lastUsed == now
      ensures r.Err? ==> r.error == UnknownSession && State() == old(State())
    {
      hide RssmState.SparesBut;
      ghost var w0 := State();
      SparesButReflexive(w0, child);
      if sid !in sessions {
        return Err(UnknownSession);
      }
      Use(sid, now, child);
      ghost var w1 := State();
      Put(child, cells[sessions[sid].cell].latent, now);
      SparesButTransitive(w0, w1, State(), child);
      return Ok(());
    }

    method Close(sid: Sid)
      requires Valid()
      modifies `sessions
      ensures Valid() && old(State()).SparesBut(sid, State()) && sessions == old(sessions) - {sid}
    {
      sessions := sessions - {sid};
    }
  }

  lemma SparesButReflexive(w: RssmState, sid: Sid)
    ensures w.SparesBut(sid, w)
  {
  }
}
