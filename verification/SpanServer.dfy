/** dvlm/server.py: a worker that serves a span of layers with one KV cache per (session, entry layer).

    The handler of `forward` awaits the executor in its middle, so it is three atomic parts here:
    `Begin` looks the session up and reads how many tokens it has seen, `Run` is the executor's
    turn, and `Commit` advances the length and answers. A handler between two parts sits in
    `handlers` with its local variables, and any other part of any handler may run meanwhile. */
module SpanServer {
  import opened Wrappers
  import opened Ids
  import opened Decoder

  /** A row of the session table. Its cache is an object that running handlers share. */
  datatype Session = Session(cache: KVCache, start: nat, end: nat, length: nat, lastUsed: int)

  datatype ServerError = AtCapacity | RangeMismatch | LengthMismatch | LayersFailed(cause: ForwardError)

  /** A `forward` handler that has begun: it waits for the executor, or the executor has answered. */
  datatype Handler =
    | Waiting(key: Key, cache: KVCache, x: Tokens, past: nat, end: nat)
    | Finished(key: Key, cache: KVCache, count: nat, out: seq<Hidden>)

  /** The session table, and the keys the worker has dropped from it on its own. */
  datatype Table = Table(sessions: map<Key, Session>, dropped: set<Key>) {
    /** Up to `later` only sessions of `sid` changed, except that sessions may have been dropped. */
    ghost predicate KeptBut(sid: Sid, later: Table) {
      && dropped <= later.dropped
      && (forall k: Key :: k in later.sessions && k !in sessions ==> k.sid == sid)
      && (forall k: Key :: k in sessions && k.sid != sid && k !in later.dropped ==>
            k in later.sessions && later.sessions[k] == sessions[k])
    }
  }

  lemma KeptTransitive(a: Table, b: Table, c: Table, sid: Sid)
    requires a.KeptBut(sid, b) && b.KeptBut(sid, c)
    ensures a.KeptBut(sid, c)
  {
  }

  /** Only handlers of `sid` changed. */
  ghost predicate HandlersKept(sid: Sid, before: map<nat, Handler>, after: map<nat, Handler>) {
    && (forall j :: j in after && (j !in before || before[j].key.sid == sid) ==> after[j].key.sid == sid)
    && (forall j :: j in before && before[j].key.sid != sid ==> j in after && after[j] == before[j])
  }

  lemma KeptReflexive(t: Table, sid: Sid, hs: map<nat, Handler>)
    ensures t.KeptBut(sid, t) && HandlersKept(sid, hs, hs)
  {
  }

  lemma KeptChanged(t: Table, k: Key, row: Session)
    ensures t.KeptBut(k.sid, t.(sessions := t.sessions[k := row]))
  {
  }

  lemma HandlersDropped(hs: map<nat, Handler>, j: nat)
    requires j in hs
    ensures HandlersKept(hs[j].key.sid, hs, hs - {j})
  {
  }

  lemma HandlersSet(hs: map<nat, Handler>, j: nat, h: Handler)
    requires j in hs ==> hs[j].key.sid == h.key.sid
    ensures HandlersKept(h.key.sid, hs, hs[j := h])
  {
  }

  lemma HandlersTransitive(a: map<nat, Handler>, b: map<nat, Handler>, c: map<nat, Handler>, sid: Sid)
    requires HandlersKept(sid, a, b) && HandlersKept(sid, b, c)
    ensures HandlersKept(sid, a, c)
  {
  }

  /** All a worker holds, as a value. */
  datatype WorkerState = WorkerState(sessions: map<Key, Session>, handlers: map<nat, Handler>, dropped: set<Key>,
                                     contents: map<KVCache, seq<seq<KeyValue>>>) {
    /** Up to `later`, nothing that belongs to the ids in `live` was touched, except that sessions
        may have been dropped. */
    ghost predicate Spares(live: set<Sid>, later: WorkerState) {
      && dropped <= later.dropped && contents.Keys <= later.contents.Keys
      && (forall k :: k in later.sessions && k !in sessions ==> k.sid !in live)
      && (forall k :: k in sessions && k.sid in live && k !in later.dropped ==>
            k in later.sessions && later.sessions[k] == sessions[k])
      && (forall j :: j in later.handlers && (j !in handlers || handlers[j].key.sid !in live) ==>
            later.handlers[j].key.sid !in live)
      && (forall j :: j in handlers && handlers[j].key.sid in live ==>
            j in later.handlers && later.handlers[j] == handlers[j])
      && (forall c :: c in contents && c.key.sid in live ==> later.contents[c] == contents[c])
    }
  }

  /** In `w'` there is a session for `key` as it was in `w`, or new. */
  ghost predicate RowFor(w: WorkerState, w': WorkerState, key: Key, end: nat, size: nat) {
    && key in w'.sessions && w'.sessions[key].cache in w'.contents
    && var s := w'.sessions[key];
       && s.start == key.start && s.end == end && s.cache.key == key
       && (if key in w.sessions
           then s.cache == w.sessions[key].cache && s.length == w.sessions[key].length
                && s.cache in w.contents && w'.contents[s.cache] == w.contents[s.cache]
           else s.length == 0 && w'.contents[s.cache] == seq(size, i => []))
  }

  /** `w'` is `w` after a forward over `key` has begun as handler j. */
  ghost predicate BegunFrom(w: WorkerState, w': WorkerState, j: nat, key: Key, x: Tokens, end: nat, size: nat) {
    && RowFor(w, w', key, end, size)
    && var s := w'.sessions[key]; w'.handlers == w.handlers[j := Waiting(key, s.cache, x, s.length, end)]
  }

  lemma EnteredRow(w: WorkerState, w': WorkerState, key: Key, end: nat, size: nat)
    requires RowFor(w, w', key, end, size)
    ensures key in w'.sessions
  {
  }

  lemma RowForUsed(w: WorkerState, w1: WorkerState, w2: WorkerState, key: Key, end: nat, size: nat, now: int)
    requires RowFor(w, w1, key, end, size) && w2.contents == w1.contents && key in w1.sessions
    requires w2.sessions == w1.sessions[key := w1.sessions[key].(lastUsed := now)]
    ensures RowFor(w, w2, key, end, size)
  {
  }

  /** `w'` is `w` after handler j's run over its cache succeeded, in place. */
  ghost predicate RanFrom(w: WorkerState, w': WorkerState, j: nat, span: DecoderSpan) {
    && j in w.handlers && w.handlers[j].Waiting? && w.handlers[j].cache in w.contents
    && span.Valid() && w.handlers[j].x.Aligned() && |w.contents[w.handlers[j].cache]| == span.Size()
    && var h := w.handlers[j];
       var run := span.Complete(h.x, w.contents[h.cache], h.past, h.key.start, h.end);
       && run.result.Ok?
       && w' == WorkerState(
            w.sessions, w.handlers[j := Finished(h.key, h.cache, |h.x.hidden|, run.result.value)],
            w.dropped, w.contents[h.cache := run.layers])
  }

  /** `w'` is `w` after handler j advanced its session's length and answered. */
  ghost predicate CommittedFrom(w: WorkerState, w': WorkerState, j: nat) {
    && j in w.handlers && w.handlers[j].Finished?
    && var h := w.handlers[j];
       && w'.handlers == w.handlers - {j} && w'.dropped == w.dropped && w'.contents == w.contents
       && w'.sessions == if h.key in w.sessions && w.sessions[h.key].cache == h.cache
                         then w.sessions[h.key := w.sessions[h.key].(length := w.sessions[h.key].length + h.count)]
                         else w.sessions
  }

  /** What a worker holds for a session, as values. */
  datatype Entry = Entry(end: nat, length: nat, layers: seq<seq<KeyValue>>)

  ghost function Lookup(w: WorkerState, key: Key): Option<Entry> {
    if key in w.sessions && w.sessions[key].cache in w.contents then
      Some(Entry(w.sessions[key].end, w.sessions[key].length, w.contents[w.sessions[key].cache]))
    else None
  }

  /** A worker holds, for `key`, a session of `length` tokens over `cache`, unless it dropped it. */
  ghost predicate Holds(w: WorkerState, key: Key, cache: KVCache, end: nat, length: nat, layers: seq<seq<KeyValue>>) {
    && cache in w.contents && w.contents[cache] == layers
    && (key !in w.dropped ==>
          && key in w.sessions && w.sessions[key].cache == cache
          && w.sessions[key].start == key.start && w.sessions[key].end == end && w.sessions[key].length == length)
  }

  /** Every session's cache is its own. */
  ghost predicate Owned(w: WorkerState) {
    forall k :: k in w.sessions ==>
      && w.sessions[k].cache in w.contents && w.sessions[k].cache.key == k && w.sessions[k].start == k.start
  }

  /** What a forward over `key` starts from: the session's state, or that of a session just opened. */
  ghost function EntryOr(w: WorkerState, key: Key, end: nat, size: nat): Entry {
    match Lookup(w, key)
    case Some(e) => e
    case None => Entry(end, 0, seq(size, i => []))
  }

  /** A forward of `x` over `key` ran once, from the session as it stood, and was answered with `out`. */
  ghost predicate Answered(w: WorkerState, w': WorkerState, span: DecoderSpan, key: Key, x: Tokens, end: nat,
                           out: seq<Hidden>) {
    && span.Valid() && x.Aligned() && key !in w.dropped
    && var e := EntryOr(w, key, end, span.Size());
       && |e.layers| == span.Size()
       && var run := span.Complete(x, e.layers, e.length, key.start, end);
          && run.result == Ok(out)
          && (key in w'.dropped || Lookup(w', key) == Some(Entry(end, e.length + |x.hidden|, run.layers)))
  }

  /** No handler other than those in `js` is at work for the id. */
  ghost predicate AtWork(w: WorkerState, sid: Sid, js: set<nat>) {
    forall i :: i in w.handlers && w.handlers[i].key.sid == sid ==> i in js
  }

  /** Handler j, alone, waits to run `x` over the session of `key`, which stands at `e`. */
  ghost predicate Pending(w: WorkerState, j: nat, key: Key, x: Tokens, e: Entry) {
    && j in w.handlers && w.handlers[j].cache.key == key && AtWork(w, key.sid, {j})
    && w.handlers[j] == Waiting(key, w.handlers[j].cache, x, e.length, e.end)
    && Holds(w, key, w.handlers[j].cache, e.end, e.length, e.layers)
  }

  /** Handler j has run: `out` is its answer, `e` is how the session stands before it commits. */
  ghost predicate Computed(w: WorkerState, j: nat, key: Key, count: nat, out: seq<Hidden>, e: Entry) {
    && j in w.handlers && w.handlers[j].cache.key == key && AtWork(w, key.sid, {j})
    && w.handlers[j] == Finished(key, w.handlers[j].cache, count, out)
    && Holds(w, key, w.handlers[j].cache, e.end, e.length, e.layers)
  }

  /** From `w` on, a forward of `x` over `key` has run once as handler j, which has yet to commit. */
  ghost predicate ComputedFrom(w: WorkerState, w': WorkerState, span: DecoderSpan, j: nat, key: Key, x: Tokens,
                               end: nat) {
    && span.Valid() && x.Aligned() && key !in w.dropped
    && var e := EntryOr(w, key, end, span.Size());
       && |e.layers| == span.Size()
       && var run := span.Complete(x, e.layers, e.length, key.start, end);
          && run.result.Ok?
          && Computed(w', j, key, |x.hidden|, run.result.value, Entry(end, e.length, run.layers))
  }

  lemma ComputedFromWhenSpared(w: WorkerState, w1: WorkerState, w2: WorkerState, live: set<Sid>, span: DecoderSpan,
                               j: nat,
                               key: Key, x: Tokens, end: nat)
    requires ComputedFrom(w, w1, span, j, key, x, end) && w1.Spares(live, w2) && key.sid in live
    ensures ComputedFrom(w, w2, span, j, key, x, end)
  {
    hide DecoderSpan.Complete, EntryOr;
  }

  lemma HandlerOf(w: WorkerState, w1: WorkerState, span: DecoderSpan, j: nat, key: Key, x: Tokens, end: nat)
    requires ComputedFrom(w, w1, span, j, key, x, end)
    ensures j in w1.handlers && w1.handlers[j].Finished? && w1.handlers[j].key == key
  {
  }

  lemma CommittedIsAnswered(w: WorkerState, w1: WorkerState, w2: WorkerState, span: DecoderSpan, j: nat,
                            key: Key, x: Tokens, end: nat)
    requires ComputedFrom(w, w1, span, j, key, x, end) && CommittedFrom(w1, w2, j)
    ensures Answered(w, w2, span, key, x, end, w1.handlers[j].out) && AtWork(w2, key.sid, {})
  {
    hide DecoderSpan.Complete, EntryOr;
  }

  /** The three parts of a forward, one right after the other. */
  lemma ForwardOnce(w: WorkerState, w1: WorkerState, w2: WorkerState, w3: WorkerState, span: DecoderSpan, j: nat,
                    key: Key, x: Tokens, end: nat)
    requires span.Valid() && x.Aligned() && key !in w.dropped && AtWork(w, key.sid, {})
    requires BegunFrom(w, w1, j, key, x, end, span.Size()) && RanFrom(w1, w2, j, span) && CommittedFrom(w2, w3, j)
    requires Lookup(w, key).Some? ==> Lookup(w, key).value.end == end
    requires |EntryOr(w, key, end, span.Size()).layers| == span.Size()
    ensures j in w2.handlers && w2.handlers[j].Finished? && Answered(w, w3, span, key, x, end, w2.handlers[j].out)
  {
    hide BegunFrom, RanFrom, CommittedFrom, Pending, Computed, Answered, AtWork, Lookup, DecoderSpan.Complete;
    BegunIsPending(w, w1, j, key, x, end, span.Size());
    var e := EntryOr(w, key, end, span.Size());
    RanIsComputed(w1, w2, j, span, key, x, e);
    HandlerOf(w, w2, span, j, key, x, end);
    CommittedIsAnswered(w, w2, w3, span, j, key, x, end);
  }

  lemma AnsweredWhenSpared(w: WorkerState, w1: WorkerState, w2: WorkerState, live: set<Sid>, span: DecoderSpan,
                           key: Key, x: Tokens, end: nat, out: seq<Hidden>)
    requires Answered(w, w1, span, key, x, end, out) && w1.Spares(live, w2) && key.sid in live && Owned(w1)
    ensures Answered(w, w2, span, key, x, end, out)
  {
    hide DecoderSpan.Complete, EntryOr;
  }

  /** A session a worker keeps for a live id looks the same whatever happened to other ids. */
  lemma LookupWhenSpared(w: WorkerState, w': WorkerState, live: set<Sid>, key: Key)
    requires w.Spares(live, w') && key.sid in live && key !in w'.dropped
    requires Owned(w)
    ensures Lookup(w', key) == Lookup(w, key)
  {
  }

  lemma AtWorkWhenSpared(w: WorkerState, w': WorkerState, live: set<Sid>, sid: Sid, js: set<nat>)
    requires w.Spares(live, w') && sid in live && AtWork(w, sid, js)
    ensures AtWork(w', sid, js)
  {
  }

  lemma BegunIsPending(w: WorkerState, w': WorkerState, j: nat, key: Key, x: Tokens, end: nat, size: nat)
    requires BegunFrom(w, w', j, key, x, end, size) && AtWork(w, key.sid, {})
    ensures Pending(w', j, key, x, EntryOr(w, key, end, size).(end := end))
  {
  }

  /** The same, seen from an earlier moment at which the session stood as it does now. */
  lemma BegunIsPendingSince(w0: WorkerState, w: WorkerState, w': WorkerState, j: nat, key: Key, x: Tokens, end: nat,
                            size: nat)
    requires BegunFrom(w, w', j, key, x, end, size) && AtWork(w, key.sid, {}) && Lookup(w, key) == Lookup(w0, key)
    requires Lookup(w, key).Some? ==> Lookup(w, key).value.end == end
    ensures Pending(w', j, key, x, EntryOr(w0, key, end, size))
  {
    BegunIsPending(w, w', j, key, x, end, size);
    hide Pending, BegunFrom, Lookup;
  }

  lemma PendingWhenSpared(w: WorkerState, w': WorkerState, live: set<Sid>, j: nat, key: Key, x: Tokens, e: Entry)
    requires Pending(w, j, key, x, e) && w.Spares(live, w') && key.sid in live
    ensures Pending(w', j, key, x, e)
  {
  }

  lemma RanIsComputed(w: WorkerState, w': WorkerState, j: nat, span: DecoderSpan, key: Key, x: Tokens, e: Entry)
    requires Pending(w, j, key, x, e) && RanFrom(w, w', j, span)
    ensures var run := span.Complete(x, e.layers, e.length, key.start, e.end);
            run.result.Ok? && Computed(w', j, key, |x.hidden|, run.result.value, e.(layers := run.layers))
  {
  }

  lemma SparesTransitive(a: WorkerState, b: WorkerState, c: WorkerState, live: set<Sid>)
    requires a.Spares(live, b) && b.Spares(live, c)
    ensures a.Spares(live, c)
  {
  }

  /** Every session has a cache of its own among these. */
  ghost predicate RowsOwned(sessions: map<Key, Session>, caches: set<KVCache>) {
    forall k :: k in sessions ==>
      sessions[k].cache in caches && sessions[k].cache.key == k && sessions[k].start == k.start
  }

  /** And every handler works on the cache of its session. */
  ghost predicate HandlersOwned(handlers: map<nat, Handler>, caches: set<KVCache>, next: nat) {
    forall j :: j in handlers ==>
      && j < next && handlers[j].cache in caches && handlers[j].cache.key == handlers[j].key
      && (handlers[j].Waiting? ==> handlers[j].x.Aligned())
  }

  lemma RowLengthened(sessions: map<Key, Session>, caches: set<KVCache>, k: Key, count: nat)
    requires RowsOwned(sessions, caches) && k in sessions
    ensures RowsOwned(sessions[k := sessions[k].(length := sessions[k].length + count)], caches)
  {
  }

  lemma HandlerOwned(handlers: map<nat, Handler>, caches: set<KVCache>, next: nat, j: nat)
    requires HandlersOwned(handlers, caches, next) && j in handlers
    ensures j < next && handlers[j].cache in caches && handlers[j].cache.key == handlers[j].key
    ensures handlers[j].Waiting? ==> handlers[j].x.Aligned()
    ensures HandlersOwned(handlers - {j}, caches, next)
  {
  }

  lemma HandlerAdded(handlers: map<nat, Handler>, caches: set<KVCache>, next: nat, j: nat, h: Handler)
    requires HandlersOwned(handlers, caches, next) && h.cache in caches && h.cache.key == h.key
    requires h.Waiting? ==> h.x.Aligned()
    ensures HandlersOwned(handlers[j := h], caches, if j < next then next else j + 1) && next !in handlers
  {
  }

  class SpanWorker {
    const span: DecoderSpan
    const maxSessions: nat
    const sessionTimeout: int
    var sessions: map<Key, Session>
    var handlers: map<nat, Handler>
    var nextHandler: nat
    /** Sessions this worker has dropped on its own: by timeout, or by restarting. */
    var dropped: set<Key>
    /** Every cache this worker ever made. */
    ghost var caches: set<KVCache>

    ghost predicate Valid()
      reads this, caches
    {
      && span.Valid() && RowsOwned(sessions, caches) && HandlersOwned(handlers, caches, nextHandler)
      && (forall c: KVCache :: c in caches ==> |c.layers| == span.Size())
    }

    constructor (span: DecoderSpan, maxSessions: nat, sessionTimeout: int)
      requires span.Valid()
      ensures this.span == span && this.maxSessions == maxSessions && this.sessionTimeout == sessionTimeout
      ensures Valid() && sessions == map[] && handlers == map[] && dropped == {} && caches == {}
    {
      this.span, this.maxSessions, this.sessionTimeout := span, maxSessions, sessionTimeout;
      sessions, handlers, nextHandler, dropped, caches := map[], map[], 0, {}, {};
    }

    /** Caches of other sessions hold what they held. */
    twostate predicate CachesKept(sid: Sid)
      reads this, caches
    {
      && old(caches) <= caches && fresh(caches - old(caches))
      && (forall c: KVCache :: c in old(caches) && c.key.sid != sid ==> c.layers == old(c.layers))
    }

    /** Only what belongs to `sid` was touched, except that sessions may be dropped. */
    twostate predicate Others(sid: Sid)
      reads this, caches
    {
      && Table(old(sessions), old(dropped)).KeptBut(sid, Table(sessions, dropped))
      && HandlersKept(sid, old(handlers), handlers)
      && CachesKept(sid)
    }

    ghost function State(): WorkerState
      reads this, caches
    {
      WorkerState(sessions, handlers, dropped, map c | c in caches :: c.layers)
    }

    /** In a valid worker every session's cache is its own. */
    ghost predicate TableOwned()
      requires Valid()
      reads this, caches
      ensures TableOwned()
    {
      Owned(State())
    }

    lemma EntrySized(key: Key, end: nat)
      requires Valid()
      ensures |EntryOr(State(), key, end, span.Size()).layers| == span.Size()
    {
    }

    twostate lemma OthersAreSpared(new sid: Sid, new live: set<Sid>)
      requires Others(sid) && sid !in live
      ensures old(State()).Spares(live, State())
    {
    }

    /** What the rows and handlers of the state are. */
    lemma StateMeans()
      ensures State() == WorkerState(sessions, handlers, dropped, State().contents)
    {
    }

    /** When no cache has changed. */
    twostate lemma ContentsKept()
      requires caches == old(caches) && forall c: KVCache :: c in caches ==> c.layers == old(c.layers)
      ensures State().contents == old(State()).contents
    {
    }

    /** The sessions last used before the timeout's cutoff. */
    function ExpiredKeys(table: map<Key, Session>, now: int): (expired: set<Key>)
      ensures expired <= table.Keys
    {
      set k | k in table && table[k].lastUsed < now - sessionTimeout
    }

    /** The table a new session would have to fit in: without its expired sessions, if it is full. */
    function Kept(table: map<Key, Session>, now: int): map<Key, Session> {
      if |table| < maxSessions then table else table - ExpiredKeys(table, now)
    }

    /** Exactly the sessions used since the timeout's cutoff are left of the table. */
    ghost predicate Pruned(table: map<Key, Session>, left: map<Key, Session>, now: int) {
      forall k :: k in left <==> k in table && table[k].lastUsed >= now - sessionTimeout
    }

    /** A full table makes room by the sessions that were not used since the cutoff, and by no others. */
    lemma KeptAreUsed(table: map<Key, Session>, now: int, k: Key)
      ensures k in Kept(table, now) <==>
                k in table && (|table| < maxSessions || table[k].lastUsed >= now - sessionTimeout)
      ensures k in Kept(table, now) ==> Kept(table, now)[k] == table[k]
    {
    }

    /** The worker loses these sessions, whatever their handlers are doing. */
    method Drop(keys: set<Key>, ghost sid: Sid)
      requires Valid() && keys <= sessions.Keys
      modifies `sessions, `dropped
      ensures Valid() && Others(sid)
      ensures sessions == old(sessions) - keys && dropped == old(dropped) + keys
    {
      sessions, dropped := sessions - keys, dropped + keys;
    }

    /** Drops exactly the expired sessions. */
    method Gc(now: int, ghost sid: Sid)
      requires Valid()
      modifies `sessions, `dropped
      ensures Valid() && Others(sid) && |sessions| <= |old(sessions)|
      ensures sessions == old(sessions) - ExpiredKeys(old(sessions), now)
      ensures dropped == old(dropped) + ExpiredKeys(old(sessions), now)
      ensures Pruned(old(sessions), sessions, now)
    {
      var before := sessions;
      Drop(ExpiredKeys(sessions, now), sid);
      SubmapIsSmaller(sessions, before);
    }

    /** Opens a session with an empty cache. */
    method Create(key: Key, end: nat, now: int)
      requires Valid() && key !in sessions
      modifies `sessions, `caches
      ensures Valid() && Others(key.sid) && dropped == old(dropped)
      ensures sessions.Keys == old(sessions).Keys + {key} && fresh(sessions[key].cache)
      ensures sessions == old(sessions)[key := Session(sessions[key].cache, key.start, end, 0, now)]
      ensures sessions[key].cache.layers == seq(span.Size(), i => [])
    {
      var cache := new KVCache(span.Size(), key);
      sessions := sessions[key := Session(cache, key.start, end, 0, now)];
      caches := caches + {cache};
    }

    /** Opens a session unless the table is full even after expired ones have gone. */
    method Admit(key: Key, end: nat, now: int) returns (ok: bool)
      requires Valid() && key !in sessions
      modifies `sessions, `dropped, `caches
      ensures Valid() && Others(key.sid)
      ensures |sessions| <= if |old(sessions)| <= maxSessions then maxSessions else |old(sessions)|
      ensures ok <==> |Kept(old(sessions), now)| < maxSessions
      ensures key in dropped <==> key in old(dropped)
      ensures !ok ==> sessions == Kept(old(sessions), now) && key !in sessions
      ensures ok ==> key in sessions && sessions == Kept(old(sessions), now)[key := sessions[key]]
      ensures ok ==> sessions[key] == Session(sessions[key].cache, key.start, end, 0, now)
                     && fresh(sessions[key].cache) && sessions[key].cache.layers == seq(span.Size(), i => [])
    {
      hide Valid, ExpiredKeys, Pruned, Table.KeptBut, HandlersKept;
      ghost var before := Table(sessions, dropped);
      if |sessions| >= maxSessions {
        Gc(now, key.sid);
        if |sessions| >= maxSessions {
          return false;
        }
      }
      ghost var middle := Table(sessions, dropped);
      Create(key, end, now);
      KeptTransitive(before, middle, Table(sessions, dropped), key.sid);
      return true;
    }

    /** Marks the session used and leaves a handler waiting for the executor. */
    method Enlist(key: Key, x: Tokens, end: nat, now: int) returns (j: nat)
      requires Valid() && key in sessions && x.Aligned()
      modifies `sessions, `handlers, `nextHandler
      ensures Valid() && Others(key.sid) && dropped == old(dropped) && j !in old(handlers)
      ensures sessions == old(sessions)[key := old(sessions)[key].(lastUsed := now)]
      ensures handlers == old(handlers)[j := Waiting(key, sessions[key].cache, x, sessions[key].length, end)]
    {
      hide Table.KeptBut, HandlersKept, HandlersOwned;
      j := nextHandler;
      HandlerAdded(handlers, caches, j, j, Waiting(key, sessions[key].cache, x, sessions[key].length, end));
      KeptChanged(Table(sessions, dropped), key, sessions[key].(lastUsed := now));
      HandlersSet(handlers, j, Waiting(key, sessions[key].cache, x, sessions[key].length, end));
      sessions := sessions[key := sessions[key].(lastUsed := now)];
      handlers := handlers[j := Waiting(key, sessions[key].cache, x, sessions[key].length, end)];
      nextHandler := nextHandler + 1;
    }

    /** The table afterwards is the one before, if it has the key, or else what of it is kept; but for the row of
        the key, when it is entered. */
    ghost predicate Entered(before: map<Key, Session>, after: map<Key, Session>, key: Key, now: int, entered: bool) {
      var table := if key in before then before else Kept(before, now);
      if entered then key in after && after == table[key := after[key]] else after == table
    }

    /** Finds the session of `key`, or opens it. */
    method Enter(key: Key, end: nat, now: int) returns (refused: Option<ServerError>)
      requires Valid()
      modifies `sessions, `dropped, `caches
      ensures Valid() && Others(key.sid)
      ensures |sessions| <= if |old(sessions)| <= maxSessions then maxSessions else |old(sessions)|
      ensures refused == Some(AtCapacity) <==> key !in old(sessions) && |Kept(old(sessions), now)| >= maxSessions
      ensures refused == Some(RangeMismatch) <==>
                key in old(sessions) && (old(sessions)[key].start, old(sessions)[key].end) != (key.start, end)
      ensures refused.Some? ==> refused.value in {AtCapacity, RangeMismatch}
      ensures key in dropped <==> key in old(dropped)
      ensures refused.None? ==> RowFor(old(State()), State(), key, end, span.Size())
      ensures Entered(old(sessions), sessions, key, now, refused.None?)
    {
      hide Table.KeptBut, HandlersKept, HandlersOwned, Kept;
      if key in sessions {
        KeptReflexive(Table(sessions, dropped), key.sid, handlers);
        return if (sessions[key].start, sessions[key].end) != (key.start, end) then Some(RangeMismatch) else None;
      }
      var ok := Admit(key, end, now);
      return if ok then None else Some(AtCapacity);
    }

    lemma EnteredUsed(before: map<Key, Session>, middle: map<Key, Session>, after: map<Key, Session>, key: Key,
                      now: int)
      requires Entered(before, middle, key, now, true) && key in after && after == middle[key := after[key]]
      ensures Entered(before, after, key, now, true)
    {
      hide Kept;
    }

    /** The handler of `forward` up to its await; returns the handler's number. */
    method Begin(key: Key, x: Tokens, end: nat, now: int) returns (r: Result<nat, ServerError>)
      requires Valid()
      modifies `sessions, `handlers, `nextHandler, `dropped, `caches
      ensures Valid() && Others(key.sid)
      ensures |sessions| <= if |old(sessions)| <= maxSessions then maxSessions else |old(sessions)|
      ensures r.Ok? ==> x.Aligned() && BegunFrom(old(State()), State(), r.value, key, x, end, span.Size())
      ensures r.Ok? ==> sessions[key].lastUsed == now && r.value !in old(handlers)
      ensures r == Err(AtCapacity) <==> key !in old(sessions) && |Kept(old(sessions), now)| >= maxSessions
      ensures r == Err(RangeMismatch) <==>
                key in old(sessions) && (old(sessions)[key].start, old(sessions)[key].end) != (key.start, end)
      ensures r.Err? ==> r.error in {AtCapacity, RangeMismatch} || (r.error == LengthMismatch && !x.Aligned())
      ensures Entered(old(sessions), sessions, key, now, r.Ok? || r.error == LengthMismatch)
      ensures key in dropped <==> key in old(dropped)
    {
      hide RowsOwned, HandlersOwned, Table.KeptBut, HandlersKept, Kept, RowFor, Entered;
      ghost var before := Table(sessions, dropped);
      var refused := Enter(key, end, now);
      if refused.Some? {
        return Err(refused.value);
      }
      if !x.Aligned() {
        return Err(LengthMismatch);
      }
      ghost var w0, w1, middle, between := old(State()), State(), Table(sessions, dropped), handlers;
      EnteredRow(w0, w1, key, end, span.Size());
      var j := Enlist(key, x, end, now);
      RowForUsed(w0, w1, State(), key, end, span.Size(), now);
      EnteredUsed(old(sessions), middle.sessions, sessions, key, now);
      KeptTransitive(before, middle, Table(sessions, dropped), key.sid);
      HandlersTransitive(old(handlers), between, handlers, key.sid);
      return Ok(j);
    }

    /** The executor's turn for handler j: runs the span over its cache, in place. A handler whose
        run raises is gone, and leaves whatever it had appended. */
    method Run(j: nat, budget: nat) returns (r: Result<(), ServerError>)
      requires Valid() && j in handlers && handlers[j].Waiting?
      modifies `handlers, handlers[j].cache
      ensures Valid() && Others(old(handlers)[j].key.sid)
      ensures r.Ok? ==> RanFrom(old(State()), State(), j, span)
      ensures r.Err? ==>
                var h := old(handlers)[j];
                var run := span.Run(h.x, old(handlers[j].cache.layers), h.past, h.key.start, h.end, budget);
                && run.result.Err? && r.error == LayersFailed(run.result.error)
                && handlers == old(handlers) - {j} && h.cache.layers == run.layers
    {
      hide Table.KeptBut, HandlersKept, RowsOwned, HandlersOwned, DecoderSpan.Run, DecoderSpan.Complete;
      var h := handlers[j];
      HandlerOwned(handlers, caches, nextHandler, j);
      KeptReflexive(Table(sessions, dropped), h.key.sid, handlers);
      HandlersDropped(handlers, j);
      var out := span.Forward(h.x, h.cache, h.past, h.key.start, h.end, budget);
      match out {
        case Ok(y) =>
          span.SuccessIsComplete(h.x, old(h.cache.layers), h.past, h.key.start, h.end, budget);
          HandlersSet(handlers, j, Finished(h.key, h.cache, |h.x.hidden|, y));
          HandlerAdded(handlers - {j}, caches, nextHandler, j, Finished(h.key, h.cache, |h.x.hidden|, y));
          assert (handlers - {j})[j := Finished(h.key, h.cache, |h.x.hidden|, y)]
              == handlers[j := Finished(h.key, h.cache, |h.x.hidden|, y)];
          handlers := handlers[j := Finished(h.key, h.cache, |h.x.hidden|, y)];
          r := Ok(());
          assert State().contents == old(State()).contents[h.cache := h.cache.layers];
        case Err(e) =>
          handlers := handlers - {j};
          r := Err(LayersFailed(e));
      }
    }

    /** The rest of the handler: the session has seen `count` more tokens. If the row was dropped
        meanwhile, only the handler's own orphan would be advanced, which nobody can see. */
    method Commit(j: nat) returns (out: seq<Hidden>)
      requires Valid() && j in handlers && handlers[j].Finished?
      modifies `sessions, `handlers
      ensures Valid() && Others(old(handlers)[j].key.sid)
      ensures out == old(handlers)[j].out && CommittedFrom(old(State()), State(), j)
    {
      hide Table.KeptBut, HandlersKept, RowsOwned, HandlersOwned, State;
      StateMeans();
      var h := handlers[j];
      HandlerOwned(handlers, caches, nextHandler, j);
      KeptReflexive(Table(sessions, dropped), h.key.sid, handlers);
      HandlersDropped(handlers, j);
      handlers := handlers - {j};
      if h.key in sessions && sessions[h.key].cache == h.cache {
        KeptChanged(Table(sessions, dropped), h.key, sessions[h.key].(length := sessions[h.key].length + h.count));
        RowLengthened(sessions, caches, h.key, h.count);
        sessions := sessions[h.key := sessions[h.key].(length := sessions[h.key].length + h.count)];
      }
      StateMeans();
      ContentsKept();
      return h.out;
    }

    /** A handler is cancelled where it stands, as when its connection goes away. */
    method Cancel(j: nat)
      requires Valid() && j in handlers
      modifies `handlers
      ensures Valid() && Others(old(handlers)[j].key.sid) && handlers == old(handlers) - {j}
    {
      handlers := handlers - {j};
    }

    /** Deletes every session of this id, whatever its entry layer; the others keep theirs. */
    method Close(sid: Sid)
      requires Valid()
      modifies `sessions
      ensures Valid() && Others(sid)
      ensures forall k :: k in sessions <==> k in old(sessions) && k.sid != sid
      ensures forall k :: k in sessions ==> sessions[k] == old(sessions)[k]
    {
      sessions := map k | k in sessions && k.sid != sid :: sessions[k];
    }
  }
}
