/** Why a `step` (dvlm/client.py) that raised when it had a route cannot be repeated: the first hop may have
    run the chunk although its reply was lost, and then it runs it again. */
module RepeatedStep {
  import opened Wrappers
  import opened Ids
  import opened Decoder
  import opened SpanServer
  import opened SwarmNetwork
  import opened SessionState
  import opened Journals
  import opened Routing
  import opened Footings
  import opened Inference

  /** The chunk of a step that is repeated, at the first hop of a session over a one-layer model that counts.
      The hop's server answers it as the single-process model would exactly when its cache holds as many
      tokens as the session has seen. */
  lemma RepeatedRightIffUnseen(s: InferenceSession, h: Hop, x: Tokens, w: WorkerState, w': WorkerState,
                               out: seq<Hidden>)
    requires s.net.model == COUNTING && s.numLayers == 1 && h in s.hopSid && h.start == 0 && h.end == 1
    requires s.seen.Aligned() && x.Aligned() && x.hidden != []
    requires Answered(w, w', COUNTING_SPAN, Key(s.hopSid[h], 0), x, 1, out)
    ensures out == ChunkAt(s.net.model, s.numLayers, s.seen, x).hidden
            <==> |Cached(w, Key(s.hopSid[h], 0))| == |s.seen.hidden|
  {
    hide ChunkAt, Answered, Cached;
    AnsweredRightIffUnseen(w, w', Key(s.hopSid[h], 0), s.seen, x, out);
  }

  /** The worker has room for a session, or has it, and nothing else to do. */
  ghost predicate Free(w: SpanWorker, key: Key)
    reads w
  {
    && w.span == COUNTING_SPAN && w.handlers == map[] && key.start == 0 && key !in w.dropped
    && (if key in w.sessions then w.sessions[key].end == 1 else |w.sessions| < w.maxSessions)
  }

  /** A worker handles one forward from beginning to end, and nothing comes between. */
  method MoveServed(net: Swarm, a: Address, key: Key, x: Tokens) returns (out: seq<Hidden>)
    requires net.WorkersValid() && a in net.workers && Free(net.workers[a], key) && x.Aligned() && |x.hidden| == 1
    modifies net`Repr, net.workers[a], net.workers[a].caches
    ensures net.workers[a].Valid() && net.OnlyMoved(a, key.sid) && old(net.Repr) <= net.Repr
    ensures fresh(net.Repr - old(net.Repr)) && fresh(net.workers[a].caches - old(net.workers[a].caches))
    ensures net.workers[a].handlers == map[] && key !in net.workers[a].dropped
    ensures Answered(old(net.workers[a].State()), net.workers[a].State(), COUNTING_SPAN, key, x, 1, out)
  {
    hide SpanWorker.State, Answered, Table.KeptBut, HandlersKept, RowsOwned, HandlersOwned;
    out := Undisturbed(net.workers[a], key, x);
    net.Repr := net.Repr + net.workers[a].caches;
  }

  method Served(net: Swarm, a: Address, key: Key, x: Tokens) returns (out: seq<Hidden>)
    requires net.Valid() && a in net.workers && net.Homed(key.sid, a)
    requires Free(net.workers[a], key) && x.Aligned() && |x.hidden| == 1
    modifies net`Repr, net.workers[a], net.workers[a].caches
    ensures net.Valid() && old(net.Repr) <= net.Repr && fresh(net.Repr - old(net.Repr))
    ensures AllSpare(net.live - {key.sid}, old(net.State()), net.State())
    ensures fresh(net.workers[a].caches - old(net.workers[a].caches))
    ensures net.workers[a].handlers == map[] && key !in net.workers[a].dropped
    ensures Answered(old(net.workers[a].State()), net.workers[a].State(), COUNTING_SPAN, key, x, 1, out)
  {
    hide SpanWorker.Valid, Swarm.IdsValid, AllSpare, Swarm.State, SpanWorker.State, Swarm.OnlyMoved, Answered, Free;
    out := MoveServed(net, a, key, x);
    net.WorkerMoved(a, key.sid, net.live - {key.sid});
  }

  /** The same, and then the reply is lost and the id given up. */
  method Lost(net: Swarm, a: Address, key: Key, x: Tokens)
    requires net.Valid() && net.Idle() && a in net.workers && net.Homed(key.sid, a)
    requires Free(net.workers[a], key) && x.Aligned() && |x.hidden| == 1
    modifies net`Repr, net`live, net`pending, net.workers[a], net.workers[a].caches
    ensures net.Valid() && net.Idle() && old(net.Repr) <= net.Repr && fresh(net.Repr - old(net.Repr))
    ensures net.live == old(net.live) - {key.sid}
    ensures fresh(net.workers[a].caches - old(net.workers[a].caches))
    ensures net.workers[a].handlers == map[] && key !in net.workers[a].dropped
    ensures exists out :: Answered(old(net.workers[a].State()), net.workers[a].State(), COUNTING_SPAN, key, x, 1, out)
  {
    hide Swarm.WorkersValid, Swarm.IdsValid, AllSpare, Swarm.State, Answered, Free, Quiet;
    ghost var s0 := net.State();
    var out := Served(net, a, key, x);
    net.Abandon(key, a, x, 1, s0);
  }

  /** What `step` leaves when its only hop runs the chunk, the reply is lost, and then the registry does
      not answer: the session's books balance, and nothing is logged. */
  method LostReply(s: InferenceSession, h: Hop, x: Tokens)
    requires s.Books({}) && s.failures < s.maxFailures && h in s.hopSid && h.start == 0 && h.address in s.net.workers
    requires Free(s.net.workers[h.address], Key(s.hopSid[h], 0)) && x.Aligned() && |x.hidden| == 1
    requires s.net.journal.registry(s.net.journal.lookups) == None
    modifies s`failures, s`exclude, s.net`Repr, s.net`live, s.net`pending, s.net.journal`lookups
    modifies s.net.workers[h.address], s.net.workers[h.address].caches
    ensures s.Books({}) && s.failures == old(s.failures) + 1 && s.exclude == old(s.exclude) + {h.peerId}
    ensures s.hopSid[h] !in s.net.live && s.Explained(RegistryUnreachable, 0, s.numLayers)
    ensures fresh(s.net.workers[h.address].caches - old(s.net.workers[h.address].caches))
    ensures var (w, key) := (s.net.workers[h.address], Key(s.hopSid[h], 0));
            && w.handlers == map[] && key !in w.dropped
            && exists out :: Answered(old(s.net.workers[h.address].State()), w.State(), COUNTING_SPAN, key, x, 1, out)
  {
    hide InferenceSession.Books, Swarm.State, Answered, Free, SpanWorker.State, SpanWorker.Valid;
    LoseReply(s, h, x);
    BooksMean(s);
    ghost var w := s.net.workers[h.address].State();
    ghost var out :| Answered(old(s.net.workers[h.address].State()), w, COUNTING_SPAN, Key(s.hopSid[h], 0), x, 1, out);
    var _ := s.Choose(0, s.numLayers);
    assert s.net.workers[h.address].State() == w;
  }

  lemma BooksMean(s: InferenceSession)
    requires s.Books({})
    ensures s !in s.net.Repr && s.net.journal !in s.net.Repr
  {
    hide Swarm.Valid, Swarm.Idle, Accounted;
  }

  /** The hop runs the chunk, the reply is lost, and the failure recorded. */
  method LoseReply(s: InferenceSession, h: Hop, x: Tokens)
    requires s.Books({}) && s.failures < s.maxFailures && h in s.hopSid && h.start == 0 && h.address in s.net.workers
    requires Free(s.net.workers[h.address], Key(s.hopSid[h], 0)) && x.Aligned() && |x.hidden| == 1
    modifies s`failures, s`exclude, s.net`Repr, s.net`live, s.net`pending
    modifies s.net.workers[h.address], s.net.workers[h.address].caches
    ensures s.Books({}) && s.failures == old(s.failures) + 1 && s.exclude == old(s.exclude) + {h.peerId}
    ensures s.hopSid[h] !in s.net.live
    ensures fresh(s.net.workers[h.address].caches - old(s.net.workers[h.address].caches))
    ensures var (w, key) := (s.net.workers[h.address], Key(s.hopSid[h], 0));
            && w.handlers == map[] && key !in w.dropped
            && exists out :: Answered(old(s.net.workers[h.address].State()), w.State(), COUNTING_SPAN, key, x, 1, out)
  {
    hide Accounted, Swarm.Valid, Swarm.Idle, Swarm.State, AllSpare, Answered, Free, SpanWorker.Valid;
    s.OneHopAnId(h);
    assert s.exclude + {} == s.exclude;
    AccountedFailed(s.openings, s.hopSid, s.net.client, s.net.home, s.net.live, s.exclude, h);
    Lost(s.net, h.address, Key(s.hopSid[h], 0), x);
    ghost var w := s.net.workers[h.address].State();
    ghost var out :| Answered(old(s.net.workers[h.address].State()), w, COUNTING_SPAN, Key(s.hopSid[h], 0), x, 1, out);
    var raised := s.RecordFailure(h);
    assert s.net.workers[h.address].State() == w;
  }

  /** A session over one worker that has set out, and sent nothing yet. */
  method Departed(net: Swarm, a: Address) returns (s: InferenceSession, h: Hop)
    requires net.Valid() && net.Idle() && net.home == map[] && net.model == COUNTING
    modifies net`live, net`home
    ensures fresh(s) && s.net == net && s.Valid() && s.route == Some([h]) && s.seen == NO_TOKENS
    ensures s.Books({}) && s.numLayers == 1 && s.failures == 0 && s.maxFailures == 8
    ensures h == Hop(0, a, 0, 1) && h in s.hopSid
  {
    hide Swarm.Valid, Swarm.Idle, Swarm.State, Accounted, Footing.Keeps, Has;
    h := Hop(0, a, 0, 1);
    s := new InferenceSession(net, 8);
    s.Open(h);
    NothingAt(net.model, 0);
    assert s.Now().AllBlank([h]);
    BlankIsReady(s.Now(), 0, 1, NO_TOKENS, [h]);
    label Opened:
    s.route := Some([h]);
    net.Untouched@Opened();
  }

  lemma FreeAgain(w: SpanWorker, before: WorkerState, key: Key, x: Tokens, out: seq<Hidden>)
    requires Answered(before, w.State(), COUNTING_SPAN, key, x, 1, out)
    requires w.span == COUNTING_SPAN && w.handlers == map[] && key.start == 0 && key !in w.dropped
    ensures Free(w, key)
  {
    hide DecoderSpan.Complete;
  }

  lemma NothingCached(w: SpanWorker, key: Key)
    requires key !in w.sessions
    ensures Cached(w.State(), key) == []
  {
  }

  lemma CachedOnce(w: SpanWorker, before: WorkerState, key: Key, x: Tokens, out: seq<Hidden>)
    requires Answered(before, w.State(), COUNTING_SPAN, key, x, 1, out) && key !in w.dropped
    requires Cached(before, key) == [] && key.start == 0 && x.hidden != []
    ensures Cached(w.State(), key) != []
  {
    hide Answered, Cached;
    AnsweredRightIffUnseen(before, w.State(), key, NO_TOKENS, x, out);
  }

  lemma WorkersOf(s: InferenceSession, a: Address)
    requires s.Books({}) && a in s.net.workers
    ensures s.net.workers[a].Valid()
  {
    hide Accounted, Swarm.IdsValid, Swarm.Idle;
  }

  lemma NothingSeen()
    ensures NO_TOKENS.Aligned() && NO_TOKENS.hidden == []
  {
  }

  lemma FreeMeans(w: SpanWorker, key: Key)
    requires Free(w, key)
    ensures w.span == COUNTING_SPAN
  {
  }

  method ServedAlone(w: SpanWorker, key: Key, x: Tokens) returns (out: seq<Hidden>)
    requires w.Valid() && Free(w, key) && x.Aligned() && |x.hidden| == 1
    modifies w, w.caches
    ensures Answered(old(w.State()), w.State(), COUNTING_SPAN, key, x, 1, out)
  {
    out := Undisturbed(w, key, x);
  }

  /** A session that has set out sends a chunk; the reply is lost, and the chunk is sent again under the id
      that is dead. */
  method AskAgain(s: InferenceSession, h: Hop, w: SpanWorker, x: Tokens) returns (out: seq<Hidden>)
    requires s.Books({}) && s.failures < s.maxFailures && h in s.hopSid && h.start == 0 && h.end == 1
    requires s.net.model == COUNTING && s.numLayers == 1 && s.seen == NO_TOKENS
    requires h.address in s.net.workers && w == s.net.workers[h.address] && x.Aligned() && |x.hidden| == 1
    requires Free(w, Key(s.hopSid[h], 0)) && Key(s.hopSid[h], 0) !in w.sessions
    requires s.net.journal.registry(s.net.journal.lookups) == None
    modifies s`failures, s`exclude, s.net`Repr, s.net`live, s.net`pending, s.net.journal`lookups, w, w.caches
    ensures out != ChunkAt(s.net.model, s.numLayers, s.seen, x).hidden
  {
    hide *;
    NothingSeen();
    var key := Key(s.hopSid[h], 0);
    ghost var w0 := w.State();
    NothingCached(w, key);
    FreeMeans(w, key);
    LostReply(s, h, x);
    ghost var w1 := w.State();
    ghost var lost :| Answered(w0, w1, COUNTING_SPAN, key, x, 1, lost);
    CachedOnce(w, w0, key, x, lost);
    FreeAgain(w, w0, key, x, lost);
    WorkersOf(s, h.address);
    out := ServedAlone(w, key, x);
    RepeatedRightIffUnseen(s, h, x, w1, w.State(), out);
  }

  /** A worker alone in its network, and a registry that never answers. */
  method Alone() returns (net: Swarm, w: SpanWorker)
    ensures fresh(net) && fresh(w) && net.Valid() && net.Idle() && net.home == map[] && net.model == COUNTING
    ensures net.workers == map[0 := w] && w.span == COUNTING_SPAN && w.maxSessions == 1
    ensures w.sessions == map[] && w.handlers == map[] && w.dropped == {} && w.caches == {}
    ensures fresh(net.journal) && forall k :: net.journal.registry(k) == None
  {
    w := new SpanWorker(COUNTING_SPAN, 1, 0);
    var journal := new Journal(_ => None);
    net := new Swarm(COUNTING, map[0 := w], 0, journal);
  }

  lemma FreeNew(w: SpanWorker, key: Key)
    requires w.span == COUNTING_SPAN && w.maxSessions == 1 && key.start == 0
    requires w.sessions == map[] && w.handlers == map[] && w.dropped == {}
    ensures Free(w, key)
  {
  }

  /** So a step that raised with a route cannot be repeated: a session, and the wrong answer it gets. */
  method StepAgainAnswersWrongly(x: Tokens) returns (s: InferenceSession, out: seq<Hidden>)
    requires x.Aligned() && |x.hidden| == 1
    ensures fresh(s) && s.route.Some? && s.seen == NO_TOKENS && s.numLayers == 1
    ensures out != ChunkAt(s.net.model, s.numLayers, s.seen, x).hidden
  {
    hide *;
    var net, w := Alone();
    var h;
    s, h := Departed(net, 0);
    FreeNew(w, Key(s.hopSid[h], 0));
    out := AskAgain(s, h, w, x);
  }
}
