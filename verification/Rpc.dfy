/** dvlm/rpc.py, `RpcClient`: many calls share one connection, and a receive loop hands each reply to
    the call whose id it carries.

    A call is a coroutine with two awaits, one while its request is written and one for its future, so
    it is several atomic parts here, and so is the receive loop. Any of them may come next. */
module Rpc {
  type Payload = int

  datatype Reply = Reply(id: nat, ok: bool, payload: Payload)

  datatype Future = Unresolved | Result(payload: Payload) | Remote(payload: Payload) | Lost | Cancelled

  /** A call that has not ended: it holds its id and its future. */
  datatype Call = Writing(future: nat) | Waiting(future: nat)

  datatype Outcome = Returned(payload: Payload) | Rejected(payload: Payload) | ConnectionFailed | TimedOut | CalledOff

  /** What may happen next. Parts that cannot happen in a state leave it as it is. */
  datatype Event =
    | Begin
    | Written(id: nat)
    | WriteFailed(id: nat)
    | Resume(id: nat)
    | TimeOut(id: nat)
    | CallOff(id: nat)
    | Receive(reply: Reply)
    | Lose
    | Crash
    | Closing
    | Close

  /** All a client holds. `outcomes` remembers how calls ended; `crashed` that the receive loop ended
      by an exception it does not handle. */
  datatype Client = Client(
    nextId: nat,
    pending: map<nat, nat>,
    futures: seq<Future>,
    calls: map<nat, Call>,
    outcomes: map<nat, Outcome>,
    receiving: bool,
    closing: bool,
    crashed: bool)
  {
    ghost predicate Valid() {
      // Each id has its own future: the two are numbered alike.
      && |futures| == nextId
      && (forall i :: i in pending ==> i < nextId && pending[i] == i)
      && (forall i :: i in calls ==> i < nextId && calls[i].future == i && i !in outcomes)
      && (forall i :: i in outcomes ==> i < nextId)
      && (forall i :: i in pending ==> i in calls || (i in outcomes && outcomes[i].CalledOff?))
      && (forall i :: i in calls && futures[calls[i].future].Unresolved? ==> i in pending)
      && (!receiving ==> closing && (crashed || pending == map[]))
    }

    function Resolve(f: nat, to: Future): seq<Future>
      requires f < |futures|
    {
      if futures[f].Unresolved? then futures[f := to] else futures
    }

    /** Every pending future that is not resolved fails. */
    function AllFailed(): (r: seq<Future>)
      ensures |r| == |futures|
    {
      seq(|futures|, f requires 0 <= f < |futures| =>
        if futures[f].Unresolved? && f in pending.Values then Lost else futures[f])
    }

    function End(i: nat, outcome: Outcome): Client {
      this.(pending := pending - {i}, calls := calls - {i}, outcomes := outcomes[i := outcome])
    }

    function Next(e: Event): Client {
      match e
      case Begin =>
        if closing then this
        else this.(nextId := nextId + 1, pending := pending[nextId := |futures|], futures := futures + [Unresolved],
                   calls := calls[nextId := Writing(|futures|)])
      case Written(i) =>
        if i in calls && calls[i].Writing? then this.(calls := calls[i := Waiting(calls[i].future)]) else this
      case WriteFailed(i) =>
        if i in calls && calls[i].Writing? then End(i, ConnectionFailed) else this
      case Resume(i) =>
        if i in calls && calls[i].Waiting? && calls[i].future < |futures| then
          match futures[calls[i].future]
          case Unresolved => this
          case Result(p) => End(i, Returned(p))
          case Remote(p) => End(i, Rejected(p))
          case Lost => End(i, ConnectionFailed)
          case Cancelled => End(i, CalledOff)
        else this
      case TimeOut(i) =>
        if i in calls && calls[i].Waiting? && calls[i].future < |futures| && futures[calls[i].future].Unresolved? then
          End(i, TimedOut).(futures := Resolve(calls[i].future, Cancelled))
        else this
      case CallOff(i) =>
        if i !in calls then this
        else if calls[i].Writing? then this.(calls := calls - {i}, outcomes := outcomes[i := CalledOff])
        else if calls[i].future < |futures| then End(i, CalledOff).(futures := Resolve(calls[i].future, Cancelled))
        else this
      case Receive(reply) =>
        if !receiving || reply.id !in pending || pending[reply.id] >= |futures| then this
        else
          var to := if reply.ok then Result(reply.payload) else Remote(reply.payload);
          this.(pending := pending - {reply.id}, futures := Resolve(pending[reply.id], to))
      case Lose =>
        if receiving then this.(pending := map[], futures := AllFailed(), receiving := false, closing := true) else this
      case Crash => if receiving then this.(receiving := false, closing := true, crashed := true) else this
      case Closing => this.(closing := true)
      case Close => this.(pending := map[], futures := AllFailed(), receiving := false, closing := true)
    }

    function Run(es: seq<Event>): Client
      decreases |es|
    {
      if es == [] then this else Run(es[..|es| - 1]).Next(es[|es| - 1])
    }
  }

  const CONNECTED := Client(0, map[], [], map[], map[], true, false, false)

  /* ---------- What holds after any run ---------- */

  lemma ValidEnd(c: Client, i: nat, outcome: Outcome)
    requires c.Valid() && i in c.calls
    ensures c.End(i, outcome).Valid()
  {
  }

  /** A future that is resolved as its call ends troubles nobody. */
  lemma ValidResolve(c: Client, i: nat, to: Future)
    requires c.Valid() && i < |c.futures| && i !in c.calls
    ensures c.(futures := c.Resolve(i, to)).Valid()
  {
  }

  lemma ValidReceive(c: Client, reply: Reply)
    requires c.Valid()
    ensures c.Next(Receive(reply)).Valid()
  {
  }

  lemma ValidFailed(c: Client)
    requires c.Valid()
    ensures c.(pending := map[], futures := c.AllFailed(), receiving := false, closing := true).Valid()
  {
  }

  lemma ValidBegin(c: Client)
    requires c.Valid()
    ensures c.Next(Begin).Valid()
  {
  }

  lemma ValidWritten(c: Client, i: nat)
    requires c.Valid()
    ensures c.Next(Written(i)).Valid()
  {
  }

  lemma ValidShut(c: Client, e: Event)
    requires c.Valid() && (e.Closing? || e.Crash?)
    ensures c.Next(e).Valid()
  {
  }

  lemma ValidEnds(c: Client, e: Event)
    requires c.Valid() && (e.WriteFailed? || e.Resume? || e.TimeOut? || e.CallOff?)
    ensures c.Next(e).Valid()
  {
    var i := e.id;
    if i in c.calls {
      ValidEndings(c, i);
      ValidCallOffWhileWriting(c, i);
      hide Client.Valid, Client.End, Client.Resolve;
    }
  }

  lemma ValidEndings(c: Client, i: nat)
    requires c.Valid() && i in c.calls
    ensures c.calls[i].future < |c.futures|
    ensures forall o :: c.End(i, o).Valid() && c.End(i, o).(futures := c.Resolve(c.calls[i].future, Cancelled)).Valid()
  {
    forall o
      ensures c.End(i, o).Valid() && c.End(i, o).(futures := c.Resolve(c.calls[i].future, Cancelled)).Valid()
    {
      ValidEnd(c, i, o);
      ValidResolve(c.End(i, o), c.calls[i].future, Cancelled);
    }
  }

  /** A call that is called off while its request is written leaves its id behind. */
  lemma ValidCallOffWhileWriting(c: Client, i: nat)
    requires c.Valid() && i in c.calls
    ensures c.(calls := c.calls - {i}, outcomes := c.outcomes[i := CalledOff]).Valid()
  {
  }

  lemma ValidNext(c: Client, e: Event)
    requires c.Valid()
    ensures c.Next(e).Valid()
  {
    match e {
      case Receive(reply) => ValidReceive(c, reply);
      case Lose => ValidFailed(c);
      case Close => ValidFailed(c);
      case Begin => ValidBegin(c);
      case Written(i) => ValidWritten(c, i);
      case Closing => ValidShut(c, e);
      case Crash => ValidShut(c, e);
      case _ => ValidEnds(c, e);
    }
  }

  lemma {:induction false} ValidRun(es: seq<Event>)
    ensures CONNECTED.Run(es).Valid()
  {
    if es != [] {
      ValidRun(es[..|es| - 1]);
      ValidNext(CONNECTED.Run(es[..|es| - 1]), es[|es| - 1]);
    }
  }

  lemma ResolvedOnce(c: Client, e: Event, f: nat)
    requires c.Valid() && f < |c.futures| && !c.futures[f].Unresolved?
    ensures f < |c.Next(e).futures| && c.Next(e).futures[f] == c.futures[f]
  {
  }

  /** A future that is resolved is never resolved again, whatever happens afterwards. */
  lemma {:induction false} ResolvedForGood(es: seq<Event>, k: nat, f: nat)
    requires k <= |es| && f < |CONNECTED.Run(es[..k]).futures| && !CONNECTED.Run(es[..k]).futures[f].Unresolved?
    ensures f < |CONNECTED.Run(es).futures| && CONNECTED.Run(es).futures[f] == CONNECTED.Run(es[..k]).futures[f]
  {
    hide Client.Next, Client.Valid;
    var n := |es|;
    if k < n {
      assert es[..n - 1][..k] == es[..k];
      ResolvedForGood(es[..n - 1], k, f);
      ValidRun(es[..n - 1]);
      ResolvedOnce(CONNECTED.Run(es[..n - 1]), es[n - 1], f);
    } else {
      assert es[..k] == es;
    }
  }

  /** A reply with this content arrived while its call was pending. */
  ghost predicate Arrived(es: seq<Event>, reply: Reply) {
    exists k :: 0 <= k < |es| && ArrivedAt(es, k, reply)
  }

  ghost predicate ArrivedAt(es: seq<Event>, k: nat, reply: Reply) {
    k < |es| && es[k] == Receive(reply) && reply.id in CONNECTED.Run(es[..k]).pending
  }

  lemma ArrivedLater(es: seq<Event>, e: Event, reply: Reply)
    requires Arrived(es, reply)
    ensures Arrived(es + [e], reply)
  {
    var k :| 0 <= k < |es| && ArrivedAt(es, k, reply);
    assert (es + [e])[..k] == es[..k];
    assert ArrivedAt(es + [e], k, reply);
  }

  /** A future that holds a result is the future of the call whose reply brought it. */
  lemma {:induction false} ResultsArrived(es: seq<Event>, i: nat)
    requires i < |CONNECTED.Run(es).futures|
    ensures var fut := CONNECTED.Run(es).futures[i];
            && (fut.Result? ==> Arrived(es, Reply(i, true, fut.payload)))
            && (fut.Remote? ==> Arrived(es, Reply(i, false, fut.payload)))
  {
    if es != [] {
      var n := |es| - 1;
      var c, fut := CONNECTED.Run(es[..n]), CONNECTED.Run(es).futures[i];
      assert es[..n] + [es[n]] == es;
      ValidRun(es[..n]);
      if i < |c.futures| && fut == c.futures[i] {
        ResultsArrived(es[..n], i);
        if fut.Result? || fut.Remote? {
          ArrivedLater(es[..n], es[n], Reply(i, fut.Result?, fut.payload));
        }
      } else if fut.Result? || fut.Remote? {
        ResolvedByReply(c, es[n], i);
        assert ArrivedAt(es, n, Reply(i, fut.Result?, fut.payload));
      }
    }
  }

  /** Only a reply that carries its id brings a call a result. */
  lemma ResolvedByReply(c: Client, e: Event, i: nat)
    requires c.Valid() && i < |c.Next(e).futures| && (i < |c.futures| ==> c.Next(e).futures[i] != c.futures[i])
    requires c.Next(e).futures[i].Result? || c.Next(e).futures[i].Remote?
    ensures i in c.pending && e == Receive(Reply(i, c.Next(e).futures[i].Result?, c.Next(e).futures[i].payload))
  {
    if !e.Receive? {
      NoReplyNoResult(c, e, i);
    }
  }

  lemma NoReplyNoResult(c: Client, e: Event, i: nat)
    requires !e.Receive? && i < |c.Next(e).futures|
    ensures || (i < |c.futures| && c.Next(e).futures[i] == c.futures[i])
            || c.Next(e).futures[i] in {Unresolved, Lost, Cancelled}
  {
  }

  /** Whatever the interleaving, a call that returned a result returned what the reply with its own id
      carried, and one that raised a remote error likewise. */
  lemma {:induction false} CallsReturnTheirOwnReply(es: seq<Event>, i: nat)
    requires i in CONNECTED.Run(es).outcomes
    ensures match CONNECTED.Run(es).outcomes[i]
            case Returned(p) => Arrived(es, Reply(i, true, p))
            case Rejected(p) => Arrived(es, Reply(i, false, p))
            case _ => true
  {
    if es != [] {
      var n := |es| - 1;
      var c := CONNECTED.Run(es[..n]);
      assert es[..n] + [es[n]] == es;
      ValidRun(es[..n]);
      if i in c.outcomes {
        CallsReturnTheirOwnReply(es[..n], i);
        EndsOnce(c, es[n], i);
        match c.outcomes[i] {
          case Returned(p) => ArrivedLater(es[..n], es[n], Reply(i, true, p));
          case Rejected(p) => ArrivedLater(es[..n], es[n], Reply(i, false, p));
          case _ =>
        }
      } else {
        EndsByResuming(c, es[n], i);
        if c.Next(es[n]).outcomes[i].Returned? || c.Next(es[n]).outcomes[i].Rejected? {
          ResultsArrived(es[..n], i);
          ArrivedLater(es[..n], es[n], Reply(i, c.futures[i].Result?, c.futures[i].payload));
        }
      }
    }
  }

  /** The events that can end a call. */
  predicate Ends(e: Event) {
    e.WriteFailed? || e.Resume? || e.TimeOut? || e.CallOff?
  }

  /** An event ends at most the one call it is about, and only an open one. */
  lemma OnlyOneEnds(c: Client, e: Event, j: nat)
    requires !(Ends(e) && e.id == j && j in c.calls)
    ensures j in c.Next(e).outcomes <==> j in c.outcomes
    ensures j in c.outcomes ==> c.Next(e).outcomes[j] == c.outcomes[j]
  {
    hide Client.AllFailed, Client.Resolve;
  }

  /** A call ends once. */
  lemma EndsOnce(c: Client, e: Event, i: nat)
    requires c.Valid() && i in c.outcomes
    ensures i in c.Next(e).outcomes && c.Next(e).outcomes[i] == c.outcomes[i]
  {
    OnlyOneEnds(c, e, i);
    hide Client.Next;
  }

  lemma EndsByResuming(c: Client, e: Event, i: nat)
    requires c.Valid() && i !in c.outcomes && i in c.Next(e).outcomes
    ensures i < |c.futures|
    ensures match c.Next(e).outcomes[i]
            case Returned(p) => c.futures[i] == Result(p)
            case Rejected(p) => c.futures[i] == Remote(p)
            case _ => true
  {
    if !(Ends(e) && e.id == i && i in c.calls) {
      OnlyOneEnds(c, e, i);
    } else {
      EndedBy(c, e);
    }
    hide Client.Next;
  }

  lemma EndedBy(c: Client, e: Event)
    requires Ends(e) && e.id in c.calls && e.id !in c.outcomes && e.id in c.Next(e).outcomes
    ensures match c.Next(e).outcomes[e.id]
            case Returned(p) => c.calls[e.id].future < |c.futures| && c.futures[c.calls[e.id].future] == Result(p)
            case Rejected(p) => c.calls[e.id].future < |c.futures| && c.futures[c.calls[e.id].future] == Remote(p)
            case _ => true
  {
    hide Client.AllFailed, Client.Resolve;
  }

  /** A reply changes nothing for any other call, and nothing at all once its own call has ended. */
  lemma RepliesReachOnlyTheirCall(es: seq<Event>, reply: Reply, j: nat)
    requires j != reply.id && j < |CONNECTED.Run(es).futures|
    ensures var c := CONNECTED.Run(es);
            var d := c.Next(Receive(reply));
            && d.calls == c.calls && d.outcomes == c.outcomes
            && |d.futures| == |c.futures| && d.futures[j] == c.futures[j]
            && (j in d.pending <==> j in c.pending)
            && (reply.id in c.outcomes && !c.outcomes[reply.id].CalledOff? ==> d == c)
  {
    ValidRun(es);
    var c := CONNECTED.Run(es);
    if reply.id in c.outcomes && !c.outcomes[reply.id].CalledOff? {
      assert reply.id !in c.pending by { assert c.Valid(); }
    }
  }

  /* ---------- What a call ends with ---------- */

  lemma CallStays(c: Client, e: Event, i: nat)
    requires i in c.calls && !(Ends(e) && e.id == i) && c.Valid()
    ensures i in c.Next(e).calls
  {
    hide Client.AllFailed, Client.Resolve;
  }

  /** A resolved future waits for its call, whatever happens to others. */
  lemma {:induction false} SettledStays(c: Client, es: seq<Event>, i: nat)
    requires c.Valid() && i in c.calls && i < |c.futures| && !c.futures[i].Unresolved?
    requires forall e <- es :: !(Ends(e) && e.id == i)
    ensures var d := c.Run(es); d.Valid() && i in d.calls && i < |d.futures| && d.futures[i] == c.futures[i]
  {
    hide Client.Next, Client.Valid;
    if es != [] {
      var n := |es| - 1;
      var d := c.Run(es[..n]);
      SettledStays(c, es[..n], i);
      ValidNext(d, es[n]);
      CallStays(d, es[n], i);
      ResolvedOnce(d, es[n], i);
    }
  }

  lemma EndsWith(c: Client, i: nat)
    requires c.Valid() && i in c.calls && c.calls[i].Waiting? && !c.futures[i].Unresolved?
    ensures i in c.Next(Resume(i)).outcomes && i !in c.Next(Resume(i)).calls && i !in c.Next(Resume(i)).pending
    ensures c.Next(Resume(i)).outcomes[i] ==
              match c.futures[i]
              case Result(p) => Returned(p)
              case Remote(p) => Rejected(p)
              case Lost => ConnectionFailed
              case _ => CalledOff
  {
  }

  /** A call whose reply arrives before anything else ends it gets that reply: it returns the result, or raises
      the remote error, whatever else happens before it is resumed. */
  lemma ReplyIsReturned(c: Client, es: seq<Event>, i: nat, ok: bool, p: Payload)
    requires c.Valid() && c.receiving && i in c.calls && c.futures[i].Unresolved?
    requires forall e <- es :: !(Ends(e) && e.id == i)
    ensures var d := c.Next(Receive(Reply(i, ok, p))).Run(es);
            && i in d.calls
            && (d.calls[i].Waiting? ==>
                  && i in d.Next(Resume(i)).outcomes
                  && d.Next(Resume(i)).outcomes[i] == if ok then Returned(p) else Rejected(p))
  {
    var first := c.Next(Receive(Reply(i, ok, p)));
    ValidReceive(c, Reply(i, ok, p));
    assert i in first.calls && first.futures[i] == if ok then Result(p) else Remote(p);
    hide Client.Next, Client.Valid;
    SettledStays(first, es, i);
    if first.Run(es).calls[i].Waiting? {
      EndsWith(first.Run(es), i);
    }
  }

  /** A call that still waits when the connection is lost, or the client closed, raises a connection error. */
  lemma LossIsRaised(c: Client, e: Event, es: seq<Event>, i: nat)
    requires c.Valid() && i in c.calls && c.futures[i].Unresolved? && (e.Close? || (e.Lose? && c.receiving))
    requires forall e' <- es :: !(Ends(e') && e'.id == i)
    ensures var d := c.Next(e).Run(es);
            && i in d.calls
            && (d.calls[i].Waiting? ==>
                  i in d.Next(Resume(i)).outcomes && d.Next(Resume(i)).outcomes[i] == ConnectionFailed)
  {
    var first := c.Next(e);
    ValidFailed(c);
    assert i in first.calls && first.futures[i] == Lost by {
      assert c.pending[i] == i && i in c.pending.Values;
    }
    hide Client.Next, Client.Valid;
    SettledStays(first, es, i);
    if first.Run(es).calls[i].Waiting? {
      EndsWith(first.Run(es), i);
    }
  }

  /** How a call ends otherwise: by its timeout, by being called off, or because its request was not written.
      Only one that is called off while its request is written leaves its id behind. */
  lemma OtherEndings(c: Client, i: nat)
    requires c.Valid() && i in c.calls
    ensures c.calls[i].Waiting? && c.futures[i].Unresolved? ==>
              var d := c.Next(TimeOut(i)); i in d.outcomes && d.outcomes[i] == TimedOut && i !in d.pending
    ensures var d := c.Next(CallOff(i));
            && i in d.outcomes && d.outcomes[i] == CalledOff
            && (i in d.pending <==> c.calls[i].Writing? && i in c.pending)
    ensures c.calls[i].Writing? ==>
              var d := c.Next(WriteFailed(i)); i in d.outcomes && d.outcomes[i] == ConnectionFailed && i !in d.pending
  {
    hide Client.AllFailed, Client.Resolve;
  }

  /* ---------- The end of the connection ---------- */

  /** Once the receive loop has ended other than by an exception it does not handle, no call is left
      waiting for a future that nobody will resolve. */
  lemma NoCallIsStranded(es: seq<Event>, i: nat)
    requires Crash !in es
    requires !CONNECTED.Run(es).receiving && i in CONNECTED.Run(es).calls
    ensures CONNECTED.Run(es).calls[i].future < |CONNECTED.Run(es).futures|
    ensures !CONNECTED.Run(es).futures[CONNECTED.Run(es).calls[i].future].Unresolved?
  {
    ValidRun(es);
    CrashedByCrash(es);
  }

  lemma OnlyCrashCrashes(c: Client, e: Event)
    requires e != Crash && !c.crashed
    ensures !c.Next(e).crashed
  {
  }

  lemma {:induction false} CrashedByCrash(es: seq<Event>)
    requires Crash !in es
    ensures !CONNECTED.Run(es).crashed
  {
    hide Client.Next;
    if es != [] {
      var n := |es| - 1;
      CrashedByCrash(es[..n]);
      OnlyCrashCrashes(CONNECTED.Run(es[..n]), es[n]);
    }
  }

  /** What can still end a call whose connection crashed. */
  predicate Rescues(e: Event, i: nat) {
    e.Close? || e == TimeOut(i) || e == CallOff(i) || e == WriteFailed(i)
  }

  /** After an exception the loop does not handle, a call whose future was open waits on: neither a
      reply nor anything else brings it back, other than its own timeout, its own cancellation, or the
      client's close. */
  lemma {:induction false} CrashStrands(c: Client, es: seq<Event>, i: nat)
    requires c.Valid() && c.receiving && i in c.calls && c.futures[i].Unresolved?
    requires forall e <- es :: !Rescues(e, i)
    ensures var d := c.Next(Crash).Run(es); d.Valid() && !d.receiving && i in d.calls && d.futures[i].Unresolved?
  {
    hide Client.Next;
    if es == [] {
      ValidNext(c, Crash);
      Crashed(c, i);
    } else {
      var n := |es| - 1;
      CrashStrands(c, es[..n], i);
      ValidNext(c.Next(Crash).Run(es[..n]), es[n]);
      StillStranded(c.Next(Crash).Run(es[..n]), es[n], i);
    }
  }

  lemma Crashed(c: Client, i: nat)
    requires c.Valid() && c.receiving && i in c.calls && c.futures[i].Unresolved?
    ensures !c.Next(Crash).receiving && i in c.Next(Crash).calls && c.Next(Crash).futures[i].Unresolved?
  {
  }

  lemma StillStranded(c: Client, e: Event, i: nat)
    requires c.Valid() && !c.receiving && i in c.calls && c.futures[i].Unresolved? && !Rescues(e, i)
    ensures !c.Next(e).receiving && i in c.Next(e).calls && i < |c.Next(e).futures| && c.Next(e).futures[i].Unresolved?
  {
    hide Client.AllFailed;
    match e {
      case WriteFailed(_) =>
      case Resume(_) =>
      case TimeOut(_) =>
      case CallOff(_) =>
      case _ =>
    }
  }

  lemma TimesOut(c: Client, i: nat)
    requires i in c.calls && c.calls[i].Waiting? && c.calls[i].future < |c.futures|
    requires c.futures[c.calls[i].future].Unresolved?
    ensures c.Next(TimeOut(i)) == c.End(i, TimedOut).(futures := c.futures[c.calls[i].future := Cancelled])
  {
  }

  /* ---------- The client itself ---------- */

  class RpcClient {
    var nextId: nat
    var pending: map<nat, nat>
    var futures: seq<Future>
    var calls: map<nat, Call>
    var receiving: bool
    var closing: bool
    ghost var outcomes: map<nat, Outcome>
    ghost var crashed: bool

    ghost function State(): Client
      reads this
    {
      Client(nextId, pending, futures, calls, outcomes, receiving, closing, crashed)
    }

    ghost predicate Valid()
      reads this
    {
      State().Valid()
    }

    /** A connected client. */
    constructor ()
      ensures Valid() && State() == CONNECTED
    {
      nextId, pending, futures, calls, receiving, closing := 0, map[], [], map[], true, false;
      outcomes, crashed := map[], false;
    }

    /** `call` up to its first await; refused on a connection that is closing. */
    method Begin() returns (id: nat, refused: bool)
      requires Valid()
      modifies this
      ensures Valid() && State() == old(State()).Next(Event.Begin) && refused == old(closing)
      ensures !refused ==> id !in old(calls) && id !in old(outcomes) && id !in old(pending) && id in calls
    {
      ValidNext(State(), Event.Begin);
      if closing {
        return 0, true;
      }
      id, refused := nextId, false;
      nextId := nextId + 1;
      var fut := |futures|;
      futures := futures + [Unresolved];
      pending := pending[id := fut];
      calls := calls[id := Writing(fut)];
    }

    /** The request is written: the call awaits its future. */
    method Sent(id: nat)
      requires Valid() && id in calls && calls[id].Writing?
      modifies this
      ensures Valid() && State() == old(State()).Next(Written(id))
    {
      ValidNext(State(), Written(id));
      calls := calls[id := Waiting(calls[id].future)];
    }

    /** The end of a call, whichever it is. */
    method Finish(id: nat, ghost outcome: Outcome)
      requires Valid() && id in calls
      modifies this
      ensures State() == old(State()).End(id, outcome)
    {
      pending, calls := pending - {id}, calls - {id};
      outcomes := outcomes[id := outcome];
    }

    method SendFailed(id: nat)
      requires Valid() && id in calls && calls[id].Writing?
      modifies this
      ensures Valid() && State() == old(State()).Next(WriteFailed(id))
    {
      ValidNext(State(), WriteFailed(id));
      Finish(id, ConnectionFailed);
    }

    /** The call's future is resolved, and the call ends with what it holds. */
    method Return(id: nat) returns (result: Future)
      requires Valid() && id in calls && calls[id].Waiting? && !futures[calls[id].future].Unresolved?
      modifies this
      ensures Valid() && State() == old(State()).Next(Resume(id)) && result == old(futures)[old(calls)[id].future]
    {
      ValidNext(State(), Resume(id));
      result := futures[calls[id].future];
      ghost var outcome := match result
        case Result(p) => Returned(p)
        case Remote(p) => Rejected(p)
        case Lost => ConnectionFailed
        case _ => CalledOff;
      Finish(id, outcome);
    }

    /** The wait is over, and so is the future. */
    method Expire(id: nat)
      requires Valid() && id in calls && calls[id].Waiting? && futures[calls[id].future].Unresolved?
      modifies this
      ensures Valid() && State() == old(State()).Next(TimeOut(id))
    {
      hide Client.Next;
      ValidNext(State(), TimeOut(id));
      TimesOut(State(), id);
      futures := futures[calls[id].future := Cancelled];
      Finish(id, TimedOut);
    }

    /** One turn of the receive loop. A reply nobody waits for is skipped. */
    method OnReply(reply: Reply)
      requires Valid() && receiving
      modifies this
      ensures Valid() && State() == old(State()).Next(Receive(reply))
    {
      ValidNext(State(), Receive(reply));
      if reply.id !in pending {
        return;
      }
      var fut := pending[reply.id];
      pending := pending - {reply.id};
      if !futures[fut].Unresolved? {
        return;
      }
      futures := futures[fut := if reply.ok then Result(reply.payload) else Remote(reply.payload)];
    }

    /** `_fail_all`: fails every pending future that is not resolved, and forgets them all. */
    method FailAll()
      requires forall i :: i in pending ==> i < |futures| && pending[i] == i
      modifies `pending, `futures
      ensures pending == map[] && futures == old(State()).AllFailed()
    {
      var todo := pending.Keys;
      while todo != {}
        invariant pending == old(pending) && todo <= pending.Keys && |futures| == |old(futures)|
        invariant forall f :: 0 <= f < |futures| ==>
                    futures[f] ==
                      if old(futures)[f].Unresolved? && f in pending && f !in todo then Lost else old(futures)[f]
      {
        var id :| id in todo;
        var fut := pending[id];
        if futures[fut].Unresolved? {
          futures := futures[fut := Lost];
        }
        todo := todo - {id};
      }
      assert forall f :: f in pending <==> f in pending.Values by {
        assert forall f :: f in pending ==> pending[f] == f;
      }
      pending := map[];
    }

    /** The receive loop ends by an exception it handles. */
    method OnLost()
      requires Valid() && receiving
      modifies this
      ensures Valid() && State() == old(State()).Next(Lose)
    {
      ValidNext(State(), Lose);
      FailAll();
      receiving, closing := false, true;
    }

    /** The receive loop ends by another exception. */
    method OnCrash()
      requires Valid() && receiving
      modifies this
      ensures Valid() && State() == old(State()).Next(Crash)
    {
      ValidNext(State(), Crash);
      receiving, closing, crashed := false, true, true;
    }

    method Close()
      requires Valid()
      modifies this
      ensures Valid() && State() == old(State()).Next(Event.Close)
    {
      ValidNext(State(), Event.Close);
      receiving, closing := false, true;
      FailAll();
    }
  }
}
