/** dvlm/dreamer/client.py, `Policy`: an agent that acts and imagines on either backend. */
module Agents {
  import opened Wrappers
  import opened RssmServer
  import opened OpLog
  import opened Backends

  function FeaturesAfter(rssm: Rssm, log: seq<Op>): Option<Tensor> {
    match rssm.Fold(log)
    case None => None
    case Some(s) => Some(rssm.features(s))
  }

  datatype Handle = LocalHandle(id: nat) | SwarmHandle(session: StatefulSession)

  /** The sessions that are open: numbers in one process, objects on the swarm. */
  datatype Sessions = Sessions(here: set<nat>, there: set<StatefulSession>) {
    predicate Has(h: Handle) {
      if h.LocalHandle? then h.id in here else h.session in there
    }

    function With(h: Handle): Sessions {
      if h.LocalHandle? then this.(here := here + {h.id}) else this.(there := there + {h.session})
    }

    function Without(h: Handle): Sessions {
      if h.LocalHandle? then this.(here := here - {h.id}) else this.(there := there - {h.session})
    }

    lemma OpenedAndClosed(h: Handle)
      requires !Has(h)
      ensures With(h).Without(h) == this
    {
    }
  }

  /** What an agent runs on; the two offer the same operations. */
  datatype Backend = Local(local: LocalBackend) | Remote(swarm: SwarmBackend)
  {
    function Model(): Rssm {
      if Local? then local.rssm else swarm.net.rssm
    }

    function Encoder(): Frame -> seq<real> {
      if Local? then local.encode else swarm.encode
    }

    ghost function Base(): set<object> {
      if Local? then {local} else {swarm}
    }

    ghost function Objects(): set<object>
      reads Base()
    {
      if Local? then {local}
      else {swarm, swarm.net, swarm.net.journal} + swarm.net.workers.Values + swarm.sessions
    }

    ghost predicate Valid()
      reads Base(), Objects()
    {
      if Local? then local.Valid() else swarm.Valid()
    }

    ghost function Open(): Sessions
      reads Base()
    {
      if Local? then Sessions(local.logs.Keys, {}) else Sessions({}, swarm.sessions)
    }

    /** How many operations have raised because of the swarm. */
    ghost function Raised(): nat
      reads Base()
    {
      if Local? then 0 else swarm.raised
    }

    ghost predicate Holds(h: Handle)
      reads Base()
    {
      if Local? then h.LocalHandle? && h.id in local.logs else h.SwarmHandle? && h.session in swarm.sessions
    }

    ghost predicate Usable(h: Handle)
      requires Holds(h)
      reads Base(), Objects()
    {
      h.SwarmHandle? ==> !h.session.stale
    }

    /** What was done in a session since it was opened, its ancestors' doings included. */
    ghost function Log(h: Handle): seq<Op>
      requires Holds(h)
      reads Base(), Objects()
    {
      if h.LocalHandle? then local.logs[h.id] else h.session.ops
    }

    ghost predicate AllHeld(hs: set<Handle>)
      reads Base()
    {
      forall h <- hs :: Holds(h)
    }

    /** These sessions are what they were. */
    twostate predicate Same(hs: set<Handle>)
      requires old(AllHeld(hs))
      reads Base(), Objects()
    {
      AllHeld(hs) && forall h <- hs :: Log(h) == old(Log(h)) && Usable(h) == old(Usable(h))
    }

    method Encode(obs: seq<Frame>, ghost all: set<Handle>) returns (r: Option<Tensor>)
      requires Valid() && AllHeld(all)
      modifies Objects()
      ensures Valid() && Same(all) && Objects() == old(Objects()) && Open() == old(Open())
      ensures r.Some? ==> r.value == EncodeAll(Encoder(), obs)
      ensures Local? ==> r.Some?
      ensures Raised() == if Local? || r.Some? then old(Raised()) else old(Raised()) + 1
    {
      hide SwarmBackend.Valid, LocalBackend.Valid, SwarmBackend.Unencoded;
      if Local? {
        r := Some(EncodeAll(local.encode, obs));
      } else {
        r := swarm.Encode(obs);
      }
    }

    method NewSession() returns (h: Handle)
      requires Valid()
      modifies Base()
      ensures Valid() && Holds(h) && Usable(h) && Log(h) == [] && fresh(Objects() - old(Objects()))
      ensures var before := old(Open()); !before.Has(h) && Open() == before.With(h)
      ensures Raised() == old(Raised())
    {
      if Local? {
        var id := local.NewSession();
        h := LocalHandle(id);
      } else {
        var session := swarm.NewSession();
        h := SwarmHandle(session);
      }
    }

    method Do(h: Handle, op: Op, ghost others: set<Handle>) returns (r: Option<Tensor>)
      requires Valid() && Holds(h) && Usable(h) && AllHeld(others) && h !in others
      modifies Objects()
      ensures Valid() && Holds(h) && Same(others) && Objects() == old(Objects()) && Open() == old(Open())
      ensures Log(h) == if r.Some? then old(Log(h)) + [op] else old(Log(h))
      ensures r.Some? ==> Usable(h) && r == FeaturesAfter(Model(), Log(h))
      ensures Local? && (op.Observe? || Model().Fold(old(Log(h))).Some?) ==> r.Some?
      ensures Raised() == if Local? || r.Some? then old(Raised()) else old(Raised()) + 1
    {
      hide SwarmBackend.Valid, Rssm.Fold;
      if Local? {
        r := local.Do(h.id, op);
      } else {
        var result := swarm.Do(h.session, op);
        r := if result.Ok? then Some(result.value) else None;
      }
    }

    method Fork(h: Handle, ghost others: set<Handle>) returns (child: Option<Handle>)
      requires Valid() && Holds(h) && Usable(h) && AllHeld(others)
      modifies Objects()
      ensures Valid() && Same(others) && fresh(Objects() - old(Objects()))
      ensures Local? && Model().Fold(old(Log(h))).Some? ==> child.Some?
      ensures child.Some? ==>
                && Holds(child.value) && Usable(child.value) && Log(child.value) == old(Log(h))
                && child.value !in others
      ensures var before := old(Open());
              if child.None? then Open() == before else !before.Has(child.value) && Open() == before.With(child.value)
      ensures Raised() == old(Raised()) && (Remote? ==> child.Some?)
    {
      hide SwarmBackend.Valid, Rssm.Fold;
      if Local? {
        var id := local.Fork(h.id);
        child := if id.Some? then Some(LocalHandle(id.value)) else None;
      } else {
        var session := swarm.Fork(h.session);
        child := Some(SwarmHandle(session));
      }
    }

    method Close(h: Handle, ghost others: set<Handle>)
      requires Valid() && Holds(h) && AllHeld(others) && h !in others
      modifies Objects()
      ensures Valid() && Same(others) && fresh(Objects() - old(Objects())) && Open() == old(Open()).Without(h)
      ensures Raised() == old(Raised())
    {
      hide SwarmBackend.Valid, Rssm.Fold;
      if Local? {
        local.Close(h.id);
      } else {
        swarm.Close(h.session);
      }
    }
  }

  /** The client's part of the agent. Sampling takes its seed as an argument. */
  datatype Heads = Heads(
    act: (Tensor, int, bool) -> Tensor,
    reward: seq<Tensor> -> Tensor,
    continuation: seq<Tensor> -> Tensor,
    value: seq<Tensor> -> Tensor,
    stepSeed: (int, int, int) -> int,
    firstFlags: (nat, bool) -> Tensor)

  datatype Trajectory = Trajectory(features: seq<Tensor>, actions: seq<Tensor>, rewards: Tensor, continues: Tensor,
                                   values: Tensor)

  datatype Event = Acting(obs: seq<Frame>, isFirst: Option<Tensor>) | Imagining(horizon: nat)

  datatype Outcome = Acted(action: Tensor) | Dreamt(trajectory: Trajectory) | Refused

  datatype ImagineError = NothingObserved | EmptyHorizon | BackendFailed

  /* ---------- The agent without any backend ---------- */

  /** All that acting depends on. */
  datatype Agent = Agent(t: nat, prevAction: Tensor, feat: Option<Tensor>, log: seq<Op>)

  /** What an agent with this brain does; everything random is in the seed. */
  datatype Brain = Brain(rssm: Rssm, encode: Frame -> seq<real>, heads: Heads, batchSize: nat, seed: int, greedy: bool)
  {
    function Observation(a: Agent, obs: seq<Frame>, isFirst: Option<Tensor>): Op {
      var flags := if isFirst.Some? then isFirst.value else heads.firstFlags(batchSize, a.t == 0);
      Observe(EncodeAll(encode, obs), a.prevAction, flags, heads.stepSeed(seed, a.t, 0))
    }

    function Act(a: Agent, obs: seq<Frame>, isFirst: Option<Tensor>): Agent {
      var log := a.log + [Observation(a, obs, isFirst)];
      var feat := FeaturesAfter(rssm, log);
      if feat.None? then a
      else Agent(a.t + 1, heads.act(feat.value, heads.stepSeed(seed, a.t, 1), greedy), feat, log)
    }

    lemma ActsOn(a: Agent, obs: seq<Frame>, isFirst: Option<Tensor>, feat: Tensor)
      requires FeaturesAfter(rssm, a.log + [Observation(a, obs, isFirst)]) == Some(feat)
      ensures Act(a, obs, isFirst) ==
                Agent(a.t + 1, heads.act(feat, heads.stepSeed(seed, a.t, 1), greedy), Some(feat),
                      a.log + [Observation(a, obs, isFirst)])
    {
    }

    /** The operations and what comes of j steps of a dream. */
    function Dream(a: Agent, base: int, j: nat): (d: (seq<Op>, seq<Tensor>, seq<Tensor>))
      requires a.feat.Some?
      ensures |d.1| == j + 1 && |d.2| == j
    {
      if j == 0 then (a.log, [a.feat.value], [])
      else
        var (log, feats, actions) := Dream(a, base, j - 1);
        var action := heads.act(feats[j - 1], heads.stepSeed(base, j - 1, 1), greedy);
        var log' := log + [Imagine(action, heads.stepSeed(base, j - 1, 0))];
        (log', feats + [FeaturesAfter(rssm, log').GetOr([])], actions + [action])
    }

    predicate IsDream(a: Agent, base: int, j: nat, log: seq<Op>, feats: seq<Tensor>, actions: seq<Tensor>) {
      a.feat.Some? && Dream(a, base, j) == (log, feats, actions)
    }

    lemma DreamsOn(a: Agent, base: int, j: nat, log: seq<Op>, feats: seq<Tensor>, actions: seq<Tensor>, action: Tensor,
                   feat: Tensor)
      requires IsDream(a, base, j, log, feats, actions)
      requires action == heads.act(feats[j], heads.stepSeed(base, j, 1), greedy)
      requires FeaturesAfter(rssm, log + [Imagine(action, heads.stepSeed(base, j, 0))]) == Some(feat)
      ensures IsDream(a, base, j + 1, log + [Imagine(action, heads.stepSeed(base, j, 0))], feats + [feat],
                      actions + [action])
    {
    }

    lemma DreamEnds(a: Agent, base: int, j: nat, log: seq<Op>, feats: seq<Tensor>, actions: seq<Tensor>)
      requires IsDream(a, base, j, log, feats, actions)
      ensures a.feat.Some? && Dream(a, base, j).1 == feats && Dream(a, base, j).2 == actions
    {
    }

    lemma DreamStarts(a: Agent, base: int)
      requires a.feat.Some?
      ensures IsDream(a, base, 0, a.log, [a.feat.value], [])
    {
    }

    function Imagined(a: Agent, imaginations: nat, horizon: nat): Trajectory
      requires a.feat.Some?
    {
      var (_, feats, actions) := Dream(a, heads.stepSeed(seed, a.t, 2 + imaginations), horizon);
      Trajectory(feats, actions, heads.reward(feats[1..]), heads.continuation(feats[1..]), heads.value(feats))
    }

    /** The agent, how often it has dreamt, and what came of it, after one more event. */
    function Step(a: Agent, n: nat, event: Event): (Agent, nat, Outcome) {
      match event
      case Acting(obs, isFirst) =>
        var a' := Act(a, obs, isFirst);
        (a', n, Acted(a'.prevAction))
      case Imagining(horizon) =>
        if a.feat.None? then (a, n, Refused)
        else (a, n + 1, if horizon == 0 then Refused else Dreamt(Imagined(a, n, horizon)))
    }

    /** What comes of a script, starting as agent `a` that has dreamt n times. */
    function Play(a: Agent, n: nat, events: seq<Event>): (outcomes: seq<Outcome>)
      ensures |outcomes| == |events|
      decreases |events|
    {
      if events == [] then []
      else
        var (a', n', outcome) := Step(a, n, events[0]);
        [outcome] + Play(a', n', events[1..])
    }

    lemma PlayStep(a: Agent, n: nat, events: seq<Event>, i: nat, sofar: seq<Outcome>, all: seq<Outcome>)
      requires i < |events| && sofar + Play(a, n, events[i..]) == all
      ensures var (a', n', outcome) := Step(a, n, events[i]); (sofar + [outcome]) + Play(a', n', events[i + 1..]) == all
    {
      hide Step;
      var (a', n', outcome) := Step(a, n, events[i]);
      assert events[i..][1..] == events[i + 1..];
      assert sofar + ([outcome] + Play(a', n', events[i + 1..])) == (sofar + [outcome]) + Play(a', n', events[i + 1..]);
    }
  }

  class Policy {
    const heads: Heads
    const backend: Backend
    const batchSize: nat
    const seed: int
    const greedy: bool
    var t: nat
    var session: Option<Handle>
    var feat: Option<Tensor>
    var prevAction: Tensor
    var imaginations: nat

    ghost function Mind(): Brain {
      Brain.Brain(backend.Model(), backend.Encoder(), heads, batchSize, seed, greedy)
    }

    ghost predicate Valid()
      reads this, backend.Base(), backend.Objects()
    {
      && backend.Valid() && this !in backend.Objects() + backend.Base()
      && (session.Some? ==> backend.Holds(session.value))
      && (feat.Some? ==> session.Some? && feat == FeaturesAfter(backend.Model(), backend.Log(session.value)))
    }

    /** The session is still of use: it has no stale address. */
    ghost predicate Ready()
      requires Valid()
      reads this, backend.Base(), backend.Objects()
    {
      session.Some? ==> backend.Usable(session.value)
    }

    ghost function View(): Agent
      requires Valid()
      reads this, backend.Base(), backend.Objects()
    {
      Agent(t, prevAction, feat, if session.Some? then backend.Log(session.value) else [])
    }

    /** The open sessions other than the agent's own. */
    ghost function Elsewhere(): Sessions
      reads `session, backend.Base()
    {
      if session.Some? then backend.Open().Without(session.value) else backend.Open()
    }

    constructor (heads: Heads, backend: Backend, batchSize: nat, seed: int, greedy: bool, zeros: Tensor)
      requires backend.Valid()
      ensures Valid() && Ready() && View() == Agent(0, zeros, None, []) && imaginations == 0
      ensures this.backend == backend
              && Mind() == Brain.Brain(backend.Model(), backend.Encoder(), heads, batchSize, seed, greedy)
    {
      hide SwarmBackend.Valid, LocalBackend.Valid, Backend.Log;
      this.heads, this.backend, this.batchSize, this.seed, this.greedy := heads, backend, batchSize, seed, greedy;
      t, session, feat, prevAction, imaginations := 0, None, None, zeros, 0;
    }

    /** `act`: an action that is returned is the one the agent takes without any swarm. If none is
        returned, nothing was forgotten. */
    method Act(obs: seq<Frame>, isFirst: Option<Tensor>) returns (r: Option<Tensor>)
      requires Valid() && Ready()
      modifies this, backend.Base(), backend.Objects()
      ensures Valid() && imaginations == old(imaginations) && fresh(backend.Objects() - old(backend.Objects()))
      ensures backend.Local? ==> r.Some?
      ensures Elsewhere() == old(Elsewhere())
      ensures r.Some? ==> Ready() && View() == Mind().Act(old(View()), obs, isFirst) && r.value == View().prevAction
      ensures r.None? ==> View() == old(View())
      ensures backend.Raised() == if r.Some? then old(backend.Raised()) else old(backend.Raised()) + 1
    {
      hide Backend.Valid, Backend.Holds, Backend.Usable, Backend.Log, Backend.Model, Backend.Encoder, FeaturesAfter,
           Brain.Act, Backend.Raised;
      if session.None? {
        Open();
      }
      r := Perceive(obs, isFirst);
    }

    method Perceive(obs: seq<Frame>, isFirst: Option<Tensor>) returns (r: Option<Tensor>)
      requires Valid() && Ready() && session.Some?
      modifies `t, `feat, `prevAction, backend.Objects()
      ensures Valid() && backend.Objects() == old(backend.Objects()) && backend.Open() == old(backend.Open())
      ensures backend.Local? ==> r.Some?
      ensures r.Some? ==> Ready() && View() == Mind().Act(old(View()), obs, isFirst) && r.value == View().prevAction
      ensures r.None? ==> View() == old(View())
      ensures backend.Raised() == if r.Some? then old(backend.Raised()) else old(backend.Raised()) + 1
    {
      hide Backend.Valid, Backend.Holds, Backend.Usable, Backend.Log, Backend.Model, Backend.Encoder, FeaturesAfter,
           Brain.Act, Backend.Raised;
      ghost var before := View();
      var flags := if isFirst.Some? then isFirst.value else heads.firstFlags(batchSize, t == 0);
      var embed := backend.Encode(obs, {session.value});
      if embed.None? {
        return None;
      }
      var op := Observe(embed.value, prevAction, flags, heads.stepSeed(seed, t, 0));
      var observed := backend.Do(session.value, op, {});
      if observed.None? {
        return None;
      }
      Mind().ActsOn(before, obs, isFirst, observed.value);
      Decide(observed.value);
      return Some(prevAction);
    }

    /** Acts on what was observed last. */
    method Decide(features: Tensor)
      requires backend.Valid() && this !in backend.Objects() + backend.Base()
      requires session.Some? && backend.Holds(session.value) && backend.Usable(session.value)
      requires FeaturesAfter(backend.Model(), backend.Log(session.value)) == Some(features)
      modifies `t, `feat, `prevAction
      ensures Valid() && Ready() && backend.Log(session.value) == old(backend.Log(session.value))
      ensures feat == Some(features) && t == old(t) + 1 && backend.Raised() == old(backend.Raised())
      ensures prevAction == heads.act(features, heads.stepSeed(seed, old(t), 1), greedy)
    {
      hide Backend.Valid, Backend.Holds, Backend.Usable, Backend.Log, Backend.Model, FeaturesAfter;
      feat := Some(features);
      prevAction := heads.act(features, heads.stepSeed(seed, t, 1), greedy);
      t := t + 1;
    }

    method Open()
      requires Valid() && session.None?
      modifies this`session, backend.Base()
      ensures Valid() && Ready() && session.Some? && View() == old(View()) && Elsewhere() == old(Elsewhere())
              && fresh(backend.Objects() - old(backend.Objects()))
      ensures backend.Raised() == old(backend.Raised())
    {
      hide Backend.Raised, Backend.Objects, Backend.Base, Backend.Valid, Backend.Holds, Backend.Usable, Backend.Log,
           Rssm.Fold;
      ghost var before := backend.Open();
      var h := backend.NewSession();
      before.OpenedAndClosed(h);
      session := Some(h);
    }

    /** `imagine`: dreams on a copy of the session. Whatever comes of it, the agent is as it was. */
    method Imagine(horizon: nat) returns (r: Result<Trajectory, ImagineError>)
      requires Valid() && Ready()
      modifies `imaginations, backend.Objects()
      ensures Valid() && Ready() && View() == old(View()) && fresh(backend.Objects() - old(backend.Objects()))
      ensures imaginations == if feat.Some? then old(imaginations) + 1 else old(imaginations)
      ensures r.Ok? ==> feat.Some? && horizon > 0 && r.value == Mind().Imagined(View(), old(imaginations), horizon)
      ensures r.Err? ==> (r.error.NothingObserved? <==> feat.None?) && (r.error.EmptyHorizon? ==> horizon == 0)
      ensures backend.Open() == old(backend.Open())
      ensures backend.Local? && r.Err? ==> !r.error.BackendFailed?
      ensures backend.Raised() == old(backend.Raised()) + if r == Err(BackendFailed) then 1 else 0
    {
      hide Backend.Raised, Backend.Valid, Backend.Holds, Backend.Usable, Backend.Log, Backend.Model, Backend.Encoder,
           Rssm.Fold, Brain.Dream;
      if feat.None? {
        return Err(NothingObserved);
      }
      var base := heads.stepSeed(seed, t, 2 + imaginations);
      imaginations := imaginations + 1;
      ghost var before := backend.Open();
      var fork := backend.Fork(session.value, {session.value});
      if fork.None? {
        return Err(BackendFailed);
      }
      before.OpenedAndClosed(fork.value);
      var dreamt := Dream(fork.value, base, horizon);
      backend.Close(fork.value, {session.value});
      if dreamt.None? {
        return Err(BackendFailed);
      }
      if horizon == 0 {
        return Err(EmptyHorizon);
      }
      var (feats, actions) := dreamt.value;
      var (rewards, continues) := (heads.reward(feats[1..]), heads.continuation(feats[1..]));
      return Ok(Trajectory(feats, actions, rewards, continues, heads.value(feats)));
    }

    /** One event of a script. */
    method PlayOne(event: Event) returns (r: Option<Outcome>)
      requires Valid() && Ready()
      modifies this, backend.Base(), backend.Objects()
      ensures Valid() && fresh(backend.Objects() - old(backend.Objects()))
      ensures r.Some? ==>
                Ready() && (View(), imaginations, r.value) == Mind().Step(old(View()), old(imaginations), event)
      ensures backend.Local? ==> r.Some?
      ensures Elsewhere() == old(Elsewhere())
      ensures backend.Raised() == if r.Some? then old(backend.Raised()) else old(backend.Raised()) + 1
    {
      hide Backend.Valid, Backend.Holds, Backend.Usable, Backend.Log, Backend.Model, Backend.Encoder, FeaturesAfter,
           Brain.Act, Brain.Imagined, Backend.Raised;
      match event {
        case Acting(obs, isFirst) =>
          var action := Act(obs, isFirst);
          r := if action.Some? then Some(Acted(action.value)) else None;
        case Imagining(horizon) =>
          var dreamt := Imagine(horizon);
          match dreamt {
            case Ok(trajectory) => r := Some(Dreamt(trajectory));
            case Err(error) => r := if error.BackendFailed? then None else Some(Refused);
          }
      }
    }

    /** Runs a script until something fails. What came of it is what comes of it without any swarm, and the
        actions are those of the script without its dreams. */
    method Play(events: seq<Event>) returns (outcomes: seq<Outcome>)
      requires Valid() && Ready()
      modifies this, backend.Base(), backend.Objects()
      ensures Valid() && outcomes <= Mind().Play(old(View()), old(imaginations), events)
      ensures Actions(outcomes) <= Actions(Mind().Play(old(View()), old(imaginations), ActsOnly(events)))
      ensures backend.Local? ==> outcomes == Mind().Play(old(View()), old(imaginations), events)
      ensures Elsewhere() == old(Elsewhere())
      ensures backend.Raised() == old(backend.Raised()) + if |outcomes| < |events| then 1 else 0
    {
      hide Backend.Raised, Backend.Valid, Backend.Holds, Backend.Usable, Backend.Log, Backend.Model, Backend.Encoder,
           Brain.Step, Brain.Play, Actions, ActsOnly;
      ghost var all := Mind().Play(View(), imaginations, events);
      DreamsDoNotDisturb(Mind(), View(), imaginations, imaginations, events);
      outcomes := RunScript(events, all);
      ActionsOfPrefix(outcomes, all);
    }

    method RunScript(events: seq<Event>, ghost all: seq<Outcome>) returns (outcomes: seq<Outcome>)
      requires Valid() && Ready() && all == Mind().Play(View(), imaginations, events)
      modifies this, backend.Base(), backend.Objects()
      ensures Valid() && outcomes <= all && (backend.Local? ==> outcomes == all) && Elsewhere() == old(Elsewhere())
      ensures backend.Raised() == old(backend.Raised()) + if |outcomes| < |events| then 1 else 0
    {
      hide Backend.Raised, Backend.Valid, Backend.Holds, Backend.Usable, Backend.Log, Backend.Model, Backend.Encoder,
           Brain.Step, Brain.Play;
      outcomes := [];
      while |outcomes| < |events|
        invariant |outcomes| <= |events| && Valid() && Ready() && fresh(backend.Objects() - old(backend.Objects()))
        invariant Elsewhere() == old(Elsewhere()) && backend.Raised() == old(backend.Raised())
        invariant outcomes + Mind().Play(View(), imaginations, events[|outcomes|..]) == all
      {
        Mind().PlayStep(View(), imaginations, events, |outcomes|, outcomes, all);
        var outcome := PlayOne(events[|outcomes|]);
        if outcome.None? {
          return;
        }
        outcomes := outcomes + [outcome.value];
      }
    }

    /** One step of a dream: an action, and what it leads to. */
    method DreamOnce(fork: Handle, base: int, j: nat, feats: seq<Tensor>, ghost actions: seq<Tensor>)
      returns (r: Option<(Tensor, Tensor)>)
      requires Valid() && Ready() && feat.Some? && fork != session.value && |feats| == j + 1
      requires backend.Holds(fork) && backend.Usable(fork) && FeaturesAfter(backend.Model(), backend.Log(fork)).Some?
      requires Mind().IsDream(View(), base, j, backend.Log(fork), feats, actions)
      modifies backend.Objects()
      ensures Valid() && Ready() && View() == old(View()) && backend.Holds(fork)
      ensures backend.Objects() == old(backend.Objects()) && backend.Open() == old(backend.Open())
      ensures backend.Local? ==> r.Some?
      ensures r.Some? ==>
                && backend.Usable(fork) && FeaturesAfter(backend.Model(), backend.Log(fork)).Some?
                && Mind().IsDream(View(), base, j + 1, backend.Log(fork), feats + [r.value.1], actions + [r.value.0])
      ensures backend.Raised() == if r.Some? then old(backend.Raised()) else old(backend.Raised()) + 1
    {
      hide Backend.Raised, Backend.Valid, Backend.Holds, Backend.Usable, Backend.Log, Backend.Model, Backend.Encoder,
           Rssm.Fold, Brain.Dream, Brain.IsDream;
      ghost var agent, log := View(), backend.Log(fork);
      var action := heads.act(feats[j], heads.stepSeed(base, j, 1), greedy);
      var next := backend.Do(fork, RssmServer.Imagine(action, heads.stepSeed(base, j, 0)), {session.value});
      if next.None? {
        return None;
      }
      Mind().DreamsOn(agent, base, j, log, feats, actions, action, next.value);
      return Some((action, next.value));
    }

    /** The loop of `imagine`, on a session that starts where the agent's stands. */
    method Dream(fork: Handle, base: int, horizon: nat) returns (r: Option<(seq<Tensor>, seq<Tensor>)>)
      requires Valid() && Ready() && feat.Some? && fork != session.value
      requires backend.Holds(fork) && backend.Usable(fork) && backend.Log(fork) == backend.Log(session.value)
      modifies backend.Objects()
      ensures Valid() && Ready() && View() == old(View()) && backend.Holds(fork)
      ensures backend.Objects() == old(backend.Objects()) && backend.Open() == old(backend.Open())
      ensures r.Some? ==> var (_, feats, actions) := Mind().Dream(View(), base, horizon); r.value == (feats, actions)
      ensures backend.Local? ==> r.Some?
      ensures backend.Raised() == if r.Some? then old(backend.Raised()) else old(backend.Raised()) + 1
    {
      hide Backend.Raised, Backend.Valid, Backend.Holds, Backend.Usable, Backend.Log, Backend.Model, Backend.Encoder,
           FeaturesAfter, Brain.Dream, Brain.IsDream;
      Mind().DreamStarts(View(), base);
      var feats, actions, j := [feat.value], [], 0;
      while j < horizon
        invariant j <= horizon && Valid() && Ready() && View() == old(View())
        invariant backend.Holds(fork) && backend.Usable(fork)
        invariant backend.Objects() == old(backend.Objects()) && backend.Open() == old(backend.Open())
        invariant |feats| == j + 1 && backend.Raised() == old(backend.Raised())
        invariant FeaturesAfter(backend.Model(), backend.Log(fork)).Some?
        invariant Mind().IsDream(View(), base, j, backend.Log(fork), feats, actions)
      {
        var next := DreamOnce(fork, base, j, feats, actions);
        if next.None? {
          return None;
        }
        feats, actions, j := feats + [next.value.1], actions + [next.value.0], j + 1;
      }
      Mind().DreamEnds(View(), base, j, backend.Log(fork), feats, actions);
      return Some((feats, actions));
    }
  }

  /* ---------- The same agent on two backends ---------- */

  /** Two agents alike, one in one process and one on the swarm, act alike: if both get an answer it is
      the same action, and they are still alike. */
  method ActTwice(here: Policy, there: Policy, obs: seq<Frame>, isFirst: Option<Tensor>)
    returns (a: Option<Tensor>, b: Option<Tensor>)
    requires here.Valid() && here.Ready() && there.Valid() && there.Ready()
    requires here.backend.Local? && there.backend.Remote?
    requires here != there && here !in there.backend.Objects() && there !in here.backend.Objects()
    requires here.backend.Objects() !! there.backend.Objects()
    requires here.Mind() == there.Mind() && here.View() == there.View()
    modifies here, here.backend.Base(), here.backend.Objects(), there, there.backend.Base(), there.backend.Objects()
    ensures here.Valid() && there.Valid() && a.Some?
    ensures b.Some? ==> a == b && here.Ready() && there.Ready() && here.View() == there.View()
  {
    hide Backend.Valid, Backend.Holds, Backend.Usable, Backend.Log, Backend.Model, Backend.Encoder, FeaturesAfter,
         Brain.Act;
    a := here.Act(obs, isFirst);
    b := there.Act(obs, isFirst);
  }

  /* ---------- Imagining does not disturb acting ---------- */

  function ActsOnly(events: seq<Event>): seq<Event> {
    if events == [] then []
    else if events[0].Acting? then [events[0]] + ActsOnly(events[1..])
    else ActsOnly(events[1..])
  }

  function Actions(outcomes: seq<Outcome>): seq<Tensor> {
    if outcomes == [] then []
    else if outcomes[0].Acted? then [outcomes[0].action] + Actions(outcomes[1..])
    else Actions(outcomes[1..])
  }

  lemma {:induction false} ActionsOfPrefix(some: seq<Outcome>, all: seq<Outcome>)
    requires some <= all
    ensures Actions(some) <= Actions(all)
  {
    if some != [] {
      ActionsOfPrefix(some[1..], all[1..]);
    }
  }

  /** The actions of a script are those of the script without its dreams. */
  lemma {:induction false} DreamsDoNotDisturb(brain: Brain, a: Agent, n: nat, m: nat, events: seq<Event>)
    ensures Actions(brain.Play(a, n, events)) == Actions(brain.Play(a, m, ActsOnly(events)))
    decreases |events|
  {
    hide Brain.Act, Brain.Imagined;
    if events != [] {
      var (a', n', _) := brain.Step(a, n, events[0]);
      DreamsDoNotDisturb(brain, a', n', m, events[1..]);
      if events[0].Acting? {
        assert ActsOnly(events)[1..] == ActsOnly(events[1..]);
      }
    }
  }
}
