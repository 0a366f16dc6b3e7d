# Verified model of DVLM

DVLM runs one model on a swarm of peers that come and go. A client plans a chain of servers, sends
hidden states through it, and keeps what it sent; when a server fails, it finds another and replays.
The promise (docs/DESIGN.md, decision D11) is that nobody can tell: the tokens are those of the whole
model in one process. The same client code drives a DreamerV3 agent whose recurrent state lives on a
worker, with the same promise.

This project models that machinery in Dafny and proves the promises, over every schedule of failures,
late messages, cancelled handlers, restarts, evictions and registry answers.

| file | what it models |
|---|---|
| Decoder.dfy | the causal mask, cached layers, spans, and the single-process decoder they must agree with |
| SpanServer.dfy | a span worker: session table, handlers with an await in their middle, admission, collection |
| SwarmNetwork.dfy | the network around one inference session, with all the environment may do |
| SessionState.dfy | what a worker must hold for a hop, and why less is not enough |
| Inference.dfy | planning, forwarding, recovery, `step`, `close` |
| Footings.dfy, Routes.dfy | what a session's hops stand on, and consecutive hops, as values |
| RepeatedStep.dfy | why a `step` that raised with a route cannot be repeated |
| Generation.dfy, EncoderCache.dfy, EncoderPool.dfy | `generate`, `encode_images` and its cache, the order of encoders and `encode_on_pool` |
| Routing.dfy, Placement.dfy | `find_route`, `choose_span` |
| RssmServer.dfy, RssmNetwork.dfy | a recurrent-state worker, and the network around one client of it |
| OpLog.dfy | the operation log with replay and forks |
| Overlap.dfy | calls on many sessions of one client, under way at once |
| Backends.dfy, Agents.dfy | local and swarm backend, and the agent on either |
| Rpc.dfy | the multiplexed RPC client |
| Journals.dfy | the registry's answers, and a record of what a client asked and what failed |
| Wrappers.dfy, Ids.dfy | option and result types, names |

`dafny verify dfyconfig.toml` checks everything.

## How it is set up

*Single process.* A decoder layer is two uninterpreted functions, one for the key/value a token leaves
behind and one for its output from the key/values it may see. `Decoder.At` runs whole layers over whole
sequences; everything distributed is compared with it. For the agent, `RssmServer.Rssm.Fold` applies a
log of operations to a fresh state, and `Agents.Brain` is the agent around it.

*Asynchrony.* A handler of a worker is three atomic parts around its await, and whatever stands between
two parts is in the worker's `handlers`. A call is a sequence of parts with arbitrary interference before,
between and after them, and its caller may give up at any of these points. A request that was given up may
still arrive, run, run half-way, or be cancelled, at any later time.

*The registry, and what was asked.* A network has a `Journals.Journal`. Its `registry` is a constant: the answer to
each lookup, any rows or none at all, fixed beforehand and read by nobody but the lookup. So an error that says that
nobody could be found is stated over what the registry really gave. The journal also records the lookups, the calls
that failed, the closing calls, the forks and the encoders that were asked. Only its own methods write it,
and the contracts of the clients say how each operation moves it.

*Overlapping calls.* `OpLog.StatefulSession.Call` is one call from beginning to end, with the environment in
between. In `Overlap` the same call is a coroutine that takes one part at a time, so that any number of calls
on different sessions are under way at once, each attaching, replaying, failing and retrying on its own.

*One hypothesis.* A session that a worker has dropped, by timeout or by restarting at its address, is
never answered again. For span workers it is built into `SwarmNetwork.Swarm.Reach`; for recurrent-state
workers into `RssmNetwork.RssmSwarm.Send` and its counterpart `PartBegin`, and there for `observe` only,
because the worker itself refuses the other operations. It is needed: both `forward`
(dvlm/server.py:60-66) and `observe` (dvlm/dreamer/server.py:48-55) silently open an empty session under an id
they have forgotten.
`OnlyWholeCachesAnswerRight` and `OnlyWholeLogsAnswerRight` show when such an answer is wrong.

## What the proofs brought up

- `encode_images` can fail with a KeyError on a request that is not larger than the cache
  (dvlm/client.py:224-229), because misses evict hits before these are marked as used. The exact
  condition is `EncoderCache.FitsCache`; an example is `FittingRequestCanFail`.
- `StatefulSession._fail` before the first attachment, when only the registry failed, raises an
  AttributeError, since `peer_id` is not set yet (dvlm/dreamer/client.py:87): the error `NeverAttached`.
- After "too many peer failures" a `StatefulSession` keeps the address it had, if any
  (dvlm/dreamer/client.py:82-88). Without one, as when the registry was the last to fail, a further call
  replays the whole log and is right. With one, a further call goes to a worker that need not have caught up.
  So the contracts ask for a session that is not `stale`: its last call did not raise this error and leave an
  address. A caller can see that from `!Spent() || address.None?` (`SeenNotStale`). What a stale session
  answers is right exactly when its worker happens to stand at a log as long as the session's own
  (`AnswersRightIffCaughtUp`), and `StaleAnswersWrongly` leads to one that answers wrongly.
- A `fork` that overlaps a call on its own parent can give a child whose state is ahead of its log, because the
  log is copied before the server copies the state (dvlm/dreamer/client.py:102-111). The child's next answer is
  right exactly when no operation of the parent came between (`ForkedRightIffNothingBetween`);
  `OverlappedForkAnswersWrongly` is a case where one did. So the caller's guard is that no call on the parent is
  under way. `StatefulSession.Fork` is right under it.
- A `step` that raises when it has a route cannot be repeated (dvlm/client.py:136-156): the failed hop stays in
  the route under an id that is dead, and hops before it have logged the chunk. The hop may have run the chunk
  although its reply was lost. For a model that counts, it answers the chunk again as the single-process model
  would exactly when its cache holds as many tokens as the session has seen (`RepeatedRightIffUnseen`), and
  `StepAgainAnswersWrongly` is a case where it does not. A step that raises before it has a route can be
  repeated: that is the clause `r.Err? && route.None? ==> Valid()` of `Step`.
- An RPC receive loop that ends by an exception it does not list, such as a frame it cannot decode, leaves
  its callers to their timeouts (dvlm/rpc.py:103-107): `CrashStrands`.
- `imagine` with a horizon of 0 fails when it stacks no actions (dvlm/dreamer/client.py:196); the fork is
  closed all the same.

## Model

| member | source | states |
|---|---|---|
| `Decoder.AtAppend` | dvlm/parts.py:54-86 | Causality of the whole decoder: at every layer, the rows of earlier tokens are the same whether or not later tokens follow. |
| `Decoder.AtRow` | dvlm/parts.py:68-86 | The single-process decoder row by row: entering layer 0 the tokens are themselves; row i of the next layer is that layer's attention, at the token's own position, over what the layer projects from tokens 0..i, each at its own position. |
| `Decoder.CausalMaskShowsPrefix` | dvlm/parts.py:18-26 | The mask has the shape attention needs and shows query i of a chunk exactly the cached tokens before the chunk and the chunk itself up to i; no mask for a single query means the same. |
| `Decoder.LayerIsMonolith` | dvlm/parts.py:76-85 | One layer over a chunk and a cache that holds the past equals that layer of the single-process model on past and chunk together. |
| `Decoder.RunLayersIsMonolith` | dvlm/parts.py:68-86 | Over a cache that holds the past, layers [l, end) give exactly the single-process rows of the chunk, leave a cache that holds past and chunk, touch no other slot, and can fail only because a layer raised. |
| `Decoder.DecoderSpan.Forward` | dvlm/parts.py:54-86 | The loop over local layers, with its cache extended in place layer by layer, computes `DecoderSpan.Run`, including what a run that raises half-way leaves behind. |
| `Decoder.SlotHolds` | dvlm/parts.py:54-86 | In a cache that holds what the single-process model would have left, entry i of a layer's slot is the layer's projection of that layer's row i at token i's own position. |
| `Decoder.DecoderSpan.RunAppends` | dvlm/parts.py:54-86 | Whatever the cache held, a run appends to its first layer's slot the projection of each token at its own position, in order, and leaves the slots before it alone. |
| `Decoder.ThroughIsMonolith` | dvlm/parts.py:54-86 | A chunk sent through any partition of the layers into (possibly mid-way entered) spans whose caches hold the past gives the single-process rows and advances every cache. |
| `Decoder.ChunkingAndPartitionInvariance` | dvlm/parts.py:18-86 | From empty caches, any chunking of the tokens through any partition of the layers gives the outputs, and leaves the caches, of one pass over everything. |
| `SpanServer.SpanWorker.Begin` | dvlm/server.py:54-72 | The part of `forward` before its await: an unknown key is refused exactly when the table is full even without its expired sessions, a known one exactly when its layer range differs; otherwise, for matching lengths, the session (a new one with an empty cache) has a handler that has read how many tokens it has seen. The table is otherwise the one before, without its expired sessions only if a new one would not have fitted. |
| `SpanServer.SpanWorker.Gc` | dvlm/server.py:88-91 | Exactly the sessions last used before the cutoff go. |
| `SpanServer.SpanWorker.KeptAreUsed` | dvlm/server.py:60-66 | What is left of a full table for a new session is what was used since the cutoff, and of another all. |
| `SpanServer.SpanWorker.Admit` | dvlm/server.py:60-66 | A session is opened if and only if the table, without its expired sessions if it is full, has room; either way the table is otherwise that one. |
| `SpanServer.SpanWorker.Run` | dvlm/server.py:74-77 | The executor runs the span over the session cache in place, from the length read earlier; a run that raises leaves its handler gone and the cache as the run left it. |
| `SpanServer.SpanWorker.Commit` | dvlm/server.py:78-79 | The length grows by the chunk, for the session the handler began with and no other, and the output is what the run computed. |
| `SpanServer.SpanWorker.Close` | dvlm/server.py:81-83 | Exactly the sessions of that id go, at every entry layer. |
| `SpanServer.CommittedIsAnswered` | dvlm/server.py:54-79 | Begin, run and commit of one handler, with nothing else at work for its id, amount to one atomic forward from the state the session had at the start. |
| `SpanServer.AnsweredWhenSpared` | dvlm/server.py:54-79 | What was answered for a live id is not undone by anything the worker does for other ids. |
| `SwarmNetwork.Swarm.Interfere` | dvlm/server.py:54-91 | However many messages arrive late or are lost, handlers advance or are cancelled, workers collect or restart, and other clients send, nothing of a live id of this client changes, except that its session may be dropped. |
| `SwarmNetwork.Swarm.HandOut` | dvlm/client.py:98-100 | A newly handed-out id is live and no worker has anything under it. |
| `SwarmNetwork.Swarm.Forward` | dvlm/client.py:103-115 | One forward call under every schedule: an answer means it ran exactly once from the session as it stood; a failure makes its id dead for ever, and is recorded; nothing of the other live ids changed; the worker never complains about the layer range. |
| `SwarmNetwork.Swarm.Close` | dvlm/client.py:158-165 | An answered close leaves no session of that id on any worker. |
| `SessionState.AnsweredAdvances` | dvlm/server.py:54-79 | If a worker has seen exactly the tokens `past` of the single-process run at its layers, an answered forward returns the next layers' single-process rows and the worker has then seen past and chunk. |
| `SessionState.OnlyWholeCachesAnswerRight` | dvlm/server.py:60-66 | For a model that counts, which states of a worker answer, and that an answer is right if and only if the cache holds as many tokens as came before: a forgotten session, or a single token sent twice, is answered wrongly. |
| `RepeatedStep.RepeatedRightIffUnseen` | dvlm/client.py:136-156 | For a model that counts, a chunk that is sent again to the first hop, under the id the hop had, is answered as the single-process model would if and only if the hop's cache holds as many tokens as the session has seen. |
| `RepeatedStep.LostReply` | dvlm/client.py:117-151 | What `step` leaves when its hop runs the chunk, the reply is lost and the registry's next answer is none: books that balance, an excluded peer, a dead id, and a server that has the chunk. |
| `RepeatedStep.StepAgainAnswersWrongly` | dvlm/client.py:136-156 | A session over one worker that nothing disturbs, with a registry that never answers, whose chunk, sent again after that, is answered wrongly. |
| `Inference.InferenceSession.Forward` | dvlm/client.py:103-115 | A hop whose server has seen the past returns the single-process rows at its end layer, or fails as that hop; every hop that begins elsewhere keeps its id, its log and what its server has seen. |
| `Inference.InferenceSession.RecordFailure` | dvlm/client.py:117-122 | The failed peer is excluded, and the error is raised exactly when the count passes the limit. |
| `Inference.InferenceSession.Choose` | dvlm/client.py:95-96 | One lookup, and by all the rows the registry gave in it a cheapest route on no excluded peer; an error exactly when the registry was silent, or answered and some layer has no usable server among those rows. |
| `Inference.InferenceSession.Plan` | dvlm/client.py:95-101 | One lookup; by its rows a cheapest route over the range on no excluded peer, each hop under a fresh id whose server has seen nothing; hops elsewhere keep their ids, logs and servers; an error has its reason in the registry's answer. |
| `Inference.InferenceSession.Replay` | dvlm/client.py:126-133 | Replaying the concatenated history brings each new hop to exactly the tokens the old one had seen, each with its own single-process activations logged; a replay that breaks off leaves a log that is still good. |
| `Inference.InferenceSession.Recover` | dvlm/client.py:124-134 | Recovery of [start, end) asks the registry once and yields a cheapest route by its rows, whose servers and logs stand where the failed hop stood, or an intact log to try again from; logs, ids and servers of all hops that begin outside are untouched; at most end - start forwards; an error other than a failed hop has its reason in the registry's answer. |
| `Inference.InferenceSession.Replace` | dvlm/client.py:144-151 | The inner retry loop ends, with exactly one recovery for each failure within the limit, with a recovered range or a terminal error; TooManyFailures exactly when the limit is passed; hops that begin outside the range keep ids, logs and servers. |
| `Footings.NothingLogged` | dvlm/client.py:126-127 | When nothing is logged at a range's first layer, nothing is logged inside it either, so skipping the replay is right. |
| `Inference.InferenceSession.Step` | dvlm/client.py:136-156 | Failover transparency: whenever `step` returns, its result is the last chunk of the single-process decoder on everything sent so far, for every failure schedule, registry answer and re-partitioning; the invariant of the session holds again. It always ends, with at most L + f(L+1) forwards for f failures, each of them the failure of a call and each within the limit followed by one lookup; no more peers are excluded than failed, hops of peers that have not failed stay in the route, and no boundary ever disappears; without failures the route stays, and a first one is a cheapest by the registry's rows. An error means that the registry's last answer was none, that its rows left a layer without a usable server, or that the limit was passed. A first step that found no route may be repeated. |
| `Inference.InferenceSession.Close` | dvlm/client.py:158-165 | Asks, in order, every server an id was handed out for, but no excluded peer, to drop that id's sessions; afterwards any session of this client left on any worker is on an excluded peer or one whose closing call failed. |
| `Inference.DueIsOwed` | dvlm/client.py:158-165 | The closing calls that are owed are one for each id handed out for a peer that is not excluded, and no others. |
| `Generation.SpliceAt` | dvlm/parts.py:98-110 | The k-th image placeholder gets the k-th visual embedding and every other token its own embedding. |
| `Generation.FlattenAt` | dvlm/parts.py:105-109 | Joined, the embeddings are in the order of the images: embedding t of image k comes after all those of the images before it. |
| `Generation.DistributedVlm.PromptFits` | dvlm/parts.py:98-107 | A prompt is refused exactly when it has images and the number of its placeholders is not the number of their embeddings. |
| `Generation.DistributedVlm.PromptRow` | dvlm/parts.py:98-110 | Row i of the prompt is the embedding of token i; for a placeholder of a prompt with images it is embedding t of image k, the one that as many embeddings come before as placeholders come before i. |
| `Generation.DistributedVlm.EncodeImages` | dvlm/client.py:199-230 | On success every image of the prompt, duplicates included, is encoded as it would be directly, in order; given that encoders answer, success if and only if the request fits the cache; the cache stays sound and within its capacity, and its order is by last use. Only what is missing is asked for, with one lookup, and an encoder has answered for each of it. Every failure has its reason and leaves a known cache: as it was, or with the new entries in it and the keys marked as used up to the first that was evicted. |
| `Generation.DistributedVlm.EncodeMissing` | dvlm/client.py:210-223 | After one lookup, an encoder answers for each missing image with its direct encoding; or the registry was silent, or listed no encoder, or for some image k all encoders were asked, fastest first from number k on, and failed. |
| `EncoderPool.EncodeOnPool` | dvlm/client.py:53-65 | The encoders are asked in turn from the offset until one answers, none twice; giving up means all were asked and none answered. |
| `EncoderPool.FastestFirstSorts` | dvlm/client.py:211 | Encoders are asked in order of falling throughput, and those of equal throughput as the registry listed them. |
| `Generation.DistributedVlm.Run` | dvlm/client.py:268-284 | The token loop over an open session returns only what the same loop around a single-process decoder returns, and feeds positions 0, 1, 2, ... without a gap. |
| `Generation.DistributedVlm.Generate` | dvlm/client.py:246-287 | End to end: tokens that are returned are those of the single-process loop on the directly encoded prompt, whatever fails; the session's limit is eight failures; every way out asks each server that is owed a closing call for it and leaves nothing behind except on excluded peers or where that call failed; every error has its reason: an encoding that failed, placeholders that do not match, an empty prompt, or a step that could not go on. |
| `EncoderCache.InsertAllIsWindow` | dvlm/client.py:224-227 | Inserting new keys one by one, with eviction, keeps the youngest `capacity` of old keys and new ones. |
| `EncoderCache.MissesNext` | dvlm/client.py:208 | Every image that is not cached is encoded, as often as it is in the request, in the order of the request. |
| `EncoderCache.TouchedByRecency` | dvlm/client.py:228-229 | After marking, the keys that were not asked for come first, as they were, then those of the request by when they were last asked for. |
| `EncoderCache.SurvivesIffFits` | dvlm/client.py:206-229 | All keys of a request are cached when they are marked as used, if and only if its distinct new keys fit the capacity and none of its hits is among the oldest entries that the request evicts. |
| `EncoderCache.FittingRequestCanFail` | dvlm/client.py:224-229 | A request no larger than the cache that fails: its only hit is the oldest entry, which its miss evicts before it is marked. |
| `Routing.FindRoute` | dvlm/routing.py:25-67 | A route if and only if every layer is in some usable span; contiguous, exactly over [start, end), each hop inside its server's span; no chain of such hops costs less; and no peer serves two hops, if peers have one row each. |
| `Routing.CoveredMeans` | dvlm/routing.py:39-60 | The condition for a route, on the registry's rows themselves: each layer of the range lies in the span of some span server that is not excluded. |
| `Routing.LegCost` | dvlm/routing.py:53 | What a hop costs: the measured round trip or 0.05, and beyond it the share of the span it runs, divided by the throughput; no throughput counts for less than 0.000001. |
| `Routing.CostAdds` | dvlm/routing.py:53-56 | The cost of a chain is the sum of those of its hops. |
| `Routing.SlowerNotAlone` | dvlm/routing.py:49-56 | Of two servers with one span and one round trip that both serve the whole range, the slower is never the route found. |
| `Routing.HopsAreServed` | dvlm/routing.py:25-67 | Every hop of a route found is on a span server that is not excluded, at its address, enters its span anywhere, and runs to the end of the span or of the range. |
| `Routing.HopsOnDistinctPeers` | dvlm/routing.py:25-67 | No peer serves two hops of any cheapest chain, if peers have one row each. |
| `Routing.Explore` | dvlm/routing.py:40-57 | The heap loop, with its lazy deletions and its early exit, ends with a table that is optimal at `end`, or without `end` exactly when some layer has no server. |
| `Routing.Relax` | dvlm/routing.py:49-57 | Trying the candidates from a settled layer keeps the search's invariant and settles that layer; from a layer settled before, it changes nothing. |
| `Routing.PoppedEndIsOptimal` | dvlm/routing.py:43-46 | When `end` is popped, no chain to it costs less than its table entry, whatever stale entries remain. |
| `Routing.ExhaustedMeansGap` | dvlm/routing.py:58-60 | When the heap runs out first, some layer is in no candidate's span. |
| `Routing.Trace` | dvlm/routing.py:61-67 | Following the predecessors back from `end` gives a chain from start to end that costs exactly the table entry. |
| `Placement.ChooseSpan` | dvlm/routing.py:70-82 | The chosen window lies inside the model and is the one window that is least by worst-served layer, then total throughput, then position; there is none exactly for no layers or a span of none. |
| `Placement.ChoiceIsLeast` | dvlm/routing.py:78-81 | Compared with any window, the chosen one's worst-served layer is served no more; where that ties, its total is no greater; where both tie, it is not to the right. |
| `Placement.CoverageGrows` | dvlm/routing.py:73-77 | One more server adds its throughput to each layer of its span, if it serves spans, and nothing to any other. |
| `Placement.SumSplit` | dvlm/routing.py:80 | A window's total counts the throughput of each of its layers once. |
| `Placement.ChoiceHasLeastServedLayer` | dvlm/routing.py:78-81 | The chosen window contains a layer that is served least of all layers. |
| `Placement.JoinCoversMore` | dvlm/routing.py:70-82 | While a layer is unserved, a join with positive throughput serves one more and unserves none, from any swarm. |
| `Placement.JoinsCoverEventually` | dvlm/routing.py:70-82 | As many joins as there are unserved layers leave none. |
| `Placement.JoinsFillFromLeft` | dvlm/routing.py:70-82 | From an empty swarm the k-th join takes [kw, (k+1)w) until the last takes [n-w, n), and meanwhile exactly the layers left of kw are served. |
| `Placement.JoinsCoverInTime` | dvlm/routing.py:25-82 | From an empty swarm the joins serve all n layers exactly from the ceil(n/w)-th on, however many more there are, and then every layer lies in a candidate span, which is when `find_route` succeeds. |
| `Placement.FewerJoinsLeaveGaps` | dvlm/routing.py:70-82 | No placement of windows of w layers whatever serves n layers with fewer servers than that. |
| `RssmServer.RssmWorker.Begin` | dvlm/dreamer/server.py:37-65 | The part of `observe` and `imagine` before their await: `observe` opens a missing session at the initial state within the capacity, `imagine` refuses it; the table is otherwise the one before, without its expired sessions only if a new one would not have fitted. |
| `RssmServer.Rssm.FoldObserve` | dvlm/dreamer/server.py:45-58 | An observation takes the session's state, or the initial one for its batch, through the model's `obs_step` with its action, embedding, first flags and seed. |
| `RssmServer.Rssm.FoldImagine` | dvlm/dreamer/server.py:60-65 | A dreamt action takes the session's state through `img_step` with its seed; without a state there is no result. |
| `RssmServer.RssmWorker.Run` | dvlm/dreamer/server.py:56-63 | The step is computed from what the session's list holds when the executor gets to it. |
| `RssmServer.RssmWorker.Commit` | dvlm/dreamer/server.py:57-65 | The list is overwritten in place and the features of the new state are answered. |
| `RssmServer.RssmWorker.Fork` | dvlm/dreamer/server.py:67-69 | The child holds a copy of the parent's state in a list of its own; the parent and all others keep theirs; an unknown parent is refused. |
| `RssmServer.RssmWorker.Close` | dvlm/dreamer/server.py:71-72 | Exactly that session goes. |
| `RssmServer.RssmWorker.Gc` | dvlm/dreamer/server.py:77-80 | Exactly the expired sessions go. |
| `RssmServer.RssmWorker.KeptAreUsed` | dvlm/dreamer/server.py:49-53 | What is left of a full table for a new session is what was used since the cutoff, and of another all. |
| `RssmServer.CommittedStands` | dvlm/dreamer/server.py:45-65 | A committed operation leaves the session, unless it was dropped, at the computed state. |
| `RssmNetwork.RssmSwarm.Interfere` | dvlm/dreamer/server.py:45-80 | Whatever the environment does, late forks included, nothing of a live id changes, except that its session may be dropped. |
| `RssmNetwork.RssmSwarm.Call` | dvlm/dreamer/client.py:90-100 | One operation under every schedule: an answer means it was applied exactly once to the state before; a failure makes the id dead for ever, and is recorded; other live ids keep their states. |
| `RssmNetwork.RssmSwarm.Fork` | dvlm/dreamer/client.py:105-111 | A fork that is answered gives the child's id the parent's state and leaves the parent's; one that fails makes only the child's id dead. |
| `RssmNetwork.RssmSwarm.Close` | dvlm/dreamer/client.py:114-119 | An answered close leaves no session of that id on any worker. |
| `RssmNetwork.AtLater` | dvlm/dreamer/client.py:59-119 | A session stands where it stood after anything the client did with other ids. |
| `OpLog.StatefulSession.Best` | dvlm/dreamer/client.py:74-77 | No server if and only if every row's peer is excluded; otherwise the first of those of greatest throughput among the others. |
| `OpLog.StatefulSession.Replay` | dvlm/dreamer/client.py:79-80 | A replay that goes through leaves a fresh session exactly at the fold of the log; one that breaks off leaves its id dead. |
| `OpLog.StatefulSession.Attach` | dvlm/dreamer/client.py:73-80 | One lookup; no server if and only if all its rows' peers are excluded; otherwise the session is at the first of the fastest others under a new id, synchronized with its log, or that call or the lookup itself has failed; the ids of other sessions are untouched. |
| `OpLog.StatefulSession.Fail` | dvlm/dreamer/client.py:82-88 | The count grows; past the limit the error is raised, and an address that is left is stale; a failure before the first attachment raises for lack of a peer id; otherwise the peer is excluded and the session detached. |
| `OpLog.StatefulSession.Call` | dvlm/dreamer/client.py:90-100 | For every session whose address is not stale: whenever a call returns, its result is the features of the fold of the log with this operation, which is then in the log once; on an error the log is as before, and the address is stale exactly when the error is "too many peer failures" and one was left. It always ends: each failure of a lookup or a call is counted once and, unless the call raises, followed by a round with a lookup of its own. It raises for lack of workers only if all peers of the registry's last answer were excluded, and those were excluded before or had the session and failed it; a session that has moved is at the one the last answer recommends. Only the session's own ids were used. |
| `OpLog.StatefulSession.Fork` | dvlm/dreamer/client.py:102-112 | With no call on the parent under way: the child has its parent's log and exclusions, no failures and an id of its own, and is synchronized, whether or not the server-side copy succeeded; so is the parent. An attached parent's worker is asked for a copy once, and the child is attached there if and only if that was answered. |
| `OpLog.StatefulSession.Close` | dvlm/dreamer/client.py:114-119 | An attached session's worker is asked to drop it, a detached one's nobody; only the session's own id is used; when the call is answered, no worker has the session. |
| `OpLog.StatefulSession.SyncedLater` | dvlm/dreamer/client.py:59-119 | A session stays synchronized with its own log through anything done with ids that are not its own. |
| `OpLog.OnlyWholeLogsAnswerRight` | dvlm/dreamer/client.py:73-88 | For a model that counts, a worker that holds the first k operations of a log answers the next one right if and only if k is all of them. |
| `OpLog.StatefulSession.SeenNotStale` | dvlm/dreamer/client.py:82-88 | A session within its limit, or without an address, is not stale. |
| `OpLog.AnswersRightIffCaughtUp` | dvlm/dreamer/client.py:73-112 | For a model that counts, the next operation of an attached session is answered as its own log demands if and only if its worker stands at a log of the same length, whatever left it there. |
| `OpLog.StaleAnswersWrongly` | dvlm/dreamer/client.py:73-100 | A session whose replay was lost with its last permitted failure, and a worker that nothing disturbs, which answers its next operation wrongly. |
| `OpLog.ForkedRightIffNothingBetween` | dvlm/dreamer/client.py:102-112 | For a model that counts, when a worker handles some operations for the parent between the copy of the log and the copy of the state, the child's next operation is answered as its log demands if and only if there were none. |
| `OpLog.ForkDuringCall` | dvlm/dreamer/client.py:90-112 | From any valid attached session: a fork with one operation of the parent in between gives a child whose log is the parent's old one and whose state is that of the log with the operation. |
| `OpLog.OverlappedForkAnswersWrongly` | dvlm/dreamer/client.py:90-112 | A parent, a child forked while a call of the parent's was under way, and the wrong answer the child gets. |
| `Overlap.Calling.Advance` | dvlm/dreamer/client.py:73-100 | One part of one call (a look-up of workers, a handler beginning, running or committing, a failure, the call giving up) keeps the call where its parts have brought it, or ends it as `call` must end: with the features of the fold of the log and the operation logged once, or with an error that has its reason and the log as it was. A call without a worker makes one lookup and goes by it; what fails is counted once. |
| `Overlap.Calling.GoodLater` | dvlm/dreamer/client.py:73-100 | A call that is under way, replaying or not, or has ended, does not notice what the client does under other ids. |
| `Overlap.Together` | dvlm/dreamer/client.py:73-100 | Any number of calls on different sessions of one client, whose parts come in any order with anything happening in between: each that has ended returned what its own session's log leads to, and has logged its operation once, or raised, with its reason, its log untouched; one that found no worker made a lookup meanwhile whose peers it had all excluded; and no two use one id. |
| `Backends.LocalBackend.Do` | dvlm/dreamer/client.py:38-48 | The result is the features of the fold of the session's operations; an unknown session is an error for `imagine` only. |
| `Backends.LocalBackend.Fork` | dvlm/dreamer/client.py:50-53 | The new session has its parent's operations behind it. |
| `Backends.SwarmBackend.Encode` | dvlm/dreamer/client.py:126-132 | Row i of the result is the encoding of observation i; as many parts are encoded as there are encoders, or observations if those are fewer; it fails only if the registry or the encoders or the observations were missing, or all encoders failed on a part. |
| `Backends.PartsGrow` | dvlm/dreamer/client.py:130 | The parts cover the batch, none is empty, and the first of them have one observation more than the rest. |
| `Backends.SwarmBackend.Do` | dvlm/dreamer/client.py:137-141 | Any operation on any session of a tree whose address is not stale: the result is the one the session's own log leads to, and every other session stays synchronized with its own; an error has its reason. |
| `Backends.SwarmBackend.Fork` | dvlm/dreamer/client.py:143-144 | The child's log is its parent's; all open sessions stay synchronized and no two share an id. |
| `Backends.SwarmBackend.Close` | dvlm/dreamer/client.py:146-147 | The session's worker, if it has one, is asked to drop it; the other sessions stay synchronized. |
| `Agents.Policy.Act` | dvlm/dreamer/client.py:163-176 | On either backend, an action that is returned is the one of the agent run without any backend, and the agent is in the state that follows; if none is returned, the backend has raised, once, and the agent is as before; no session but its own is opened or closed. |
| `Agents.Policy.Imagine` | dvlm/dreamer/client.py:178-200 | On either backend, a returned trajectory is the one of the agent without any backend; and whatever happens, the agent's step, features, previous action and log are as before, and so are the sessions that are open: the fork is closed on every way out. It reports a failure of the backend exactly when the backend raised. |
| `Agents.Policy.Play` | dvlm/dreamer/client.py:150-200 | Any script of acting and imagining gives, as far as it gets, exactly the outcomes of the agent without any backend, and the actions of the script with all imagining left out; it stops short exactly when the backend has raised, which the local one never does; and it leaves no session open but the agent's own. |
| `Agents.ActTwice` | dvlm/dreamer/client.py:1-8 | Two agents alike, one local and one on the swarm, take the same action and stay alike. |
| `Agents.DreamsDoNotDisturb` | dvlm/dreamer/client.py:178-200 | For the agent without any backend, the actions of a script are those of the script with all imagining left out. |
| `Rpc.ValidRun` | dvlm/rpc.py:73-137 | After any interleaving of the parts of calls, replies, timeouts, cancellations, losses and closing, every pending id has its own future and every open call with an unresolved future is pending. |
| `Rpc.ResolvedForGood` | dvlm/rpc.py:92-113 | In any run a future that is resolved keeps its value for ever. |
| `Rpc.CallsReturnTheirOwnReply` | dvlm/rpc.py:92-130 | In any run a call that returned or raised remotely did so with the content of a reply that carried its own id and arrived while it was pending. |
| `Rpc.RepliesReachOnlyTheirCall` | dvlm/rpc.py:96-102 | A reply changes nothing for any other call, and nothing at all when its call has returned, failed or timed out. |
| `Rpc.ReplyIsReturned` | dvlm/rpc.py:94-130 | A call whose reply arrives before it has ended by itself returns that result, or raises that remote error, whatever else happens until it is resumed. |
| `Rpc.LossIsRaised` | dvlm/rpc.py:103-137 | A call that still waits when the connection is lost, or the client closed, raises a connection error, whatever else happens until it is resumed. |
| `Rpc.OtherEndings` | dvlm/rpc.py:119-130 | A timeout ends a waiting call as such, a cancellation any call as such, and a failed write a writing call with a connection error; only a call cancelled while it writes leaves its id behind. |
| `Rpc.NoCallIsStranded` | dvlm/rpc.py:103-113 | Once the receive loop has ended by loss or close, no call waits for a future nobody will resolve. |
| `Rpc.CrashStrands` | dvlm/rpc.py:103-107 | If it ended by another exception, a waiting call is brought back by nothing but its own timeout or cancellation, or the client's close. |
| `Rpc.RpcClient.Begin` | dvlm/rpc.py:115-123 | Refused exactly on a closing connection; otherwise a new id with a new pending future. |
| `Rpc.RpcClient.Sent` | dvlm/rpc.py:119-127 | A call whose request is written waits for its future. |
| `Rpc.RpcClient.SendFailed` | dvlm/rpc.py:119-130 | A call whose request cannot be written ends with a connection error and is no longer pending. |
| `Rpc.RpcClient.OnReply` | dvlm/rpc.py:94-102 | One turn of the receive loop is the transition that `CallsReturnTheirOwnReply` speaks of. |
| `Rpc.RpcClient.FailAll` | dvlm/rpc.py:109-113 | Every pending future that was open is failed, no other future changes, and nothing is pending. |
| `Rpc.RpcClient.OnLost` | dvlm/rpc.py:103-113 | When the connection is lost every open pending future fails, nothing is pending, and the client is closing. |
| `Rpc.RpcClient.OnCrash` | dvlm/rpc.py:92-107 | When the receive loop ends by another exception nothing is failed; the client only stops receiving. |
| `Rpc.RpcClient.Close` | dvlm/rpc.py:132-137 | Nothing is pending and nothing is received any more. |
| `Rpc.RpcClient.Return` | dvlm/rpc.py:127-130 | The call ends with what its own future holds and is no longer pending. |
| `Rpc.RpcClient.Expire` | dvlm/rpc.py:127-130 | A call that times out cancels its future and is no longer pending. |

## Left out

- Tensor arithmetic, rotary embeddings, attention kernels, convolutions, recurrent cells, heads, the final norm and sampling: uninterpreted functions with exact equality. A masked key counts as not seen. A layer's caches are append-only sequences.
- Sampling without a seed is not a function of its inputs; `Generate` models sampling that is.
- Names: addresses, peer ids and session ids are numbers; a session id is a pair of the client's number and a counter, and a table key a pair of session id and entry layer. That these, as strings, are never confused is not modelled.
- Image keys are the images: that the hash of dvlm/client.py:193-197 does not collide is not modelled.
- The registry is an arbitrary answer at every lookup. dvlm/registry.py and expiry are not modelled.
- That anything is ever answered: the network may lose every call and the registry be silent at every lookup. What is promised then is that operations end, and with which error.
- Clocks: `now` is an arbitrary number at every use.
- `SpanServer.Session` and `RssmServer.Row` are rows of a table, as values, while the original shares a mutable object between table and handlers. What is shared and observable is kept: a cache is an object, and recurrent states live in numbered cells. The length of a session that was dropped while a handler runs is not kept, since nobody can see it.
- StatefulSession.Call, Fork and the operations of `SwarmBackend` and `Policy` promise nothing for a session whose address is stale, since its answers can be wrong.
- SwarmBackend: its operations follow one another. Calls that overlap are in `Overlap`; forks and closes that come between the parts of calls on other sessions are not modelled.
- Swarm.Restart: handlers outlive a restart of their worker; that they are lost with it is covered by cancelling them.
- Choose leaves the table of measured round trips empty, as its caller does; `Routing.FindRoute` takes any.
- Step: after an error of a session that has a route, nothing is promised but that it can be closed, and how many forwards it took.
- EncodeMissing asks for the missing images one after another, not concurrently, and stops at the first that fails; neither changes a result. Two concurrent calls of `encode_images` on one cache are not modelled.
- SwarmBackend.Encode likewise, for the parts of a batch. That the encoder treats the rows of a batch independently is taken for granted.
- RssmWorker.Fork has no bound on the number of sessions, as in the original.
- `Rpc.Client` starts connected; connecting, the write lock, the byte format and `ConnectionPool` are not modelled.
- Batches of more than one prompt, the per-token callback, logging and error texts.
- dvlm/wire.py, dvlm/cli.py, dvlm/checkpoint.py, dvlm/adapters, dvlm/tiny.py, heartbeats and throughput measurement.
- Dishonest peers: a worker answers what its own code computes, over the span of the model it announces.
