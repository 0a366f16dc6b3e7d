/** dvlm/client.py, `DistributedVLM`: images encoded behind a cache, then tokens generated one at a
    time through an inference session. */
module Generation {
  import opened Wrappers
  import opened Ids
  import opened Decoder
  import opened SwarmNetwork
  import opened Inference
  import opened EncoderCache
  import opened EncoderPool
  import opened Journals

  type Token = int

  /** What the client computes itself, and its sampling; `sample` consumes the last hidden state and
      the generator's state. */
  datatype Head = Head(
    embedToken: Token -> Hidden,
    imageToken: Token,
    sample: (Hidden, int) -> (Token, int))

  datatype GenerateError =
    | EncodingFailed(encode: EncodeError)
    | ImageCountMismatch
    | EmptyPrompt
    | Stopped(step: StepError)

  /* ---------- Embedding the prompt ---------- */

  function Flatten(images: seq<Embedding>): seq<Hidden> {
    if images == [] then [] else images[0] + Flatten(images[1..])
  }

  /** How many embeddings the images before image k have. */
  function EmbeddingsBefore(images: seq<Embedding>, k: nat): nat
    requires k <= |images|
  {
    if k == 0 then 0 else EmbeddingsBefore(images, k - 1) + |images[k - 1]|
  }

  lemma {:induction false} FirstImageApart(images: seq<Embedding>, k: nat)
    requires 0 < k <= |images|
    ensures EmbeddingsBefore(images, k) == |images[0]| + EmbeddingsBefore(images[1..], k - 1)
  {
    if k > 1 {
      FirstImageApart(images, k - 1);
    }
  }

  /** Images are joined in order: embedding t of image k comes after all those of the images before it. */
  lemma {:induction false} FlattenAt(images: seq<Embedding>, k: nat, t: nat)
    requires k < |images| && t < |images[k]|
    ensures EmbeddingsBefore(images, k) + t < |Flatten(images)|
    ensures Flatten(images)[EmbeddingsBefore(images, k) + t] == images[k][t]
  {
    if k > 0 {
      FirstImageApart(images, k);
      FlattenAt(images[1..], k - 1, t);
    }
  }

  lemma {:induction false} FlattenSize(images: seq<Embedding>)
    ensures |Flatten(images)| == EmbeddingsBefore(images, |images|)
  {
    if images != [] {
      FlattenSize(images[1..]);
      FirstImageApart(images, |images|);
    }
  }

  /** Which embedding of which image is number p of all. */
  lemma {:induction false} ImageOf(images: seq<Embedding>, p: nat) returns (k: nat, t: nat)
    requires p < EmbeddingsBefore(images, |images|)
    ensures k < |images| && t < |images[k]| && EmbeddingsBefore(images, k) + t == p
  {
    FirstImageApart(images, |images|);
    if p < |images[0]| {
      k, t := 0, p;
    } else {
      k, t := ImageOf(images[1..], p - |images[0]|);
      k := k + 1;
      FirstImageApart(images, k);
    }
  }

  function Slots(head: Head, ids: seq<Token>): (n: nat)
    ensures n == multiset(ids)[head.imageToken]
  {
    assert ids != [] ==> ids == [ids[0]] + ids[1..];
    if ids == [] then 0 else (if ids[0] == head.imageToken then 1 else 0) + Slots(head, ids[1..])
  }

  /** Token embeddings with the visual embeddings spliced over the image placeholders, in order. */
  function Splice(head: Head, ids: seq<Token>, visual: seq<Hidden>): (r: seq<Hidden>)
    requires Slots(head, ids) == |visual|
    ensures |r| == |ids|
  {
    if ids == [] then []
    else if ids[0] == head.imageToken then [visual[0]] + Splice(head, ids[1..], visual[1..])
    else [head.embedToken(ids[0])] + Splice(head, ids[1..], visual)
  }

  /** Placeholder by placeholder: the k-th one gets the k-th visual embedding, and every other token
      its own embedding. */
  lemma {:induction false} SpliceAt(head: Head, ids: seq<Token>, visual: seq<Hidden>, i: nat)
    requires Slots(head, ids) == |visual| && i < |ids|
    ensures Slots(head, ids[..i]) <= |visual|
    ensures if ids[i] == head.imageToken
            then Slots(head, ids[..i]) < |visual| && Splice(head, ids, visual)[i] == visual[Slots(head, ids[..i])]
            else Splice(head, ids, visual)[i] == head.embedToken(ids[i])
    decreases |ids|
  {
    if i > 0 {
      assert ids[..i][1..] == ids[1..][..i - 1];
      SpliceAt(head, ids[1..], if ids[0] == head.imageToken then visual[1..] else visual, i - 1);
    }
  }

  function Embed(head: Head, ids: seq<Token>, images: Option<seq<Embedding>>): Option<seq<Hidden>> {
    match images
    case None => Some(seq(|ids|, i requires 0 <= i < |ids| => head.embedToken(ids[i])))
    case Some(e) =>
      if Slots(head, ids) == |Flatten(e)| then Some(Splice(head, ids, Flatten(e))) else None
  }

  function Upto(from: nat, count: nat): seq<int> {
    seq(count, i => from + i)
  }

  /* ---------- The same loop in one process ---------- */

  /** Generates up to n more tokens with the whole decoder run afresh on everything fed so far:
      `fed` came before, `chunk` comes next. None when there is no last row to sample from. */
  function LocalGenerate(m: Model, head: Head, eos: set<Token>, n: nat, tokens: seq<Token>, fed: Tokens, chunk: Tokens,
                         rng: int): Option<seq<Token>>
    requires fed.Aligned() && chunk.Aligned()
    decreases n
  {
    if n == 0 then Some(tokens)
    else if chunk.hidden == [] then None
    else
      var all := fed.Append(chunk);
      var rows := At(m, m.layers, all).hidden;
      var (token, rng') := head.sample(rows[|rows| - 1], rng);
      var tokens' := tokens + [token];
      if token in eos then Some(tokens')
      else LocalGenerate(m, head, eos, n - 1, tokens', all, Tokens([head.embedToken(token)], [|all.hidden|]), rng')
  }

  /** One turn of the loop, from the rows of the chunk alone. */
  lemma LocalTurn(m: Model, head: Head, eos: set<Token>, n: nat, tokens: seq<Token>, fed: Tokens, chunk: Tokens,
                  rng: int,
                  out: seq<Hidden>)
    requires n > 0 && fed.Aligned() && chunk.Aligned() && out == ChunkAt(m, m.layers, fed, chunk).hidden
    ensures out == [] ==> chunk.hidden == []
    ensures out != [] ==>
              var (token, rng') := head.sample(out[|out| - 1], rng);
              var next := Tokens([head.embedToken(token)], [|fed.hidden| + |chunk.hidden|]);
              LocalGenerate(m, head, eos, n, tokens, fed, chunk, rng) ==
                if token in eos then Some(tokens + [token])
                else LocalGenerate(m, head, eos, n - 1, tokens + [token], fed.Append(chunk), next, rng')
  {
    hide At;
  }

  lemma LocalEnd(m: Model, head: Head, eos: set<Token>, tokens: seq<Token>, fed: Tokens, chunk: Tokens, rng: int)
    requires fed.Aligned() && chunk.Aligned()
    ensures LocalGenerate(m, head, eos, 0, tokens, fed, chunk, rng) == Some(tokens)
  {
  }

  lemma PositionsGrow(fed: Tokens, chunk: Tokens)
    requires fed.Aligned() && chunk.Aligned()
    requires fed.positions == Upto(0, |fed.hidden|) && chunk.positions == Upto(|fed.hidden|, |chunk.hidden|)
    ensures var all := fed.Append(chunk);
            all.Aligned() && all.positions == Upto(0, |all.hidden|) && |all.hidden| == |fed.hidden| + |chunk.hidden|
  {
  }

  class DistributedVlm {
    const head: Head
    const encode: Image -> Embedding
    const capacity: nat
    /** What the client asked of the registry and of the encoders. */
    const journal: Journal
    /** The encoder cache: keys from the least to the most recently used, and their values. */
    var order: seq<Image>
    var cache: map<Image, Embedding>

    ghost predicate Valid()
      reads this
    {
      && |order| <= capacity && Distinct(order)
      && (forall k :: k in cache <==> k in order)
      && (forall k :: k in cache ==> cache[k] == encode(k))
    }

    constructor (head: Head, encode: Image -> Embedding, capacity: nat, journal: Journal)
      ensures Valid() && order == [] && this.head == head && this.encode == encode && this.capacity == capacity
      ensures this.journal == journal
    {
      this.head, this.encode, this.capacity, this.journal := head, encode, capacity, journal;
      order, cache := [], map[];
    }

    /** Why `count` images could not be encoded: the registry or the encoders were missing, or image k had
        every encoder fail, in order of throughput from number k on. */
    ghost predicate Unencoded(e: EncodeError, count: nat)
      reads journal
    {
      var last := journal.Last();
      match e
      case RegistryLost => last.None?
      case NoEncoders => last == Some([])
      case AllEncodersFailed =>
        && last.Some? && last.value != []
        && exists k :: 0 <= k < count && GaveUp(journal.asked, FastestFirst(last.value), k)
      case _ => false
    }

    /** Encodes the missing images, each starting at the next encoder. */
    method EncodeMissing(missing: seq<Image>) returns (r: Result<seq<Embedding>, EncodeError>)
      modifies journal`lookups, journal`asked
      ensures journal.lookups == old(journal.lookups) + 1
      ensures r.Ok? ==> r.value == seq(|missing|, j requires 0 <= j < |missing| => encode(missing[j]))
      ensures r.Ok? ==> journal.Encoded() == old(journal.Encoded()) + |missing|
      ensures r.Err? ==> r.error in {RegistryLost, NoEncoders, AllEncodersFailed} && Unencoded(r.error, |missing|)
      ensures r == Err(RegistryLost) <==> journal.Last().None?
      ensures r == Err(NoEncoders) <==> journal.Last() == Some([])
    {
      hide Journal.Encoded, Rotated, GaveUp;
      var rows := journal.Servers();
      if rows.None? {
        return Err(RegistryLost);
      }
      var encoders := FastestFirst(rows.value);
      if encoders == [] {
        return Err(NoEncoders);
      }
      var results := [];
      var k := 0;
      while k < |missing|
        invariant k == |results| <= |missing| && journal.lookups == old(journal.lookups) + 1
        invariant journal.Encoded() == old(journal.Encoded()) + k
        invariant forall j :: 0 <= j < k ==> results[j] == encode(missing[j])
      {
        var emb := EncodeOnPool(journal, encoders, missing[k], encode, k);
        if emb.None? {
          return Err(AllEncodersFailed);
        }
        results := results + [emb.value];
        k := k + 1;
      }
      return Ok(results);
    }

    /** Stores one result, evicting the least recently used entry if that made the cache too large. */
    method StoreOne(k: Image, emb: Embedding)
      requires Valid() && emb == encode(k)
      modifies this
      ensures Valid() && order == Insert(old(order), k, capacity)
    {
      if k !in cache {
        order := order + [k];
      }
      cache := cache[k := emb];
      assert forall x :: x in cache <==> x in order;
      if |order| > capacity {
        assert order == [order[0]] + order[1..] && order[0] !in order[1..];
        cache := cache - {order[0]};
        order := order[1..];
      }
    }

    method Store(missing: seq<Image>, results: seq<Embedding>)
      requires Valid() && results == seq(|missing|, j requires 0 <= j < |missing| => encode(missing[j]))
      modifies this
      ensures Valid() && order == InsertAll(old(order), missing, capacity)
    {
      var j := 0;
      while j < |missing|
        invariant j <= |missing| && Valid()
        invariant order == InsertAll(old(order), missing[..j], capacity)
      {
        assert missing[..j + 1][..j] == missing[..j];
        StoreOne(missing[j], results[j]);
        j := j + 1;
      }
      assert missing[..j] == missing;
    }

    /** Marks the keys as used, in order; stops at the first that is no longer cached. */
    method TouchAll(keys: seq<Image>) returns (ok: bool)
      requires Valid()
      modifies `order
      ensures Valid() && cache == old(cache) && forall k :: k in order <==> k in old(order)
      ensures ok <==> forall k :: k in keys ==> k in old(order)
      ensures ok ==> order == Without(old(order), keys) + Lasts(keys)
      ensures !ok ==> StoppedShort(old(order), order, keys)
    {
      hide Touch, Touched, Without, Lasts;
      TouchedNone(order, keys);
      var j := 0;
      while j < |keys|
        invariant j <= |keys| && Valid() && forall k :: k in order <==> k in old(order)
        invariant forall i :: 0 <= i < j ==> keys[i] in old(order)
        invariant order == Touched(old(order), keys[..j])
      {
        if keys[j] !in cache {
          TouchedByRecency(old(order), keys[..j]);
          return false;
        }
        TouchedNext(old(order), keys, j);
        TouchKeeps(order, keys[j]);
        order := Touch(order, keys[j]);
        j := j + 1;
      }
      assert keys[..j] == keys;
      TouchedByRecency(old(order), keys);
      return true;
    }

    /** Has what is missing encoded, and stores it. */
    method Fetch(images: seq<Image>) returns (failed: Option<EncodeError>)
      requires Valid()
      modifies this, journal`lookups, journal`asked
      ensures Valid()
      ensures var missing := Misses(old(order), images);
              && (failed.None? ==> order == InsertAll(old(order), missing, capacity))
              && (failed.Some? || missing == [] ==> order == old(order) && cache == old(cache))
              && (images == [] ==> missing == [])
              && (failed.Some? ==>
                    && missing != [] && failed.value in {RegistryLost, NoEncoders, AllEncodersFailed}
                    && Unencoded(failed.value, |missing|))
              && (if missing == [] then unchanged(journal)
                  else
                    && journal.lookups == old(journal.lookups) + 1
                    && (failed.None? ==> journal.Encoded() == old(journal.Encoded()) + |missing|))
    {
      hide Journal.Encoded, Unencoded, Rotated, GaveUp;
      var missing := Misses(order, images);
      if missing == [] {
        return None;
      }
      var results := EncodeMissing(missing);
      if results.Err? {
        return Some(results.error);
      }
      Store(missing, results.value);
      return None;
    }

    /** `encode_images`: on success, the direct encoding of every image of the prompt in order. When
        the encoders answer, it succeeds exactly when the request fits the cache without evicting its
        own hits. */
    method EncodeImages(images: seq<Image>) returns (r: Result<seq<Embedding>, EncodeError>)
      requires Valid()
      modifies this, journal`lookups, journal`asked
      ensures Valid()
      ensures r.Ok? ==> r.value == seq(|images|, j requires 0 <= j < |images| => encode(images[j]))
      ensures r.Ok? ==>
                order == Without(InsertAll(old(order), Misses(old(order), images), capacity), images) + Lasts(images)
      ensures r.Ok? || r.error in {EvictedTooSoon, NothingToEncode} ==>
                (r.Ok? <==> images != [] && FitsCache(old(order), images, capacity))
      ensures r == Err(NothingToEncode) <==> images == []
      ensures r == Err(NothingToEncode) ==> order == old(order) && cache == old(cache)
      ensures r == Err(EvictedTooSoon) ==>
                StoppedShort(InsertAll(old(order), Misses(old(order), images), capacity), order, images)
      ensures r.Err? && r.error in {RegistryLost, NoEncoders, AllEncodersFailed} ==>
                && order == old(order) && cache == old(cache) && Misses(order, images) != []
                && Unencoded(r.error, |Misses(order, images)|)
      // only what is missing is asked for, with one lookup, and encoders answer each of it
      ensures if Misses(old(order), images) == [] then unchanged(journal)
              else
                && journal.lookups == old(journal.lookups) + 1
                && (r.Ok? ==> journal.Encoded() == old(journal.Encoded()) + |Misses(old(order), images)|)
    {
      hide Journal.Encoded, Unencoded, StoppedShort, Misses, InsertAll, Without, Lasts, FitsCache;
      var failed := Fetch(images);
      if failed.Some? {
        return Err(failed.value);
      }
      SurvivesIffFits(old(order), images, capacity);
      var ok := TouchAll(images);
      if !ok {
        return Err(EvictedTooSoon);
      }
      if images == [] {
        NothingTouched(old(order));
        return Err(NothingToEncode);
      }
      assert forall j :: 0 <= j < |images| ==> images[j] in cache;
      var held := cache;
      return Ok(seq(|images|, j requires 0 <= j < |images| && images[j] in held => held[images[j]]));
    }

    /** What the prompt should become: every image encoded directly. */
    ghost function Prompt(ids: seq<Token>, images: Option<seq<Image>>): Option<seq<Hidden>> {
      match images
      case None => Embed(head, ids, None)
      case Some(xs) => Embed(head, ids, Some(Direct(xs)))
    }

    ghost function Direct(images: seq<Image>): seq<Embedding> {
      seq(|images|, j requires 0 <= j < |images| => encode(images[j]))
    }

    /** The prompt fits its images exactly when there are as many placeholders as embeddings. */
    lemma PromptFits(ids: seq<Token>, images: Option<seq<Image>>)
      ensures Prompt(ids, images).Some? <==>
                images.Some? ==>
                  multiset(ids)[head.imageToken] == EmbeddingsBefore(Direct(images.value), |images.value|)
    {
      if images.Some? {
        FlattenSize(Direct(images.value));
      }
    }

    /** Row i is the token's own embedding or, in the place of a placeholder, embedding t of image k: the one
        that as many embeddings come before as placeholders come before i. */
    lemma PromptRow(ids: seq<Token>, images: Option<seq<Image>>, i: nat) returns (k: nat, t: nat)
      requires i < |ids| && Prompt(ids, images).Some?
      ensures |Prompt(ids, images).value| == |ids|
      ensures var row := Prompt(ids, images).value[i];
              if images.None? || ids[i] != head.imageToken then row == head.embedToken(ids[i])
              else
                var es := Direct(images.value);
                && k < |es| && t < |es[k]| && row == es[k][t]
                && EmbeddingsBefore(es, k) + t == multiset(ids[..i])[head.imageToken]
    {
      k, t := 0, 0;
      if images.Some? {
        var es := Direct(images.value);
        SpliceAt(head, ids, Flatten(es), i);
        if ids[i] == head.imageToken {
          FlattenSize(es);
          k, t := ImageOf(es, Slots(head, ids[..i]));
          FlattenAt(es, k, t);
        }
      }
    }

    /** `generate`: whenever it returns tokens, they are those of the same loop run in one process.
        What the session was fed is numbered 0, 1, 2, ... without a gap. */
    method Generate(net: Swarm, ids: seq<Token>, images: Option<seq<Image>>, maxNew: nat, eos: set<Token>, seed: int)
      returns (r: Result<seq<Token>, GenerateError>, ghost fed: Tokens, ghost session: InferenceSession?,
               ghost unanswered: set<Sid>)
      requires Valid() && net.Valid() && net.Idle() && net.home == map[] && this !in net.Repr && net.journal == journal
      modifies this, net, net.Repr, journal
      ensures Valid() && net.Valid()
      ensures r.Ok? ==>
                && Prompt(ids, images).Some?
                && LocalGenerate(net.model, head, eos, maxNew, ids, NO_TOKENS,
                                 Tokens(Prompt(ids, images).value, Upto(0, |ids|)), seed) == Some(r.value)
      ensures fed.Aligned() && fed.positions == Upto(0, |fed.hidden|)
      ensures session != null ==> fresh(session) && session.net == net && session.OnlyLeft(unanswered)
      ensures session != null ==>
                && session.maxFailures == 8
                && journal.closed == old(journal.closed) + Due(session.openings, session.exclude)
      ensures session == null <==> r.Err? && r.error.EncodingFailed?
      // every failure has its reason
      ensures r.Err? ==>
                match r.error
                case EncodingFailed(NothingToEncode) => images == Some([])
                case EncodingFailed(EvictedTooSoon) =>
                  images.Some? && !FitsCache(old(order), images.value, capacity)
                case EncodingFailed(e) => images.Some? && Unencoded(e, |Misses(old(order), images.value)|)
                case ImageCountMismatch => Prompt(ids, images).None?
                case EmptyPrompt => ids == [] && maxNew > 0
                case Stopped(e) => maxNew > 0 && session.Explained(e, 0, net.model.layers)
    {
      hide Swarm.Idle, Swarm.WorkersValid, Swarm.IdsValid, LocalGenerate, InferenceSession.OnlyLeft,
           InferenceSession.Ledger, InferenceSession.Now, InferenceSession.Explained, Valid, FitsCache, Unencoded, Due;
      fed, session, unanswered := NO_TOKENS, null, {};
      var embeds: Option<seq<Embedding>> := None;
      if images.Some? {
        var encoded := EncodeImages(images.value);
        if encoded.Err? {
          return Err(EncodingFailed(encoded.error)), fed, null, {};
        }
        embeds := Some(encoded.value);
      }
      var s := new InferenceSession(net, 8);
      session := s;
      var prompt := Embed(head, ids, embeds);
      if prompt.None? {
        r := Err(ImageCountMismatch);
      } else {
        r := Run(s, ids, prompt.value, maxNew, eos, seed);
      }
      fed := s.seen;
      unanswered := s.Close();
    }

    /** The token loop of `generate` over an open session. */
    method Run(session: InferenceSession, ids: seq<Token>, prompt: seq<Hidden>, maxNew: nat, eos: set<Token>, seed: int)
      returns (r: Result<seq<Token>, GenerateError>)
      requires session.Valid() && session.seen == NO_TOKENS && |prompt| == |ids|
      modifies session, session.net, session.net.Repr
      modifies session.net.journal`lookups, session.net.journal`failed
      ensures session.Books({}) && old(session.net.Repr) <= session.net.Repr
              && fresh(session.net.Repr - old(session.net.Repr))
      ensures session.seen.Aligned() && session.seen.positions == Upto(0, |session.seen.hidden|)
      ensures r.Ok? ==>
                Some(r.value) == LocalGenerate(session.net.model, head, eos, maxNew, ids, NO_TOKENS,
                                               Tokens(prompt, Upto(0, |ids|)), seed)
      ensures r.Err? ==>
                && maxNew > 0
                && match r.error
                   case EmptyPrompt => ids == []
                   case Stopped(e) => session.Explained(e, 0, session.numLayers)
                   case _ => false
    {
      hide At, ChunkAt, LocalGenerate, InferenceSession.Now, InferenceSession.Books, InferenceSession.Valid,
           InferenceSession.Explained;
      FedSoFar(session);
      assert NO_TOKENS.positions == Upto(0, 0);
      var net := session.net;
      var tokens, hidden, positions, past, rng := ids, prompt, Upto(0, |ids|), |ids|, seed;
      var n := maxNew;
      while n > 0
        invariant hidden != [] || hidden == prompt
        invariant session.Valid() && old(net.Repr) <= net.Repr && fresh(net.Repr - old(net.Repr))
        invariant 0 <= n <= maxNew && |hidden| == |positions| && past == |session.seen.hidden| + |hidden|
        invariant session.seen.Aligned() && session.seen.positions == Upto(0, |session.seen.hidden|)
        invariant positions == Upto(|session.seen.hidden|, |hidden|)
        invariant LocalGenerate(net.model, head, eos, maxNew, ids, NO_TOKENS, Tokens(prompt, Upto(0, |ids|)), seed)
               == LocalGenerate(net.model, head, eos, n, tokens, session.seen, Tokens(hidden, positions), rng)
      {
        ghost var before, chunk := session.seen, Tokens(hidden, positions);
        var stepped := Feed(session, Tokens(hidden, positions));
        if stepped.Err? {
          return Err(Stopped(stepped.error));
        }
        var out := stepped.value;
        LocalTurn(net.model, head, eos, n, tokens, before, chunk, rng, out);
        if out == [] {
          return Err(EmptyPrompt);
        }
        var (token, rng') := head.sample(out[|out| - 1], rng);
        rng := rng';
        tokens := tokens + [token];
        if token in eos {
          return Ok(tokens);
        }
        hidden, positions := [head.embedToken(token)], [past];
        past := past + 1;
        n := n - 1;
      }
      LocalEnd(net.model, head, eos, tokens, session.seen, Tokens(hidden, positions), rng);
      FedSoFar(session);
      return Ok(tokens);
    }

    lemma FedSoFar(session: InferenceSession)
      requires session.Valid()
      ensures session.Books({}) && session.seen.Aligned() && session.numLayers == session.net.model.layers
    {
      hide InferenceSession.Books, InferenceSession.Now;
    }

    /** Sends the next chunk through the session. */
    method Feed(session: InferenceSession, chunk: Tokens) returns (r: Result<seq<Hidden>, StepError>)
      requires session.Valid() && session.seen.positions == Upto(0, |session.seen.hidden|)
      requires chunk.Aligned() && chunk.positions == Upto(|session.seen.hidden|, |chunk.hidden|)
      modifies session, session.net, session.net.Repr
      modifies session.net.journal`lookups, session.net.journal`failed
      ensures session.Books({}) && old(session.net.Repr) <= session.net.Repr
              && fresh(session.net.Repr - old(session.net.Repr))
      ensures session.seen.Aligned() && session.seen.positions == Upto(0, |session.seen.hidden|)
      ensures r.Ok? ==>
                && session.Valid() && old(session.seen).Aligned() && session.seen == old(session.seen).Append(chunk)
                && |session.seen.hidden| == |old(session.seen).hidden| + |chunk.hidden|
                && r.value == ChunkAt(session.net.model, session.net.model.layers, old(session.seen), chunk).hidden
      ensures r.Err? ==> session.Explained(r.error, 0, session.numLayers)
    {
      hide At, ChunkAt, InferenceSession.Now, InferenceSession.Books, InferenceSession.Valid,
           InferenceSession.Explained;
      FedSoFar(session);
      PositionsGrow(session.seen, chunk);
      r := session.Step(chunk);
    }
  }
}
