/** What a client asked of the network, and what came of it. Only the methods of the network write it. */
module Journals {
  import opened Wrappers
  import opened Ids
  import opened Routing

  function Answers(asked: seq<(Address, bool)>): nat {
    if asked == [] then 0
    else Answers(asked[..|asked| - 1]) + if asked[|asked| - 1].1 then 1 else 0
  }

  class Journal {
    /** The registry's answers, one lookup after the other: any rows whatever, or none when it cannot be
        reached. */
    const registry: nat -> Option<seq<ServerInfo>>
    var lookups: nat
    /** How many calls to workers the client did not see answered, closing calls and forks apart. */
    ghost var failed: nat
    /** The closing calls that were made, in order. */
    ghost var closed: seq<(Address, Sid)>
    /** The forks that were asked for: whose, under which id, and whether the client saw the call answered. */
    ghost var forked: seq<(Sid, Sid, bool)>
    /** The encoders that were asked, in order, and whether each answered. */
    ghost var asked: seq<(Address, bool)>

    constructor (registry: nat -> Option<seq<ServerInfo>>)
      ensures this.registry == registry && lookups == failed == 0 && closed == [] && asked == [] && forked == []
    {
      this.registry := registry;
      lookups, failed, closed, asked, forked := 0, 0, [], [], [];
    }

    /** Asks the registry. */
    method Servers() returns (rows: Option<seq<ServerInfo>>)
      modifies `lookups
      ensures lookups == old(lookups) + 1 && rows == Last() == registry(old(lookups))
      ensures Failures() == if rows.Some? then old(Failures()) else old(Failures()) + 1
    {
      rows := registry(lookups);
      lookups := lookups + 1;
    }

    /** What the registry answered when it was last asked. */
    ghost function Last(): Option<seq<ServerInfo>>
      reads `lookups
    {
      if lookups == 0 then None else registry(lookups - 1)
    }

    /** How many of the first n lookups went unanswered. */
    ghost function Silences(n: nat): nat {
      if n == 0 then 0 else Silences(n - 1) + if registry(n - 1).None? then 1 else 0
    }

    /** All that went wrong for the client: lookups and calls to workers. */
    ghost function Failures(): nat
      reads `lookups, `failed
    {
      Silences(lookups) + failed
    }

    /** Asks an encoder, which may fail. */
    method Ask(a: Address) returns (answers: bool)
      modifies `asked
      ensures asked == old(asked) + [(a, answers)]
      ensures Encoded() == old(Encoded()) + if answers then 1 else 0
    {
      answers := *;
      assert (asked + [(a, answers)])[..|asked|] == asked;
      asked := asked + [(a, answers)];
    }

    /** How many times an encoder answered. */
    ghost function Encoded(): nat
      reads `asked
    {
      Answers(asked)
    }

    /** A call is over. */
    ghost method Note(ok: bool)
      modifies `failed
      ensures failed == if ok then old(failed) else old(failed) + 1
    {
      failed := if ok then failed else failed + 1;
    }

    /** A call of `fork` is over. */
    ghost method NoteForked(parent: Sid, child: Sid, ok: bool)
      modifies `forked
      ensures forked == old(forked) + [(parent, child, ok)]
    {
      forked := forked + [(parent, child, ok)];
    }

    /** A closing call is over, whether or not it was answered. */
    ghost method NoteClosed(a: Address, sid: Sid)
      modifies `closed
      ensures closed == old(closed) + [(a, sid)]
    {
      closed := closed + [(a, sid)];
    }
  }
}
