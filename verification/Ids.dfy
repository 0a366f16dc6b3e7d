/** Names the client and the servers share. */
module Ids {
  // Names are only ever compared, so numbers stand for them.
  type Address = nat
  type PeerId = nat

  /** A session id: the client's random id (a number, as uuids are) and the number of the assignment. */
  datatype Sid = Sid(session: nat, generation: nat)

  /** The key of a server's session table: session id and entry layer. */
  datatype Key = Key(sid: Sid, start: nat)
}
