/**
 * Message codes exchanged between the coordinator and its workers, and the
 * tokens a reply is made of.  The transport itself (MPI sends and receives)
 * is not modelled: sending an integer or a length-prefixed buffer becomes
 * appending an `Int` or a `Buf` token to the reply.
 */
module Messages {

  type Byte = bv8

  const MSG_GET_GLOBAL_MODEL: int := 0
  const MSG_UPDATE_GLOBAL_MODEL: int := 4
  /** Shares its value with MSG_GET_GLOBAL_MODEL, exactly as the source declares it. */
  const MSG_GLOBAL_MODEL: int := 0
  const MSG_GET_SCHEDULE: int := 2
  const MSG_SCHEDULE: int := 3
  const MSG_STOP: int := 5
  /** Used by the coordinator but never declared by the source: a fresh code. */
  const MSG_SLEEP: int := 6

  /** One unit sent on the channel: an integer, or a byte buffer (sent as its length, then its bytes). */
  datatype Token = Int(v: int) | Buf(bytes: seq<Byte>)
}
