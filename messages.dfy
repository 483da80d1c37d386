/** Values that travel between the leader and its followers. */
module Messages {

  /** An optional value; `None` stands for Java's `null`. */
  datatype Option<+T> = None | Some(value: T)

  /** The opaque object a sketch attaches to a frame event, as its serialized bytes. */
  type Payload = seq<bv8>

  /** Kind of the leader-to-follower frame event. */
  const FE: string := "fe"

  /** Kind of the follower-to-leader end-of-frame acknowledgement. */
  const EF: string := "ef"

  /** One serialized `Command` object: a kind string and the attached payload, if any. */
  datatype Command = Command(kind: string, att: Option<Payload>)

  /** The acknowledgement a follower sends after drawing; it never carries a payload. */
  const EndFrame: Command := Command(EF, None)
}
