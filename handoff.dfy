/**
 * The single-use payload hand-off between the leader's `broadcast`, the
 * frame event it sends, and the follower's read-once `getMessage`, as values.
 * The process class keeps these three fields and its methods are specified
 * by the functions below.
 */
module Handoff {
  import opened Messages

  /**
   * `sendPending`: a payload waits for the next frame event (leader).
   * `received`: a payload arrived and has not been read yet (follower).
   * `attribute`: the slot both sides keep the payload in.
   */
  datatype Attributes = Attributes(sendPending: bool, received: bool, attribute: Option<Payload>)

  /** Both flags clear and the slot `null`, as after construction. */
  const Initial: Attributes := Attributes(false, false, None)

  /** `broadcast(a)`: register `a` for the next frame event, replacing whatever was pending. */
  function Broadcast(s: Attributes, a: Option<Payload>): (r: Attributes)
    ensures r.sendPending && r.attribute == a
    ensures r.received == s.received
  {
    s.(sendPending := true, attribute := a)
  }

  /** The frame event the leader builds: it carries the slot only when a broadcast is pending. */
  function FrameEvent(s: Attributes): (c: Command)
    ensures c.kind == FE
    ensures s.sendPending ==> c.att == s.attribute
    ensures !s.sendPending ==> c.att == None
  {
    Command(FE, if s.sendPending then s.attribute else None)
  }

  /** After the frame event is built the pending flag is cleared, so the payload is not resent. */
  function Sent(s: Attributes): (r: Attributes)
    ensures !r.sendPending
    ensures r.received == s.received && r.attribute == s.attribute
  {
    s.(sendPending := false)
  }

  /** The follower's `readCommand`: a frame event with a payload stores it; anything else leaves the state. */
  function Read(s: Attributes, c: Command): (r: Attributes)
    ensures r.sendPending == s.sendPending
    ensures c.kind == FE && c.att.Some? ==> r.received && r.attribute == c.att
    ensures !(c.kind == FE && c.att.Some?) ==> r == s
  {
    if c.kind == FE && c.att.Some? then s.(received := true, attribute := c.att) else s
  }

  /** `getMessage`: the stored payload once, clearing the flag; `None` and no change when nothing is pending. */
  function TakeMessage(s: Attributes): (r: (Attributes, Option<Payload>))
    ensures !r.0.received && r.0.sendPending == s.sendPending && r.0.attribute == s.attribute
    ensures r.1 == (if s.received then s.attribute else None)
  {
    if s.received then (s.(received := false), s.attribute) else (s, None)
  }

  /** A broadcast payload rides the next frame event and no later one. */
  lemma PayloadRidesOnce(s: Attributes, a: Option<Payload>)
    ensures FrameEvent(Broadcast(s, a)) == Command(FE, a)
    ensures FrameEvent(Sent(Broadcast(s, a))) == Command(FE, None)
  {
  }

  /** A frame event carries the stored slot, even a `null` one, exactly when a broadcast is pending; after sending, none is. */
  lemma FrameEventCarriesOnlyPending(s: Attributes)
    ensures FrameEvent(s).kind == FE
    ensures FrameEvent(s).att.Some? ==> s.sendPending && FrameEvent(s).att == s.attribute
    ensures s.sendPending ==> FrameEvent(s).att == s.attribute
    ensures !Sent(s).sendPending && Sent(s).received == s.received
  {
  }

  /** A second broadcast before the frame event replaces the first. */
  lemma LastBroadcastWins(s: Attributes, a: Option<Payload>, b: Option<Payload>)
    ensures FrameEvent(Broadcast(Broadcast(s, a), b)).att == b
  {
  }

  /** `getMessage` with nothing pending reports `None` and changes nothing; otherwise it clears the flag. */
  lemma TakeMessageReadsOnce(s: Attributes)
    ensures !s.received ==> TakeMessage(s) == (s, None)
    ensures s.received ==> TakeMessage(s).1 == s.attribute && !TakeMessage(s).0.received
    ensures TakeMessage(TakeMessage(s).0).1 == None
  {
  }

  /** Round trip: a payload broadcast by the leader is returned once by the follower's `getMessage`. */
  lemma RoundTrip(leader: Attributes, follower: Attributes, p: Payload)
    ensures var f1 := Read(follower, FrameEvent(Broadcast(leader, Some(p))));
      && TakeMessage(f1).1 == Some(p)
      && TakeMessage(TakeMessage(f1).0).1 == None
  {
  }

  /** A frame event without payload leaves an earlier unread payload pending. */
  lemma EmptyFrameEventKeepsUnread(s: Attributes, c: Command)
    requires c.att == None
    ensures Read(s, c) == s
  {
  }

  /**
   * Frames in lockstep: for each frame the leader's sketch may broadcast
   * (`plan[k]`), the leader sends the frame event, the follower reads it and
   * calls `getMessage` once. The result is what each of those calls returned.
   */
  function Deliveries(leader: Attributes, follower: Attributes, plan: seq<Option<Payload>>): (r: seq<Option<Payload>>)
    decreases |plan|
  {
    if plan == [] then []
    else
      var l1 := if plan[0].Some? then Broadcast(leader, plan[0]) else leader;
      var taken := TakeMessage(Read(follower, FrameEvent(l1)));
      [taken.1] + Deliveries(Sent(l1), taken.0, plan[1..])
  }

  /** Exactly-once delivery: in every frame the follower gets exactly what was broadcast in it, and `None` otherwise. */
  lemma {:induction false} DeliveredExactlyOnce(leader: Attributes, follower: Attributes, plan: seq<Option<Payload>>)
    requires !leader.sendPending && !follower.received
    ensures Deliveries(leader, follower, plan) == plan
    decreases |plan|
  {
    if plan != [] {
      var l1 := if plan[0].Some? then Broadcast(leader, plan[0]) else leader;
      var taken := TakeMessage(Read(follower, FrameEvent(l1)));
      assert taken.1 == plan[0];
      DeliveredExactlyOnce(Sent(l1), taken.0, plan[1..]);
    }
  }

  /** Five frames without payload, one with `x`, one without: the follower sees none, none, none, none, none, `x`, none. */
  lemma FiveQuietFramesThenOne(x: Payload)
    ensures Deliveries(Initial, Initial, [None, None, None, None, None, Some(x), None])
            == [None, None, None, None, None, Some(x), None]
  {
    DeliveredExactlyOnce(Initial, Initial, [None, None, None, None, None, Some(x), None]);
  }

  /** The follower reading `cs` one after the other without calling `getMessage`. */
  function ReadAll(s: Attributes, cs: seq<Command>): (r: Attributes)
    decreases |cs|
  {
    if cs == [] then s else Read(ReadAll(s, cs[..|cs| - 1]), cs[|cs| - 1])
  }

  /** The payload of the last frame event in `cs` that carried one. */
  function LastPayload(cs: seq<Command>): (r: Option<Payload>)
    decreases |cs|
  {
    if cs == [] then None
    else if cs[|cs| - 1].kind == FE && cs[|cs| - 1].att.Some? then cs[|cs| - 1].att
    else LastPayload(cs[..|cs| - 1])
  }

  /** Unread payloads are not queued: the latest one is pending, and without any the state is untouched. */
  lemma {:induction false} LatestPayloadPending(s: Attributes, cs: seq<Command>)
    ensures LastPayload(cs).Some? ==> ReadAll(s, cs).received && ReadAll(s, cs).attribute == LastPayload(cs)
    ensures LastPayload(cs).None? ==> ReadAll(s, cs) == s
    ensures ReadAll(s, cs).sendPending == s.sendPending
    decreases |cs|
  {
    if cs != [] {
      LatestPayloadPending(s, cs[..|cs| - 1]);
    }
  }
}
