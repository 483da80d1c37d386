/**
 * The role coordinator: one process of the wall, leader or follower. The
 * leader accepts its followers, then per frame releases its own frame gate
 * and broadcasts a frame event; a follower releases its gate on each frame
 * event and answers each drawn frame with an end-of-frame command. Sockets
 * are replaced by the sequences of commands written to each channel.
 */
module Coordinator {
  import opened Messages
  import Handoff
  import opened Gate
  import opened Followers
  import Geometry

  /** Every channel with `c` written at its end. */
  function AppendToAll(chans: seq<seq<Command>>, c: Command): (r: seq<seq<Command>>)
  {
    seq(|chans|, k requires 0 <= k < |chans| => chans[k] + [c])
  }

  /** The channels after the commands `cs` have been broadcast one after the other. */
  function SendAll(chans: seq<seq<Command>>, cs: seq<Command>): (r: seq<seq<Command>>)
    decreases |cs|
  {
    if cs == [] then chans else AppendToAll(SendAll(chans, cs[..|cs| - 1]), cs[|cs| - 1])
  }

  /** Every follower receives every broadcast command, exactly once each and in the order sent. */
  lemma {:induction false} EveryClientGetsEveryCommand(chans: seq<seq<Command>>, cs: seq<Command>)
    ensures |SendAll(chans, cs)| == |chans|
    ensures forall k :: 0 <= k < |chans| ==> SendAll(chans, cs)[k] == chans[k] + cs
    decreases |cs|
  {
    if cs != [] {
      var init := cs[..|cs| - 1];
      EveryClientGetsEveryCommand(chans, init);
      forall k | 0 <= k < |chans| ensures SendAll(chans, cs)[k] == chans[k] + cs {
        calc {
          SendAll(chans, cs)[k];
          SendAll(chans, init)[k] + [cs[|cs| - 1]];
          chans[k] + init + [cs[|cs| - 1]];
          { assert init + [cs[|cs| - 1]] == cs; }
          chans[k] + cs;
        }
      }
    }
  }

  class Process {
    /** Fixed at construction from the configuration's rank. */
    const isLeader: bool
    /** Gate the render thread passes once per frame. */
    const frameLock: FrameLock
    /** Connection and readiness counts kept by the leader. */
    const followerState: FollowerState

    var sendAttributes: bool
    var receivedAttributes: bool
    var attribute: Option<Payload>

    /** Leader: the commands written to each follower's channel, in accept order. */
    var clients: seq<seq<Command>>
    /** Follower: the commands written to the leader's channel. */
    var toLeader: seq<Command>

    /** The hand-off fields as a value. */
    function Attrs(): (r: Handoff.Attributes)
      reads this
    {
      Handoff.Attributes(sendAttributes, receivedAttributes, attribute)
    }

    /**
     * A new process: one gate permit, nobody connected, nothing pending, no
     * channel written. The barrier needs at least one party, so a negative
     * follower count cannot be constructed.
     */
    constructor (config: Geometry.Config)
      requires config.numFollowers >= 0
      ensures isLeader == config.isLeader
      ensures fresh(frameLock) && frameLock.permits == 1
      ensures fresh(followerState) && followerState.numFollowers == config.numFollowers
      ensures followerState.numConnected == 0 && followerState.numReady == 0 && !followerState.notified
      ensures Attrs() == Handoff.Initial
      ensures clients == [] && toLeader == []
    {
      isLeader := config.isLeader;
      frameLock := new FrameLock();
      followerState := new FollowerState(config.numFollowers);
      sendAttributes := false;
      receivedAttributes := false;
      attribute := None;
      clients := [];
      toLeader := [];
    }

    /** Pre-frame hook: takes exactly one gate permit before the screen is placed. */
    method Pre()
      requires frameLock.permits >= 1
      modifies frameLock
      ensures frameLock.permits == old(frameLock.permits) - 1
    {
      frameLock.Acquire();
    }

    /** Post-draw hook: a follower writes exactly one end-of-frame command; the leader writes nothing. */
    method Draw()
      modifies this
      ensures toLeader == if isLeader then old(toLeader) else old(toLeader) + [EndFrame]
      ensures clients == old(clients) && Attrs() == old(Attrs())
    {
      if !isLeader {
        SendEndFrame();
      }
    }

    /** Writes one end-of-frame command to the leader. */
    method SendEndFrame()
      modifies this
      ensures toLeader == old(toLeader) + [EndFrame]
      ensures clients == old(clients) && Attrs() == old(Attrs())
    {
      toLeader := toLeader + [EndFrame];
    }

    /**
     * Leader bootstrap: each accepted connection counts as connected and
     * gets a channel, until every expected follower is connected.
     */
    method Start()
      requires isLeader
      requires followerState.numConnected <= followerState.numFollowers
      modifies this, followerState
      ensures followerState.AllConnected()
      ensures |clients| == followerState.numFollowers - old(followerState.numConnected)
      ensures forall k :: 0 <= k < |clients| ==> clients[k] == []
      ensures followerState.numReady == old(followerState.numReady)
      ensures followerState.notified == old(followerState.notified)
      ensures Attrs() == old(Attrs()) && toLeader == old(toLeader)
    {
      clients := [];
      while !followerState.AllConnected()
        invariant followerState.numConnected <= followerState.numFollowers
        invariant |clients| == followerState.numConnected - old(followerState.numConnected)
        invariant forall k :: 0 <= k < |clients| ==> clients[k] == []
        invariant followerState.numReady == old(followerState.numReady)
        invariant followerState.notified == old(followerState.notified)
        invariant Attrs() == old(Attrs()) && toLeader == old(toLeader)
        decreases followerState.numFollowers - followerState.numConnected
      {
        followerState.IncrementConnected();
        clients := clients + [[]];
      }
    }

    /** Builds the frame event, clears the pending flag, and writes the event to every client in order. */
    method BroadcastFE()
      modifies this
      ensures Attrs() == Handoff.Sent(old(Attrs()))
      ensures clients == AppendToAll(old(clients), Handoff.FrameEvent(old(Attrs())))
      ensures toLeader == old(toLeader)
    {
      var command := Command(FE, if sendAttributes then attribute else None);
      sendAttributes := false;
      var i := 0;
      while i < |clients|
        invariant 0 <= i <= |clients| == |old(clients)|
        invariant forall k :: 0 <= k < i ==> clients[k] == old(clients)[k] + [command]
        invariant forall k :: i <= k < |clients| ==> clients[k] == old(clients)[k]
        invariant Attrs() == Handoff.Sent(old(Attrs())) && toLeader == old(toLeader)
      {
        clients := clients[i := clients[i] + [command]];
        i := i + 1;
      }
    }

    /** One leader iteration after the rendezvous: release the own gate, then broadcast the frame event. */
    method LeaderStep()
      requires isLeader
      modifies this, frameLock
      ensures frameLock.permits == old(frameLock.permits) + 1
      ensures Attrs() == Handoff.Sent(old(Attrs()))
      ensures clients == AppendToAll(old(clients), Handoff.FrameEvent(old(Attrs())))
      ensures toLeader == old(toLeader)
    {
      frameLock.Release();
      BroadcastFE();
    }

    /** Follower's handling of one command: a frame event releases the gate once and stores a payload it carries. */
    method ReadCommand(c: Command)
      modifies this, frameLock
      ensures Attrs() == Handoff.Read(old(Attrs()), c)
      ensures frameLock.permits == old(frameLock.permits) + (if c.kind == FE then 1 else 0)
      ensures clients == old(clients) && toLeader == old(toLeader)
    {
      if c.kind == FE {
        if c.att.Some? {
          receivedAttributes := true;
          attribute := c.att;
        }
        frameLock.Release();
      }
    }

    /** One follower iteration: a `null` command stops the loop; any other command is handled. */
    method FollowerStep(received: Option<Command>) returns (stopped: bool)
      requires !isLeader
      modifies this, frameLock
      ensures stopped <==> received.None?
      ensures stopped ==> Attrs() == old(Attrs()) && frameLock.permits == old(frameLock.permits)
      ensures !stopped ==> Attrs() == Handoff.Read(old(Attrs()), received.value)
      ensures !stopped ==> frameLock.permits == old(frameLock.permits) + (if received.value.kind == FE then 1 else 0)
      ensures clients == old(clients) && toLeader == old(toLeader)
    {
      if received.None? {
        return true;
      }
      ReadCommand(received.value);
      stopped := false;
    }

    /** `broadcast(a)`: the next frame event carries `a`. */
    method Broadcast(a: Option<Payload>)
      modifies this
      ensures Attrs() == Handoff.Broadcast(old(Attrs()), a)
      ensures clients == old(clients) && toLeader == old(toLeader)
    {
      sendAttributes := true;
      attribute := a;
    }

    /** Whether a payload arrived that `GetMessage` has not returned yet. */
    method MessageReceived() returns (r: bool)
      ensures r == Attrs().received
    {
      r := receivedAttributes;
    }

    /** Read-once access to the last received payload. */
    method GetMessage() returns (m: Option<Payload>)
      modifies this
      ensures (Attrs(), m) == Handoff.TakeMessage(old(Attrs()))
      ensures clients == old(clients) && toLeader == old(toLeader)
    {
      if receivedAttributes {
        receivedAttributes := false;
        m := attribute;
      } else {
        m := None;
      }
    }
  }

  /**
   * One frame across two processes: the leader broadcasts `p` and steps; its
   * first follower reads the event, passes its gate and reads the message
   * twice. The first read returns `p`, the second `None`.
   */
  method OneFrame(leader: Process, follower: Process, p: Payload) returns (first: Option<Payload>, second: Option<Payload>)
    requires leader.isLeader && !follower.isLeader && leader != follower
    requires leader.frameLock != follower.frameLock
    requires |leader.clients| > 0
    modifies leader, follower, leader.frameLock, follower.frameLock
    ensures first == Some(p) && second == None
    ensures follower.frameLock.permits == old(follower.frameLock.permits)
  {
    leader.Broadcast(Some(p));
    leader.LeaderStep();
    var channel := leader.clients[0];
    follower.ReadCommand(channel[|channel| - 1]);
    follower.Pre();
    first := follower.GetMessage();
    second := follower.GetMessage();
  }
}
