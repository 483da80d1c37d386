/**
 * The readiness counter: how many followers the leader expects, how many have
 * connected, how many are ready, and a notification flag. Every operation
 * reads or updates these fields; mutual exclusion between threads is left out.
 */
module Followers {

  class FollowerState {
    /** Expected follower count, fixed at construction. */
    const numFollowers: int
    var numConnected: int
    var numReady: int
    var notified: bool

    /** Nobody has connected or is ready yet, and nobody has been notified. */
    constructor (numFollowers: int)
      ensures this.numFollowers == numFollowers
      ensures numConnected == 0 && numReady == 0 && !notified
    {
      this.numFollowers := numFollowers;
      numConnected := 0;
      numReady := 0;
      notified := false;
    }

    /** Bootstrap gate: every expected follower has connected. */
    predicate AllConnected()
      reads this
    {
      numConnected == numFollowers
    }

    /** Every expected follower has reported ready. */
    predicate AllReady()
      reads this
    {
      numReady == numFollowers
    }

    /** The notification flag, read without side effect. */
    predicate Notified()
      reads this
    {
      notified
    }

    /** One more follower connected; there is no upper-bound check. */
    method IncrementConnected()
      modifies this
      ensures numConnected == old(numConnected) + 1
      ensures numReady == old(numReady) && notified == old(notified)
      ensures AllConnected() <==> old(numConnected) + 1 == numFollowers
      ensures old(numConnected) >= numFollowers ==> !AllConnected()
    {
      numConnected := numConnected + 1;
    }

    /** One more follower finished its frame. */
    method Ready()
      modifies this
      ensures numReady == old(numReady) + 1
      ensures numConnected == old(numConnected) && notified == old(notified)
      ensures AllReady() <==> old(numReady) + 1 == numFollowers
    {
      numReady := numReady + 1;
    }

    method SetAllReady()
      modifies this
      ensures AllReady() && numReady == numFollowers
      ensures numConnected == old(numConnected) && notified == old(notified)
    {
      numReady := numFollowers;
    }

    method SetNoneReady()
      modifies this
      ensures numReady == 0
      ensures AllReady() <==> numFollowers == 0
      ensures numConnected == old(numConnected) && notified == old(notified)
    {
      numReady := 0;
    }

    method NotifiedTrue()
      modifies this
      ensures Notified()
      ensures numConnected == old(numConnected) && numReady == old(numReady)
    {
      notified := true;
    }

    method NotifiedFalse()
      modifies this
      ensures !Notified()
      ensures numConnected == old(numConnected) && numReady == old(numReady)
    {
      notified := false;
    }
  }
}
