/**
 * The frame gate: a wrapper around a counting semaphore created with one
 * permit. `acquire` blocks while no permit is available; here blocking is a
 * precondition. The same class stands for both copies of the wrapper.
 */
module Gate {
  import opened Messages

  class FrameLock {
    /** The semaphore's available permits. */
    var permits: nat

    /** A new gate holds one permit, so the first `Acquire` does not wait. */
    constructor ()
      ensures permits == 1
    {
      permits := 1;
    }

    /** Takes one permit; the render thread would wait while there is none. */
    method Acquire()
      requires permits >= 1
      modifies this
      ensures permits == old(permits) - 1
      ensures Replay(old(permits), [AcquireOp]) == Some(permits)
    {
      permits := permits - 1;
    }

    /** Adds one permit, with no cap on how many may accumulate. */
    method Release()
      modifies this
      ensures permits == old(permits) + 1
      ensures Replay(old(permits), [ReleaseOp]) == Some(permits)
    {
      permits := permits + 1;
    }
  }

  /** One call on the gate. */
  datatype GateOp = AcquireOp | ReleaseOp

  /**
   * The permits left after running `ops` from `permits` one after the other,
   * or `None` when some acquire finds no permit (the caller would block).
   */
  function Replay(permits: nat, ops: seq<GateOp>): (r: Option<nat>)
    decreases ops
  {
    if ops == [] then Some(permits)
    else if ops[0] == AcquireOp then
      if permits == 0 then None else Replay(permits - 1, ops[1..])
    else Replay(permits + 1, ops[1..])
  }

  /** How many times `op` occurs in `ops`. */
  function Count(ops: seq<GateOp>, op: GateOp): (r: nat)
  {
    if ops == [] then 0 else (if ops[0] == op then 1 else 0) + Count(ops[1..], op)
  }

  /** Permits after the calls in `ops`, counted without regard to blocking. */
  function Net(permits: nat, ops: seq<GateOp>): (r: int)
  {
    permits + Count(ops, ReleaseOp) - Count(ops, AcquireOp)
  }

  /** Permit accounting: a trace that runs to the end gains one permit per release and loses one per acquire. */
  lemma {:induction false} ReplayAccounting(permits: nat, ops: seq<GateOp>)
    requires Replay(permits, ops).Some?
    ensures Replay(permits, ops).value == Net(permits, ops)
    decreases ops
  {
    if ops != [] {
      if ops[0] == AcquireOp {
        ReplayAccounting(permits - 1, ops[1..]);
      } else {
        ReplayAccounting(permits + 1, ops[1..]);
      }
    }
  }

  lemma {:induction false} CountPrefix(ops: seq<GateOp>, op: GateOp, k: nat)
    requires 0 < k <= |ops|
    ensures Count(ops[..k], op) == (if ops[0] == op then 1 else 0) + Count(ops[1..][..k - 1], op)
  {
    assert ops[..k] == [ops[0]] + ops[1..][..k - 1];
    assert ops[..k][1..] == ops[1..][..k - 1];
  }

  /**
   * The permit count never goes negative: a trace runs without blocking
   * exactly when every prefix of it leaves a non-negative count.
   */
  lemma {:induction false} ReplayNeverNegative(permits: nat, ops: seq<GateOp>)
    ensures Replay(permits, ops).Some? <==> forall k :: 0 <= k <= |ops| ==> Net(permits, ops[..k]) >= 0
    decreases ops
  {
    if ops == [] {
      assert forall k :: 0 <= k <= |ops| ==> ops[..k] == [];
    } else {
      var p' := if ops[0] == AcquireOp then permits - 1 else permits + 1;
      forall k | 0 < k <= |ops|
        ensures Net(permits, ops[..k]) == Net(0, ops[1..][..k - 1]) + p'
      {
        CountPrefix(ops, ReleaseOp, k);
        CountPrefix(ops, AcquireOp, k);
      }
      assert ops[..0] == [];
      if ops[0] == AcquireOp && permits == 0 {
        assert Net(permits, ops[..1]) == -1 by {
          assert ops[1..][..0] == [];
        }
      } else {
        ReplayNeverNegative(p', ops[1..]);
        if forall k :: 0 <= k <= |ops| ==> Net(permits, ops[..k]) >= 0 {
          forall k | 0 <= k <= |ops[1..]| ensures Net(p', ops[1..][..k]) >= 0 {
            assert Net(permits, ops[..k + 1]) >= 0;
          }
        }
      }
    }
  }

  /** `n` frames of "acquire in the pre-frame hook, released by the next frame event". */
  function Frames(n: nat): (r: seq<GateOp>)
  {
    if n == 0 then [] else [AcquireOp, ReleaseOp] + Frames(n - 1)
  }

  /** Starting from the single initial permit, the per-frame acquire/release cycle never blocks and ends at one permit. */
  lemma {:induction false} FramesNeverBlock(n: nat)
    ensures Replay(1, Frames(n)) == Some(1)
  {
    if n > 0 {
      FramesNeverBlock(n - 1);
      assert Frames(n)[1..][1..] == Frames(n - 1);
    }
  }

  /** `n` releases in a row. */
  function Releases(n: nat): (r: seq<GateOp>)
  {
    if n == 0 then [] else [ReleaseOp] + Releases(n - 1)
  }

  /** No cap: `n` releases without an acquire leave `n` more permits, so more than one waiter may pass. */
  lemma {:induction false} ReleasesAccumulate(permits: nat, n: nat)
    ensures Replay(permits, Releases(n)) == Some(permits + n)
    decreases n
  {
    if n > 0 {
      ReleasesAccumulate(permits + 1, n - 1);
      assert Releases(n)[1..] == Releases(n - 1);
    }
  }

  /** A release followed by an acquire leaves the permit count as it was. */
  lemma ReleaseThenAcquire(permits: nat)
    ensures Replay(permits, [ReleaseOp, AcquireOp]) == Some(permits)
  {
    assert [ReleaseOp, AcquireOp][1..] == [AcquireOp];
    assert Replay(permits + 1, [AcquireOp]) == Replay(permits, []);
  }
}
