# MPE frame lockstep: a Dafny model

The Massive Pixel Environment runs one Processing sketch per machine of a tiled
display wall. One leader process and N follower processes draw in lockstep.
The leader waits until every follower has drawn the current frame. Then it
sends every follower a frame event (`"fe"`), which may carry one payload
object registered with `broadcast`. A follower draws its first frame on the gate's
initial permit, and each later frame only after a frame event has released
the gate. It answers every drawn frame with an end-of-frame command (`"ef"`).

This project models the sequential bookkeeping under that protocol and proves
properties of it:

- `messages.dfy` (module `Messages`): the `Command` record, a kind string plus
  an optional payload. A Java `null` is `None`.
- `frame_lock.dfy` (module `Gate`): the frame gate, a semaphore created with
  one permit, as a class with a permit counter. A blocking `acquire` becomes a
  precondition. `Replay` is a specification of traces of gate calls. Its
  lemmas state permit accounting, that the count never goes negative, and
  that the count has no cap. One class stands for both `src/mpe/FrameLock.java`
  and `src/process/FrameLock.java`, which differ only in their package.
- `follower_state.dfy` (module `Followers`): the connected/ready/notified
  counter class.
- `configuration.dfy` (module `Geometry`): the configuration constructor. It
  takes already-parsed XML values. `Configuration` is the pure result and
  `Configure` computes the same result step by step. `Configure` uses the
  rank-lookup loop (`FindEntry`) and the min/max scan over the screens
  (`ScanTiles`). The lemmas cover the leader case, the follower's first-match
  lookup, and that a follower's window lies inside the whole wall. The
  getters are the fields of the `Config` datatype.
- `handoff.dfy` (module `Handoff`): the single-use payload as a value. The
  functions model `broadcast`, the frame event built by `broadcastFE`,
  `readCommand` and `getMessage`. The lemmas prove the round trip,
  exactly-once delivery over any number of frames, and read-once access.
- `process.dfy` (module `Coordinator`): the `Process` class. Its methods are
  specified by the `Handoff` functions and the `Gate` class. Each client
  socket is the sequence of commands written to it.

Threads, sockets and blocking are abstracted. A blocking `acquire` becomes a
precondition. One release of the cyclic barrier becomes one call of
`LeaderStep`. Reading a command from the socket becomes the argument of
`FollowerStep`.

Two facts about the code that its own comments do not make plain:

- The frame gate's doc comment calls it a wrapper for a binary semaphore
  (`src/mpe/FrameLock.java:6`). It wraps `new Semaphore(1)`, a counting
  semaphore with no cap, so repeated releases accumulate permits
  (`Gate.ReleasesAccumulate`).
- `allConnected()` is an equality test (`src/process/FollowerState.java:32-35`)
  and `incrementConnected()` has no bound, so `allConnected()` becomes false
  again after an extra increment
  (`Followers.FollowerState.IncrementConnected`).

## Model

| member | source | states |
|---|---|---|
| `Gate.FrameLock.constructor` | src/mpe/FrameLock.java:14-17 | a new gate holds exactly one permit, so the first acquire does not wait |
| `Gate.FrameLock.Acquire` | src/mpe/FrameLock.java:22-30 | needs at least one permit (blocking as a precondition) and removes exactly one, which agrees with one acquire step of `Replay` |
| `Gate.FrameLock.Release` | src/mpe/FrameLock.java:32-35 | adds exactly one permit with no cap, which agrees with one release step of `Replay` |
| `Gate.ReplayAccounting` | src/process/FrameLock.java:14-27 | a trace of gate calls that never blocks ends with the initial permits plus the releases minus the acquires |
| `Gate.ReplayNeverNegative` | src/process/FrameLock.java:14-27 | a trace runs without blocking if and only if every prefix leaves a non-negative permit count |
| `Gate.FramesNeverBlock` | src/process/FrameLock.java:9-12 | from the single initial permit, any number of acquire-then-release frame cycles never block and end at one permit |
| `Gate.ReleasesAccumulate` | src/mpe/FrameLock.java:6-35 | n releases without an acquire add n permits, so the wrapper does not act as a binary semaphore |
| `Gate.ReleaseThenAcquire` | src/process/FrameLock.java:14-27 | a release followed by an acquire leaves the permit count unchanged |
| `Followers.FollowerState.constructor` | src/process/FollowerState.java:16-30 | stores the follower count; 0 connected, 0 ready, not notified |
| `Followers.FollowerState.AllConnected` | src/process/FollowerState.java:32-35 | the bootstrap query: true exactly when the connected count equals the follower count, so false both below and above it |
| `Followers.FollowerState.AllReady` | src/process/FollowerState.java:47-50 | the readiness query: true exactly when the ready count equals the follower count |
| `Followers.FollowerState.Notified` | src/process/FollowerState.java:62-65 | reads the notification flag without changing anything |
| `Followers.FollowerState.IncrementConnected` | src/process/FollowerState.java:32-40 | adds exactly one to the connected count and changes nothing else; afterwards allConnected holds iff the new count equals the follower count, and incrementing at or past the follower count makes it false |
| `Followers.FollowerState.Ready` | src/process/FollowerState.java:42-50 | adds exactly one to the ready count and changes nothing else; afterwards allReady holds iff the new count equals the follower count |
| `Followers.FollowerState.SetAllReady` | src/process/FollowerState.java:52-55 | makes allReady true, ready count equal to the follower count, other fields unchanged |
| `Followers.FollowerState.SetNoneReady` | src/process/FollowerState.java:57-60 | sets the ready count to 0, other fields unchanged |
| `Followers.FollowerState.NotifiedTrue` | src/process/FollowerState.java:62-70 | sets the notified flag, which the notified query then reads; counts unchanged |
| `Followers.FollowerState.NotifiedFalse` | src/process/FollowerState.java:72-75 | clears the notified flag; counts unchanged |
| `Geometry.FirstMatch` | src/mpe/Configuration.java:129-139 | the result is the index of the first child whose rank is this rank, or none when no child has it |
| `Geometry.FindEntry` | src/mpe/Configuration.java:126-139 | the lookup loop with `break` returns exactly that first matching index |
| `Geometry.Min` | src/mpe/Configuration.java:179-190 | the result is below or equal to every element and is one of them |
| `Geometry.Max` | src/mpe/Configuration.java:179-190 | the result is above or equal to every element and is one of them |
| `Geometry.ScanTiles` | src/mpe/Configuration.java:148-190 | starting from the first screen's indices, the scan ends with the minimum and maximum `i` and `j` over all screens |
| `Geometry.Configure` | src/mpe/Configuration.java:49-226 | the constructor, step by step with its two loops, computes exactly `Configuration` |
| `Geometry.Layout` | src/mpe/Configuration.java:147-219 | the follower part of the constructor: the window location from the first screen, the scan, and the range, size and offset formulas. Its result is exactly the specified follower geometry |
| `Geometry.WindowLocation` | src/mpe/Configuration.java:156-177 | the window starts at the `x`/`y` attributes of the first listed screen when present; otherwise at that screen's offset on a wall without mullions, and at the top |
| `Geometry.LocalDim` | src/mpe/Configuration.java:195-206 | a follower's window is as large as a whole wall of `maxi - mini + 1` by `maxj - minj + 1` screens with the same mullions |
| `Geometry.MasterDim` | src/mpe/Configuration.java:208-209 | the wall reaches to where a screen one past the last would start, less the trailing mullion |
| `Geometry.Offsets` | src/mpe/Configuration.java:217-219 | a follower's offset is the width of the `min` screens to its left plus the mullion after them, on each axis |
| `Geometry.Configuration` | src/mpe/Configuration.java:49-226 | a successful result records the rank and leads exactly when the rank is -1; a missing head or head child is an error exactly for the leader |
| `Geometry.LeaderGeometry` | src/mpe/Configuration.java:72-124 | without a rank (or with rank -1) the process leads. Its local and master size both equal the head child's width and height, and its offsets are (0,0). A missing head or head child is an error |
| `Geometry.ConfigurationCommon` | src/mpe/Configuration.java:91-107 | the follower count is the number of configuration children minus 3; the server is the head's host or `localhost` without a head; leader iff rank is -1 |
| `Geometry.FollowerEntry` | src/mpe/Configuration.java:126-153 | a follower fails with a missing entry iff no child carries its rank, and succeeds iff the first such child has screens, with or without a head; its only errors are a missing entry or no screens. Its geometry is computed from that child's screens |
| `Geometry.SpanSplit` | src/mpe/Configuration.java:202-219 | along an axis, the master size is exactly three parts added together: the offset, the local size, and the screens and mullions to the right |
| `Geometry.AxisFits` | src/mpe/Configuration.java:202-219 | with non-negative resolution and mullions and `0 <= min <= max < numTiles`, `0 <= offset` and `offset + localDim <= masterDim`, and the local size is at least one screen |
| `Geometry.FollowerFitsWall` | src/mpe/Configuration.java:179-219 | a follower whose screens all lie inside the wall gets a window inside the master picture on both axes |
| `Geometry.SpanAtLeastOne` | src/mpe/Configuration.java:196-206 | a range of one or more screens with non-negative mullions spans at least one screen |
| `Geometry.WindowFromFirstTile` | src/mpe/Configuration.java:156-158 | the default window location comes from the first listed screen, not the scanned minimum. For screens listed as columns 1 then 0, the window starts at one screen width while the offset is 0 |
| `Handoff.Broadcast` | src/mpe/Process.java:582-586 | marks a broadcast pending and stores the payload; the follower-side flag is untouched |
| `Handoff.FrameEvent` | src/mpe/Process.java:521-535 | the frame event is `"fe"`; it carries the stored slot, even a `null` one, when a broadcast is pending, and `null` otherwise |
| `Handoff.Sent` | src/mpe/Process.java:537-539 | after the frame event is built nothing is pending; the stored slot and the received flag are kept |
| `Handoff.Read` | src/mpe/Process.java:490-519 | a frame event with a payload stores it and marks it received; any other command leaves the state as it was |
| `Handoff.TakeMessage` | src/mpe/Process.java:603-615 | afterwards nothing is marked received; the result is the stored payload when one was received, and `null` otherwise |
| `Handoff.PayloadRidesOnce` | src/mpe/Process.java:531-539 | after `broadcast(a)` the next frame event carries `a`, and the one after it carries nothing |
| `Handoff.FrameEventCarriesOnlyPending` | src/mpe/Process.java:521-539 | a frame event is `"fe"`; it carries a payload only when a broadcast was pending, and a pending broadcast's stored slot is always carried; after sending, none is pending |
| `Handoff.LastBroadcastWins` | src/mpe/Process.java:582-586 | a second broadcast before the frame event replaces the pending payload |
| `Handoff.TakeMessageReadsOnce` | src/mpe/Process.java:603-615 | with nothing pending, getMessage returns none and changes nothing. Otherwise it returns the stored payload and clears the flag, so an immediate second call returns none |
| `Handoff.RoundTrip` | src/mpe/Process.java:498-502 | broadcast(P), frame event, follower read: the first getMessage returns P and the second returns none |
| `Handoff.EmptyFrameEventKeepsUnread` | src/mpe/Process.java:497-502 | a command without payload leaves an earlier unread message pending |
| `Handoff.DeliveredExactlyOnce` | src/mpe/Process.java:521-615 | over any sequence of frames, the follower's getMessage in each frame returns exactly the payload broadcast in that frame, and none in frames without a broadcast |
| `Handoff.FiveQuietFramesThenOne` | src/mpe/Process.java:582-615 | five frames without broadcast, one with x, one without: the follower sees none five times, then x once, then none |
| `Handoff.LatestPayloadPending` | src/mpe/Process.java:490-519 | unread payloads are not queued: after several frame events the latest payload is the pending one, and events without one leave the state untouched |
| `Coordinator.EveryClientGetsEveryCommand` | src/mpe/Process.java:541-544 | after a series of broadcasts, every client channel has grown by exactly the broadcast commands, in order |
| `Coordinator.Process.constructor` | src/mpe/Process.java:117-149 | needs a non-negative follower count, as the barrier for `numFollowers + 1` parties does. The role is the configuration's role, the gate holds one permit, and the follower counter is fresh for the configured follower count. Nothing is pending and no channel has been written |
| `Coordinator.Process.Pre` | src/mpe/Process.java:154-164 | the pre-frame hook consumes exactly one gate permit |
| `Coordinator.Process.Draw` | src/mpe/Process.java:169-174 | a follower writes exactly one `"ef"` command to the leader; the leader writes nothing |
| `Coordinator.Process.SendEndFrame` | src/mpe/Process.java:552-563 | writes one `"ef"` command without payload to the leader's channel |
| `Coordinator.Process.Start` | src/mpe/Process.java:247-296 | the leader bootstrap increments the connected count once and opens one empty channel per iteration. It stops exactly when all followers are connected, so a fresh leader ends with one channel per follower |
| `Coordinator.Process.BroadcastFE` | src/mpe/Process.java:521-549 | builds the frame event from the pending payload and clears the pending flag. It then appends that same event to every client channel in order |
| `Coordinator.Process.LeaderStep` | src/mpe/Process.java:310-331 | after the rendezvous, releases one gate permit and then broadcasts the frame event |
| `Coordinator.Process.ReadCommand` | src/mpe/Process.java:490-519 | a frame event with payload stores it and marks it received. Every frame event releases the gate exactly once, and any other command changes nothing |
| `Coordinator.Process.FollowerStep` | src/mpe/Process.java:334-349 | a `null` command stops the follower loop with nothing changed; otherwise the command is handled as by ReadCommand |
| `Coordinator.Process.Broadcast` | src/mpe/Process.java:582-586 | sets the pending flag and stores the payload, overwriting any still pending |
| `Coordinator.Process.MessageReceived` | src/mpe/Process.java:593-596 | reports whether an unread payload is pending, without changing anything |
| `Coordinator.Process.GetMessage` | src/mpe/Process.java:603-615 | read-once access: the pending payload and a cleared flag, or none and no change |
| `Coordinator.OneFrame` | src/mpe/Process.java:521-615 | across two process objects, one broadcast frame delivers the payload on the first getMessage and none on the second. The follower's gate is back at its permit count |

## Left out

- Sockets, object streams and the follower's connect-and-retry loop with its two-second sleep (`src/mpe/Process.java:213-244`) are not modelled. They are network I/O. Each channel is the sequence of commands written to it, and a read is an argument.
- Every `System.exit` path is not modelled as termination. A failed bind or write is left out. A missing configuration entry becomes an `Err` result.
- The cyclic barrier, thread start and `synchronized` are left out. They are concurrency. One barrier release is one `LeaderStep` call. The lockstep ordering across threads is therefore not proved.
- `Coordinator.Process.constructor`: requires a non-negative follower count. The source's constructor throws for a negative one when it creates the barrier for `numFollowers + 1` parties (`src/mpe/Process.java:143`); the exception is modelled as that precondition.
- `Coordinator.Process.Start`: requires `numConnected <= numFollowers`. A process from the constructor meets it, since nobody has connected and the follower count is non-negative.
- `Gate.FrameLock.Acquire`: both wrappers catch `InterruptedException` and return without taking a permit (`src/mpe/FrameLock.java:24-29`, `src/process/FrameLock.java:16-21`). An interrupted render thread is not modelled, so `Acquire` always takes a permit.
- The auto-launcher, the debug printing and the `print` helper are left out. They start processes or write to the console.
- Camera, frustum and field-of-view math (`placeScreen`, `setFOV`, `cameraZ_`) is left out. It is floating point and calls into the rendering library.
- The width/height getters of the process are left out. They read the `Config` fields.
- XML loading, `System.getenv` and `Integer.parseInt` are library calls. Their results are inputs. A malformed `x`/`y` attribute is the same as a missing one (`None`), as the source's catch makes it. Other parse failures are not modelled. A head or entry without a first child is taken to yield an error.
- The `int[2]` arrays of the configuration are `Pair` values. The source's getters hand out the arrays themselves, so callers could mutate them; that aliasing is not modelled.
- Java's 32-bit `int` wrap-around is not modelled. Counters and pixel formulas use unbounded integers.
- `FollowerState.aquire`/`release` are thin semaphore wrappers and are left out. So are `src/process/Process.java`, the older variant that waits on monitors with `wait`/`notify`, and `src/process/Connection.java`. On `"ef"` the connection calls `followerState_.ready()` and then waits on the process's barrier (`src/process/Connection.java:72-86`); only the counter step is modelled, as `Followers.FollowerState.Ready`, and the barrier wait is left out with the other concurrency.
- The follower-state and connection classes of the `mpe` package are not part of this model. The `FollowerState` class of `src/process/FollowerState.java` stands in for the first. A channel, as a command sequence, stands in for the second.
