# PoolPilot, modelled and proved

PoolPilot drives a pool pump over a half-duplex RS-485 bus. This project models the path a
speed takes, from the user's intent to the bytes on the wire, and back out of those bytes when
the guardian process has to hold the pump alone:

- `Protocol`, `Parser`, `ScanMeaning`, `Codec`, `Messages`: checksum, frame builder, command
  factories, and the resynchronising scanner with its chunk reassembly.
- `CommandQueue`, `ControlState`, `Engine`: the lossy first-in-first-out queue, the control
  intent, and `apply()` as activations that are in flight at the same time. `EngineOrder`,
  `EngineIntent`, `EngineOff`, `EngineReports`, `EngineEnds`, `EngineWritten` and `EngineFaults`
  hold the results about their runs, `QueueWrites` those about the queue over the bridge's writes.
- `Guardian`, `Server`, `HandOver`: the failover guardian, the server that calls it, and what
  it learns from the relayed bytes. `ServerLive` and `ServerTraffic` hold what the server does in
  its runs and what the guardian knows there. `EndToEnd` joins the engine's runs to the
  guardian's writes.
- `Upstream`, `Bridge`: the link supervisor and the api's connection, which supervises its link
  by the same rules and adds reassembly and write settlement; `UpstreamPace` measures its waits.
  `Process` joins the guardian's server to its supervisor.
- `Segments`, `Timeline`, `Scheduler`: schedule resolution as the api and as the web app do it.

Objects that the source updates in place are classes here, and each method is proved to move
the object's abstract state by a step function. Runs are sequences of those steps, with an
`Enabled` predicate that says which event may happen next; the main results hold in every run.
Times and random numbers are arguments. A suspended `async` function is data: an activation
with the sends it has made, a drain loop that is idle, awaiting a write or sleeping.

## Assumptions about the environment

- A destroyed socket delivers nothing more and closes once, before the next idle check. The
  server's data handler does not check which socket a chunk came from, so that a replaced
  client cannot write rests on this.
- Timers fire when due or later. Where a bound needs it, lateness is a parameter `lag`.
- `start()` is called once.
- Frames that reach the bus do so in the order the bridge was given them, and an acknowledged one
  does. A rejected write may or may not reach it: a timeout leaves its bytes in the socket
  (`apps/api/src/bridge/connection.ts:289-293`).
- Continuations of settled promises run before any timer, so an activation whose send resolved
  continues before the queue's 30 ms sleep ends.

## What the proofs found

- Off does not always converge. `apply()` remembers "released" even when the release was
  discarded or failed, and an abandoned drive does not clear it, so the pump can be left under
  remote control with mode off and no further frame sent until its own timeout.
  `EngineWritten.OffConvergesIff` gives the exact condition for every run, judged by the frames
  that reached the bus, rejected writes among them or not. `EngineFaults` has three runs that fail:
  `AbortedDriveNeverReleased`, `FailedReleaseNeverWritten`, and `RejectedEnableStaysOn`, where the
  acknowledgements say released and the bus says enabled. `EngineWritten.OffConverges` is the case
  in which every send resolves.
- After the last byte of a link the supervisor may dial without delay three times, not two: the
  connection that carried that byte can stall too. It takes no late timer and no odd setting
  (`Upstream.ThreeDialsAtOnceHappen`); `Upstream.DialsInSilence` has the exact condition for two.
- The guardian class alone can end up idle with its keep-alive timer armed
  (`HandOver.IdleWithTimerArmed`); the server's calls exclude it.
- A connection cut between RUN and the new speed can make the guardian hold an older stored
  speed, if the intent was stopped before. From a running intent it cannot.
- A damaged length byte can pass the checksum test as another packet; `Codec.LengthByteVerdict`
  says exactly when.
- A pump address outside one byte is truncated on the wire but not in the guardian's
  comparison, so the guardian would learn nothing; and its sum counts the whole address, so the
  frame is usually damaged too (`Codec.WideAddressAcceptedIff`).
- The comment above `BridgeConnection` speaks of exponential backoff; the code steps through a
  table, 500 to 5000 ms, with up to 20 percent added, and the model does that.

## Model

| member | source | states |
|---|---|---|
| `Protocol.Checksum` | packages/protocol/src/checksum.ts:5-9 | the loop returns, high byte first, the sum of the bytes modulo 2^16 |
| `Protocol.BuildEncodes` | packages/protocol/src/frame.ts:10-20 | for byte fields and up to 255 data bytes `build` truncates nothing: it is preamble, header, data and the two sum bytes |
| `Protocol.ClampRpm` | packages/protocol/src/commands.ts:16-18 | every requested speed, a real number, ends in 0..3450 |
| `Protocol.ClampKeepsRange` | packages/protocol/src/commands.ts:16-18 | a whole speed in range is unchanged, so clamping twice is clamping once |
| `Protocol.ClampIsNearest` | packages/protocol/src/commands.ts:16-18 | the clamped speed is the whole number in 0..3450 nearest to the one asked for, the larger of two equally near |
| `Codec.ReferenceFrame` | docs/superflo-vst-rs485-reference.md:15-24 | `setRpm(1500, 0x60)` is byte for byte the worked example of the bus reference |
| `Codec.RunFrame` | packages/protocol/src/commands.ts:37-39 | the run command for pump 1, byte for byte |
| `Codec.StopFrame` | packages/protocol/src/commands.ts:37-39 | the stop command, byte for byte |
| `Codec.EnableFrame` | packages/protocol/src/commands.ts:42-46 | taking remote control, byte for byte |
| `Codec.ReleaseFrame` | packages/protocol/src/commands.ts:42-46 | releasing it, byte for byte |
| `Codec.StatusFrame` | packages/protocol/src/commands.ts:21-23 | the status poll, byte for byte |
| `Codec.WideAddressAcceptedIff` | packages/protocol/src/frame.ts:10-20 | a frame built for an address that is no byte is accepted by the verifying scanner if and only if what is cut off the address is a multiple of 2^16 |
| `Messages.MsgEncodes` | packages/protocol/src/commands.ts:21-46 | each command factory prints exactly the frame it stands for |
| `Parser.ScanFrames` | packages/protocol/src/parser.ts:27-59 | the index loop, in both modes, refines the recursive scan that decides one offset at a time |
| `Parser.FindFrames` | packages/protocol/src/parser.ts:62-64 | the frames of the lenient scan |
| `Parser.ScanStops` | packages/protocol/src/parser.ts:33-58 | what is left over starts undecidable: fewer than six bytes or an unfinished packet |
| `Parser.LeftoverBounded` | packages/protocol/src/parser.ts:33-58 | at most 262 bytes are ever left over |
| `Parser.VerdictStable` | packages/protocol/src/parser.ts:33-57 | bytes arriving later never change a decision already taken |
| `Parser.ScanAppend` | packages/protocol/src/parser.ts:27-59 | scan(a+b) is scan(a), then scan(leftover(a)+b); frames concatenate, consumed counts add, leftovers agree; both modes |
| `Parser.ChunkingIrrelevant` | apps/guardian/src/guardian.ts:100-108 | for any chunks of one connection the reader delivers the frames of the whole stream and keeps its leftover; the 4096-byte reset never fires |
| `ScanMeaning.WalkUnique` | packages/protocol/src/parser.ts:33-57 | over given verdicts at all offsets there is only one disjoint, in-order, gap-justified choice of packets |
| `ScanMeaning.ScanCharacterised` | packages/protocol/src/parser.ts:27-59 | if and only if: offsets, frames and consumed are the scan's answer exactly when the frames are disjoint in-order packets at those offsets, every byte outside them was to be discarded, and the end is undecidable |
| `Codec.PacketAccepted` | packages/protocol/src/frame.ts:10-20 | a built packet is accepted where it starts, whatever follows, and decodes to its frame |
| `Codec.NoiseSkipped` | packages/protocol/src/parser.ts:33-57 | noise without a start byte in front of five or more bytes changes neither the frames nor the leftover |
| `Codec.NoiseAlone` | packages/protocol/src/parser.ts:33-58 | noise alone gives no frame and keeps at most five bytes, all noise |
| `Codec.LineRoundTrip` | packages/protocol/src/frame.ts:10-20 | any sequence of built frames with such noise before, between and after scans back to exactly those frames, in order, in both modes, keeping at most five noise bytes |
| `Codec.CutFrameSilent` | packages/protocol/src/parser.ts:37-54 | a frame cut anywhere yields nothing yet |
| `Codec.SingleByteErrorRejected` | packages/protocol/src/parser.ts:34-43 | changing any one byte of a valid packet other than its length byte makes the verifying scanner skip that offset, whatever follows |
| `Codec.SingleByteErrorPassesLenient` | packages/protocol/src/parser.ts:34-51 | the lenient scanner lets the same change pass and hands on the changed frame |
| `Codec.BodyRewriteAcceptedIff` | packages/protocol/src/parser.ts:38-43 | rewriting the body under the same length and trailer is accepted exactly when the sum modulo 2^16 is kept |
| `Codec.LengthByteVerdict` | packages/protocol/src/parser.ts:34-54 | the exact verdict on a changed length byte, by the undamaged bytes that arrived: wait, accept as another packet, or skip |
| `Codec.LengthByteErrorAccepted` | packages/protocol/src/parser.ts:35-41 | that acceptance happens: a concrete valid packet whose cleared length byte gives another valid packet |
| `Messages.CutStream` | packages/protocol/src/parser.ts:27-59 | a stream of commands cut at any byte scans to the frames of exactly the commands complete by then |
| `Guardian.Guardian.constructor` | apps/guardian/src/guardian.ts:64-68 | a new guardian is idle, has learnt nothing and has no timer |
| `Guardian.Guardian.SetClientConnected` | apps/guardian/src/guardian.ts:80-94 | on connect: timer off, buffer empty, relaying, nothing written; on disconnect: hold or go idle as the intent decides, with the exact writes |
| `Guardian.Guardian.Observe` | apps/guardian/src/guardian.ts:100-108 | the intent becomes the fold of the sniffed frames of the reassembled bytes; nothing else changes but the buffer |
| `Guardian.Guardian.SniffOne` | apps/guardian/src/guardian.ts:115-132 | one frame changes the intent field its action names, and only if addressed to the pump |
| `Guardian.Guardian.StartFailover` | apps/guardian/src/guardian.ts:138-151 | holding, with deadline and next tick set, and the first keep-alive written at once if the link is up |
| `Guardian.Guardian.Tick` | apps/guardian/src/guardian.ts:153-162 | before the deadline another keep-alive; from the deadline on a release, timer off, idle |
| `Guardian.Guardian.SendKeepAlive` | apps/guardian/src/guardian.ts:164-170 | three writes, enable, run, clamped speed, or none while the link is down |
| `Guardian.Guardian.SendRelease` | apps/guardian/src/guardian.ts:172-175 | one release, or nothing while the link is down |
| `Guardian.Guardian.StopFailover` | apps/guardian/src/guardian.ts:177-182 | the timer is off; nothing else changes |
| `Guardian.DisconnectKeepsDisciplineIff` | apps/guardian/src/guardian.ts:88-93 | the class alone keeps "timer armed exactly while holding" on a disconnect if and only if there is something to hold or the timer was off |
| `Guardian.HeldNeverRaised` | apps/guardian/src/guardian.ts:164-170 | the speed sent while holding never exceeds the speed observed nor 3450, and equals the observed one within range |
| `HandOver.SniffIsApply` | apps/guardian/src/guardian.ts:115-132 | the guardian reads each command's frame as what the command means |
| `HandOver.ObserveAllFeeds` | apps/guardian/src/guardian.ts:100-108 | a sequence of observed chunks folds the frames of the reassembled stream into the intent |
| `HandOver.IntentHandedOver` | apps/guardian/src/guardian.ts:100-132 | for any commands and polls, cut at any byte, in any chunks, the intent is the fold of the complete messages over the earlier intent |
| `HandOver.UnaddressableIgnored` | apps/guardian/src/guardian.ts:115-116 | with a pump address that is no byte no frame is ever sniffed |
| `HandOver.PollsAreSilent` | apps/guardian/src/guardian.ts:115-132 | status polls between commands do not matter |
| `HandOver.LastWordCounts` | apps/guardian/src/guardian.ts:115-132 | whatever frames pass: each part of the intent is what the last frame for the pump that speaks of it says, and what it was if none does |
| `HandOver.HoldRepeatsBurst` | apps/guardian/src/guardian.ts:138-170 | holding an observed burst writes that burst; a burst at speed zero is not held |
| `HandOver.HeldBytes` | apps/guardian/src/guardian.ts:164-175 | a keep-alive at 1500 RPM and a release, byte for byte |
| `HandOver.BurstHeldByteForByte` | apps/api/src/core/engine.ts:80-86 | if the last complete command group is a run burst, the first hold writes are that burst byte for byte when its clamped speed is positive, and nothing is held when it is zero |
| `HandOver.OldOrNewIff` | apps/guardian/src/guardian.ts:115-136 | after k of a burst's three commands the guardian holds the old or the new speed exactly unless a stored speed of a stopped intent surfaces; from a running intent never |
| `HandOver.RetargetCutAnywhere` | apps/guardian/src/guardian.ts:115-136 | the same of bytes: a running intent, a retarget burst with polls, cut at any byte in any chunks, holds exactly the old speed, or exactly the new once all three commands arrived |
| `HandOver.StaleSpeedExample` | apps/guardian/src/guardian.ts:100-136 | reached from observed bytes, in any chunks and after any history: run at an old speed, stop, and a new burst cut after its RUN makes the guardian hold the old speed, though the app had stopped and the whole burst asks for the new |
| `HandOver.IdleWithTimerArmed` | apps/guardian/src/guardian.ts:80-94 | the guardian by itself: a call sequence from its initial state that ends idle with the keep-alive armed and runs a stopped pump at the next tick |
| `Server.Server.constructor` | apps/guardian/src/server.ts:27-46 | no client, no grace timer, a fresh guardian |
| `Server.Server.Accept` | apps/guardian/src/server.ts:69-76 | the new socket becomes the client, the old one is destroyed, the guardian relays and writes nothing |
| `Server.Server.Data` | apps/guardian/src/server.ts:78-83 | the chunk goes to the bus if the link is up and is observed in any case |
| `Server.Server.Close` | apps/guardian/src/server.ts:85-90 | only the current client's close reaches the guardian; a replaced socket's late close changes nothing |
| `Server.Server.Tick` | apps/guardian/src/guardian.ts:153-162 | the guardian's tick; client and grace timer stay |
| `Server.Server.UpstreamConnected` | apps/guardian/src/server.ts:53-53 | the grace timer is off |
| `Server.Server.UpstreamDisconnected` | apps/guardian/src/server.ts:54-66 | the grace timer is armed once, for 1500 ms |
| `Server.Server.GraceOver` | apps/guardian/src/server.ts:56-64 | the client is destroyed if the link is still down |
| `Server.PhaseKept` | apps/guardian/src/server.ts:69-91 | every event keeps: client present exactly while relaying, timer armed exactly while holding |
| `Server.WriterKept` | apps/guardian/src/server.ts:78-90 | every event keeps: guardian writes happen with no client, app writes come from the current client |
| `Server.GraceKept` | apps/guardian/src/server.ts:46-66 | every event keeps: an armed grace timer means the link has been down ever since it was armed; at most one cut an outage, never before 1500 ms of it |
| `Server.HoldKept` | apps/guardian/src/guardian.ts:138-182 | every event keeps the account of the current hold: its writes, deadline and end |
| `Server.EveryRunSafe` | apps/guardian/src/server.ts:46-91 | all of these in every run of accept, data, close, tick, link and grace events |
| `Server.HoldIsBounded` | apps/guardian/src/guardian.ts:138-175 | in every run a hold sends at most ceil(failoverMax / keepAlive) keep-alives of the handed-over intent, all before the deadline, then one release if the link is up at the deadline and none if not; it ends, and while it goes on the clock stays, before deadline + keepAlive + timer lag |
| `Server.GraceRechecksAreDead` | apps/guardian/src/server.ts:54-58 | in every run the re-check of `upstream.connected` at firing is false and a lost link never finds the timer armed |
| `ServerLive.EveryRunLive` | apps/guardian/src/server.ts:46-91 | in every run the account of the hold is exact, interval by interval, and so is that of the grace timer, outage by outage |
| `ServerLive.HoldKeepsAlive` | apps/guardian/src/guardian.ts:138-162 | a hold keeps the pump alive: in every run, while it goes on with the link up since it began, the newest keep-alive on the bus is at most keepAlive + lag old, the first came at its beginning, and each followed the one before within that time |
| `ServerLive.HoldKeptToTheEnd` | apps/guardian/src/guardian.ts:153-162 | and up to its release: the last keep-alive before it is at most that old |
| `ServerLive.GraceCuts` | apps/guardian/src/server.ts:56-64 | in every run, when the grace timer fires with a client, that client is destroyed and counted as one cut of the current outage |
| `ServerLive.LastingOutageCuts` | apps/guardian/src/server.ts:46-66 | in every run, while the link is down the timer is armed for 1500 ms after it went down until it has fired; after 1500 ms and lag it has, once, and if there was a client then the outage cut it, once |
| `ServerLive.DownLinkIsSilent` | apps/guardian/src/guardian.ts:164-175 | nothing is written to the bus while the link is down |
| `ServerTraffic.GuardianKnowsTheTraffic` | apps/guardian/src/server.ts:78-83 | in every run the guardian's intent is the meaning of all bytes its clients sent, connection by connection, in whatever reads, with the link up or down |
| `ServerTraffic.CloseHoldsTheTraffic` | apps/guardian/src/server.ts:85-90 | in every run, when the app vanishes the guardian starts to hold what that traffic means and writes it at once if the link is up; if it means no running pump, nothing is written |
| `Server.RelayIsTransparent` | apps/guardian/src/server.ts:78-83 | in every run the app's part of the bus traffic is exactly the chunks it sent while the link was up, in order and unaltered |
| `Process.BothSidesRun` | apps/guardian/src/server.ts:53-67 | every run of server and upstream client together is a run of each, with the server's idea of the link the client's: nothing about the order of notifications is assumed |
| `Process.ProcessSafe` | apps/guardian/src/server.ts:46-91 | so in every such run the invariants of both hold |
| `Upstream.UpstreamClient.constructor` | apps/guardian/src/upstream.ts:65-72 | no socket, no timer, nothing counted |
| `Upstream.UpstreamClient.Start` | apps/guardian/src/upstream.ts:83-90 | dials, and arms the idle check if it is not armed |
| `Upstream.UpstreamClient.OpenSocket` | apps/guardian/src/upstream.ts:92-112 | one socket and its connect timer |
| `Upstream.UpstreamClient.Connected` | apps/guardian/src/upstream.ts:113-121 | connected, backoff and byte flag reset, idle clock started, connect timer off, `onConnected` called |
| `Upstream.UpstreamClient.Data` | apps/guardian/src/upstream.ts:122-128 | idle clock restarted, silent count zero |
| `Upstream.UpstreamClient.CheckIdle` | apps/guardian/src/upstream.ts:138-158 | a stall is counted as silent or not and the socket destroyed; otherwise nothing changes |
| `Upstream.UpstreamClient.Closed` | apps/guardian/src/upstream.ts:167-180 | disconnected and notified if it was connected, then rescheduled unless closing |
| `Upstream.UpstreamClient.Reschedule` | apps/guardian/src/upstream.ts:182-211 | 30 s after three silent stalls, at once after a stall, else backoff with jitter |
| `Upstream.UpstreamClient.ReconnectTimer` | apps/guardian/src/upstream.ts:188-210 | the timer clears and dials unless closing |
| `Upstream.UpstreamClient.ConnectTimer` | apps/guardian/src/upstream.ts:102-111 | an unconnected socket is destroyed |
| `Upstream.UpstreamClient.Write` | apps/guardian/src/upstream.ts:219-234 | written only while connected, else counted as dropped |
| `Upstream.UpstreamClient.Shut` | apps/guardian/src/upstream.ts:236-253 | nothing is left armed or open |
| `Upstream.MachineKept` | apps/guardian/src/upstream.ts:83-211 | every event keeps: exactly one of socket and reconnect timer while running, connected implies socket, a connect timer exactly while a dial is under way, nothing armed after close |
| `Upstream.QuietKept` | apps/guardian/src/upstream.ts:138-158 | every event keeps the idle clock within the timeout plus one check |
| `Upstream.PaceKept` | apps/guardian/src/upstream.ts:122-158 | every event keeps: `silentCycles` is the number of byte-less stalls since the last byte, and dials at once are exactly accounted for by stalls |
| `Upstream.SpacingKept` | apps/guardian/src/upstream.ts:182-194 | every event keeps: after three silent stalls dials are 30 s apart |
| `Upstream.EveryRunSafe` | apps/guardian/src/upstream.ts:83-253 | all of these in every run |
| `Upstream.DialsInSilence` | apps/guardian/src/upstream.ts:182-211 | in every run, since the last byte: `silentCycles` is exact; the dials without delay are exactly accounted for, and are at most two if and only if the connection that carried that byte did not stall, or fewer than two silent stalls followed, or the last of these dials is still to come; from the third silent stall dials are 30 s apart |
| `Upstream.ThreeDialsAtOnceHappen` | apps/guardian/src/upstream.ts:138-211 | for every setting there is a run, with every timer on time, with three undelayed dials after the last byte |
| `Upstream.CheckOnTime` | apps/guardian/src/upstream.ts:138-141 | an idle check before the timeout moves its own timer on and nothing else |
| `Upstream.NotificationsAlternate` | apps/guardian/src/upstream.ts:113-180 | in every run `onConnected` and `onDisconnected` alternate, and the link is connected exactly when the later one was `onConnected` |
| `Upstream.QuietLinkTornDown` | apps/guardian/src/upstream.ts:138-158 | a connection not yet torn down was heard from within idle timeout + 1000 ms + timer lag |
| `Upstream.ShutIsFinal` | apps/guardian/src/upstream.ts:236-253 | after `close` only another `close` is possible and it changes nothing; no dial ever occurs |
| `Upstream.GuardsAreDead` | apps/guardian/src/upstream.ts:102-111 | a connect timer that fires always finds its socket unconnected; a close never finds a reconnect timer armed |
| `Upstream.DelayBounded` | apps/guardian/src/upstream.ts:203-205 | the backoff is at least 500 ms and under 6 s |
| `UpstreamPace.DelaySteps` | apps/guardian/src/upstream.ts:203-205 | the k-th backoff is 500, 1000, 2000, 3000, then 5000 ms, plus less than a fifth |
| `UpstreamPace.DelayReaches` | apps/guardian/src/upstream.ts:203-205 | both ends of every step are reached |
| `UpstreamPace.BackoffSteps` | apps/guardian/src/upstream.ts:182-211 | in every run `reconnectAttempt` is the number of backoff waits since the link was last connected, each wait is the step that number calls for, or 30 s on a silent link, and every dial not made at once waits for it |
| `UpstreamPace.PlainDisconnect` | apps/guardian/src/upstream.ts:167-211 | in every run a connected link that closes without a stall is redialled after 500 to 600 ms |
| `UpstreamPace.StallIff` | apps/guardian/src/upstream.ts:138-158 | in every run an idle check tears an open connection down if and only if its last byte, or its beginning, lies the idle timeout back |
| `UpstreamPace.DialTimesOut` | apps/guardian/src/upstream.ts:102-111 | in every run a dial is given up the connect timeout after it was made, not before |
| `Upstream.NeverStuck` | apps/guardian/src/upstream.ts:92-211 | in every run the supervisor, while running, is connected, or has a destroyed socket about to close, or a dial that ends within the connect timeout, or its next dial due within 6 s, 30 s on a silent link |
| `Bridge.BridgeConnection.Start` | apps/api/src/bridge/connection.ts:121-128 | as UpstreamClient's start |
| `Bridge.BridgeConnection.Connected` | apps/api/src/bridge/connection.ts:155-166 | as UpstreamClient's, the read buffer is emptied, and the connected callbacks run |
| `Bridge.BridgeConnection.Data` | apps/api/src/bridge/connection.ts:208-226 | the frames delivered and the buffer kept are those of a checked read of buffer plus chunk; the link fields move as UpstreamClient's |
| `Bridge.BridgeConnection.CheckIdle` | apps/api/src/bridge/connection.ts:178-199 | the supervisor's idle check, buffer untouched |
| `Bridge.BridgeConnection.Closed` | apps/api/src/bridge/connection.ts:228-241 | the supervisor's close, buffer untouched |
| `Bridge.BridgeConnection.Reschedule` | apps/api/src/bridge/connection.ts:243-272 | the supervisor's reconnect decision |
| `Bridge.BridgeConnection.ReconnectTimer` | apps/api/src/bridge/connection.ts:268-271 | the supervisor's redial |
| `Bridge.BridgeConnection.ConnectTimer` | apps/api/src/bridge/connection.ts:144-153 | the supervisor's connect timeout |
| `Bridge.BridgeConnection.Shut` | apps/api/src/bridge/connection.ts:305-322 | the supervisor's close() |
| `Bridge.BridgeConnection.Write` | apps/api/src/bridge/connection.ts:280-292 | rejected at once while not connected, else pending with its own timer |
| `Bridge.PendingWrite.TimedOut` | apps/api/src/bridge/connection.ts:289-293 | an unsettled write is rejected; a settled one is left alone |
| `Bridge.PendingWrite.Flushed` | apps/api/src/bridge/connection.ts:295-301 | an unsettled write resolves or rejects and its timer stops; a settled one is left alone |
| `Bridge.EveryReadingSound` | apps/api/src/bridge/connection.ts:208-226 | in every run the link follows the supervisor's machine, and the frames delivered since the last connect are those of a checked scan of exactly that connection's bytes, with at most 262 carried over |
| `Bridge.FirstCallbackDecides` | apps/api/src/bridge/connection.ts:280-303 | whatever callbacks come in whatever order, the first settles the write, and it settles at most once |
| `CommandQueue.CommandQueue.Send` | apps/api/src/core/commandQueue.ts:49-61 | room made by discarding the oldest, job appended, loop started if it was idle; the promise's number is returned |
| `CommandQueue.CommandQueue.DrainLoop` | apps/api/src/core/commandQueue.ts:63-88 | the loop up to its next await discards stale jobs and writes the first fresh one, or stops |
| `CommandQueue.CommandQueue.WriteDone` | apps/api/src/core/commandQueue.ts:76-83 | the job in flight settles and the loop sleeps |
| `CommandQueue.CommandQueue.GapOver` | apps/api/src/core/commandQueue.ts:67-83 | after the sleep the loop continues |
| `CommandQueue.PumpKeeps` | apps/api/src/core/commandQueue.ts:63-88 | the loop keeps all of: each send in exactly one place, order, freshness, serial writes, depth, drop count |
| `CommandQueue.SendKeeps` | apps/api/src/core/commandQueue.ts:49-61 | so does a send, overflow included |
| `CommandQueue.WriteDoneKeeps` | apps/api/src/core/commandQueue.ts:76-82 | so does the end of a write |
| `CommandQueue.EveryRunInv` | apps/api/src/core/commandQueue.ts:49-88 | in every run of sends, write results and sleeps: each send is settled, in flight or waiting, exactly one; writes are in order of submission and never over 2000 ms old; one write at a time; depth at most 64; a waiting job means the loop runs |
| `CommandQueue.Conservation` | apps/api/src/core/commandQueue.ts:49-88 | submitted = resolved + failed + dropped + waiting + in flight; no promise settles twice; overflow discards the oldest |
| `CommandQueue.HistoryGrows` | apps/api/src/core/commandQueue.ts:49-88 | no step undoes a settlement or a write begun |
| `CommandQueue.PumpMeans` | apps/api/src/core/commandQueue.ts:67-88 | said with an index: the loop discards exactly the jobs over 2000 ms old in front, writes the first that is not, keeps the rest, and ends idle and empty if there is none |
| `CommandQueue.SendMeans` | apps/api/src/core/commandQueue.ts:49-61 | a job sent goes straight to the bridge if the loop was idle, else behind all that wait, but for the oldest of a full queue |
| `CommandQueue.WriteDoneReports` | apps/api/src/core/commandQueue.ts:76-82 | a promise resolves when its write does and rejects when its write rejects |
| `CommandQueue.DiscardedForCause` | apps/api/src/core/commandQueue.ts:49-75 | in every reachable state a discarded job was the oldest of 64 when another was sent, or over 2000 ms old when the loop took it; nothing else is ever discarded |
| `CommandQueue.OutcomeStays` | apps/api/src/core/commandQueue.ts:49-88 | a settled promise keeps its outcome |
| `CommandQueue.ResolvedHanded` | apps/api/src/core/commandQueue.ts:76-78 | a send resolves only if the bridge was given its frame |
| `QueueWrites.NeverWedged` | apps/api/src/bridge/connection.ts:280-303 | in every run of queue and bridge writes, with sockets that may never acknowledge: a write is in flight for at most the write timeout plus timer lag and can always be ended, so it cannot hold up the queue for good |
| `QueueWrites.BusSettles` | apps/api/src/core/commandQueue.ts:76-83 | in every run writes never overlap and each begins 30 ms or more after the one before ended |
| `ControlState.ControlState.Apply` | apps/api/src/core/controlState.ts:53-108 | each change sets exactly its fields and notifies exactly when the source does |
| `ControlState.ControlState.TickOverride` | apps/api/src/core/controlState.ts:111-124 | an expired manual override, and nothing else, falls back to the schedule |
| `ControlState.ControlState.TargetRpm` | apps/api/src/core/controlState.ts:47-51 | the speed of the mode, zero when off |
| `ControlState.ChangesAreHeard` | apps/api/src/core/controlState.ts:53-124 | whenever the speed to drive, the decision to release or the bus state changes, the change callbacks run |
| `ControlState.OverridesEnd` | apps/api/src/core/controlState.ts:53-124 | every change keeps override deadlines to manual mode, and after a tick none is past |
| `Engine.PlanFrames` | apps/api/src/core/engine.ts:61-89 | one to three frames; remote control only first, run or stop only second, speed only third |
| `Engine.Engine.Launch` | apps/api/src/core/engine.ts:65-80 | a new activation makes its first send |
| `Engine.Engine.Apply` | apps/api/src/core/engine.ts:53-80 | apply() up to its first await, including its own re-entry when an override expires |
| `Engine.Engine.Control` | apps/api/src/core/controlState.ts:53-108 | a change of intent runs apply() when it notifies |
| `Engine.Engine.Resume` | apps/api/src/core/engine.ts:64-96 | after the awaited send: next frame, end, or abandonment on failure; a release ends as released even when its send failed |
| `EngineIntent.StepFollows` | apps/api/src/core/engine.ts:53-97 | every event leaves exactly the control state its setter and the override clock call for, and begins exactly the activations apply() owes: none without the bus or for a release already remembered, two when an override ran out |
| `EngineIntent.PlansFollowIntent` | apps/api/src/core/engine.ts:53-80 | in every run an activation's plan is what the fields of the control state ask for: a release in mode off or in schedule mode without an active schedule, the manual speed in manual mode, the scheduled speed in schedule mode |
| `EngineIntent.TickReasserts` | apps/api/src/core/engine.ts:53-80 | in every run each keep-alive tick with the bus up re-asserts the intent, unless it is a release already remembered |
| `EngineIntent.ChangesActivate` | apps/api/src/core/controlState.ts:53-108 | in every run a change that alters the plan asked for, or brings the bus up, begins an activation with the new plan |
| `EngineIntent.NewestIsCurrent` | apps/api/src/core/engine.ts:53-97 | in every run, with the bus up and a speed to drive, the newest activation is for the speed the control state asks for |
| `EngineOrder.NoneAhead` | apps/api/src/core/commandQueue.ts:76-83 | when an activation continues, no later activation is already past its stage |
| `EngineOrder.StepKeeps` | apps/api/src/core/engine.ts:53-97 | every event keeps the table of sends ordered by activation at every stage |
| `EngineOrder.EveryRunInv` | apps/api/src/core/engine.ts:53-97 | that order, and the labelling of every job by the activation and stage that sent it, in every run |
| `EngineOrder.OlderNeverOverwritesNewer` | apps/api/src/core/engine.ts:53-97 | in every run, with any interleaving, overflow, stale drop and write failure, frames of each kind are handed to the bridge in activation order and each is the frame its activation planned |
| `EngineOff.EveryFaultFreeRun` | apps/api/src/core/engine.ts:61-74 | if every send resolves, an ended activation was handed over and "released" is remembered only while the newest activation releases or still runs |
| `EngineOff.StaysReleasing` | apps/api/src/core/engine.ts:61-74 | while control is to be handed back, the newest activation stays a release |
| `EngineOff.NewestSpeaksLast` | apps/api/src/core/engine.ts:53-97 | once the newest activation's first frame is handed over, it is the last remote control frame |
| `EngineWritten.EveryRunSettling` | apps/api/src/core/engine.ts:53-97 | in every run a send that was followed by another, or by the end of its activation, has settled |
| `EngineWritten.OnlyReleasesSpeak` | apps/api/src/core/engine.ts:61-74 | whatever fails, before or after, and whichever frames reach the bus: from a state with nothing in flight, while control is to be handed back, the last remote control frame on the bus is the one of before, or a release exactly when a release begun since then reaches it |
| `EngineWritten.OffConvergesIff` | apps/api/src/core/engine.ts:61-93 | in any run, with nothing in flight at s and t, the bus up and an apply() at s, control to be handed back from s to t, any faults before s, polls failing at any time, the releases begun after s going through, and any rejected write reaching the bus or not: the last remote control frame that reached the bus by t is a release if and only if "released" was not remembered at s or it already was one |
| `EngineWritten.OffConvergesAcknowledged` | apps/api/src/core/engine.ts:61-93 | the same of the last remote control frame whose write was acknowledged |
| `EngineWritten.OffConverges` | apps/api/src/core/engine.ts:61-93 | if every send resolves from the start, the last remote control frame is a release, whether one goes by hand-over, acknowledgement, or any arrival on the bus that covers the acknowledged writes |
| `EngineWritten.ReleasedStaysSilent` | apps/api/src/core/engine.ts:61-74 | in any run, once "released" is remembered with nothing in flight and as long as control stays handed back, only status polls reach the bridge, so the last word on the bus stays, whichever frames reach it |
| `EngineFaults.AbortedDriveNeverReleased` | apps/api/src/core/engine.ts:61-96 | a concrete run, for any positive speed, in which it fails for good: a drive is abandoned after its enable frame was acknowledged, then the mode goes off, and apply() changes nothing at any later time |
| `EngineFaults.RejectedEnableStaysOn` | apps/api/src/bridge/connection.ts:280-303 | a concrete run in which acknowledgements mislead: the write of an enable frame is rejected, the mode goes off, the last acknowledged word is a release; if the enable reaches the bus after all it is the last word there, and apply() changes nothing at any later time |
| `EngineFaults.FailedReleaseNeverWritten` | apps/api/src/core/engine.ts:63-69 | a concrete run in which the write of the first release is rejected: no release was acknowledged, none reaches the bus unless that one does, "released" is remembered, and apply() changes nothing at any later time |
| `EngineFaults.FailedReleaseNotRetried` | apps/api/src/core/engine.ts:61-74 | in any run, after a release activation ended, however its send fared, with nothing else in flight: as long as control stays handed back no engine frame reaches the bridge, so the last word on the bus stays what it was, whichever frames reach it |
| `EngineReports.AppliedMeansWritten` | apps/api/src/core/engine.ts:76-97 | in every run, an activation that ran to its end sent all its frames and every one was written; a mode is remembered as applied only if a drive in that mode was |
| `EngineEnds.NothingCutShort` | apps/api/src/core/engine.ts:76-97 | in every run an activation that ended short of its plan did so because its last send failed or was discarded; one whose sends were all written went through the whole plan |
| `EndToEnd.NewestBurstIsTheIntent` | apps/api/src/core/engine.ts:80-86 | if the newest activation's three frames arrive, the guardian's intent is that activation's, whatever else arrived or was lost |
| `EndToEnd.NewestStopIsTheIntent` | apps/api/src/core/engine.ts:61-89 | if the newest activation releases or stops and its frames arrive, the guardian has nothing to hold |
| `EndToEnd.NewestDecisionIsHeld` | apps/guardian/src/guardian.ts:100-170 | from control intent to held bytes: in any engine run, with any interleaving, losses, chunks and cut, if the newest activation's frames arrived complete, the guardian's first writes are that activation's burst, byte for byte, when its clamped speed is positive, and nothing when it releases or stops |
| `EndToEnd.IntentIsHeld` | apps/guardian/src/guardian.ts:100-170 | from the fields of the control state to held bytes: in any engine run, with the bus up and a speed to drive by hand or by schedule, once the newest activation's frames arrived the guardian's first writes are exactly the burst for that speed, or none if it clamps to zero |
| `Segments.ClockRoundTrip` | apps/web/src/lib/schedule.ts:3-11 | printing a minute and reading it back wraps it around the day; a valid HH:MM is reprinted unchanged |
| `Segments.ClockExamples` | apps/web/src/lib/schedule.ts:3-11 | known times of day and their minutes, both ways, with wrap and rounding |
| `Segments.BestMeans` | apps/api/src/core/scheduler.ts:42-47 | the active segment has started, and no started one is later, or equally late and listed after it; none exactly when none has started |
| `Segments.ResolveMeans` | apps/api/src/core/scheduler.ts:42-47 | the speed is the active segment's, before the first start that of the latest segment of the day, zero only without segments |
| `Segments.SortIsStable` | apps/web/src/lib/schedule.ts:39-41 | sorted by start, a permutation, equal starts in their order |
| `Segments.BestOfSorted` | apps/web/src/lib/schedule.ts:39-41 | sorting does not change which segment is active |
| `Timeline.TimelineBlocks` | apps/web/src/lib/schedule.ts:56-70 | the blocks built by the loop |
| `Timeline.BlocksTileDay` | apps/web/src/lib/schedule.ts:56-70 | the blocks of a non-empty list tile 0..1440 in order without gaps |
| `Timeline.WidthsSumTo100` | apps/web/src/lib/schedule.ts:69-69 | their widths add up to 100 percent |
| `Timeline.RpmAt` | apps/web/src/lib/schedule.ts:73-77 | the loop finds the first block holding the minute, else the first block |
| `Timeline.LookupResolves` | apps/web/src/lib/schedule.ts:73-77 | for every segment list and minute of the day the looked-up speed is that of the active segment, the day's last before the first start |
| `Timeline.OutsideTheDay` | apps/web/src/lib/schedule.ts:73-77 | for a minute outside the day the first block's speed is shown |
| `Timeline.RuntimeCountsMinutes` | apps/web/src/lib/schedule.ts:80-84 | sixty times the hours is the number of minutes of the day with a positive speed |
| `Scheduler.HeadInCharge` | apps/api/src/core/scheduler.ts:36-40 | the head of the filtered, sorted candidates is the first listed of the highest priority; none exactly when none applies |
| `Scheduler.ActiveRpm` | apps/api/src/core/scheduler.ts:32-48 | the speed of the schedule in charge at that minute, zero when none applies |
| `Scheduler.ActiveSpeedResolves` | apps/api/src/core/scheduler.ts:36-47 | what the api returns is the speed of the active segment of the schedule in charge |
| `Scheduler.SchedulersAgree` | apps/api/src/core/scheduler.ts:36-47 | for every list of schedules, day and minute of the day, what the api returns is what the web app looks up for the schedule in charge, segments unsorted and with equal starts included, and zero if none is in charge |
| `Scheduler.Scheduler.SetSchedules` | apps/api/src/core/scheduler.ts:61-64 | the new list is kept and a tick follows |
| `Scheduler.Scheduler.Tick` | apps/api/src/core/scheduler.ts:92-95 | the control state gets whether any schedule is enabled and the speed of the one in charge |
| `Scheduler.TickIsIdempotentAndHeard` | apps/api/src/core/scheduler.ts:92-95 | a repeated tick is silent and changes nothing; manual intent is untouched; a changed target or release decision always runs the change callbacks |

## Left out

- Upstream: the socket is a flag and not an object, so a handler of an earlier socket cannot be told from one of the current; with the assumptions above and one `start()` there is only one at a time.
- `start()` called again while running would orphan a connect timer; runs have one `start()`.
- Shutdown of the guardian (`dispose`, process exit) and the engine's shutdown release.
- `setKeepAliveMs` and the engine's timer itself: apply() may run at any time.
- What becomes of bytes after the guardian passes them to its socket.
- Pump-to-app relaying in the server, and the api's status decoding, telemetry, poller and watchdog; status polls enter only as frames submitted to the queue.
- The api's other change listeners, its event log and the persistence of the intent.
- Log throttling and log lines; `lastTxAt`, `lastUpdate` and `lastError`.
- Reloading schedules from the database, and the conversion of an instant to weekday and minute in a time zone: both are inputs.
- Floating point: speeds, percentages and hours are reals; NaN and infinity are not speeds here.
- Texts that are not HH:MM: the schemas reject them before they reach the schedule code.
- The sort of JavaScript is modelled by a stable insertion sort, not by its algorithm.
- Labels, colours and 12-hour texts in the web app's schedule file.
- What the pump does with the bytes, and timing across both idle timers.
- REST, sockets to the browser, login, database access and all user interface.
