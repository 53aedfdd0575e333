# Chassis host: a verified model of the protocol stack

The repository is a host program for a three-wheel chassis: a TCP text front end, a serial link to
an STM32 board, a connection protocol with keep-alive, remote firmware flashing, and an asynchronous
logger. This project models the parts on which safety and delivery rest, and proves what they promise.

| file | models | main results |
|---|---|---|
| `Crc.dfy` | the CRC16-MODBUS loop (MODBUS over Serial Line V1.02, section 6.2.2) | byte loop = bit-serial register; linearity; residue law; every burst of at most 16 bits is seen, every odd number of wrong bits, and any two in a frame |
| `FrameCodec.dfy`, `Parser.dfy`, `Line.dfy` | `packFrame` and the resynchronising stream parser | chunk independence, conservation, round trip, prefix delivery, resynchronisation bound, corruption containment |
| `ConCodec.dfy`, `ConSm.dfy`, `ConRuns.dfy`, `ConProgress.dfy` | the CON payload and the client state machine | the deferred-action object refines a transition table; callback language; send and time bounds, upper and lower |
| `HostBoard.dfy` | the client against the board's CON server and its 3 s watchdog | neither side gives a working link up; both give up a cut one, in bounded time |
| `SerialPort.dfy` | the output buffer and the frame counter above it | first-in first-out under any write results; end-to-end delivery |
| `ChassisHost.dfy`, `HostRuns.dfy`, `HostDuties.dfy`, `HostLink.dfy` | command gating, repeat timer, dead man, sticky disable, OTA job | every velocity frame is justified, disable is sticky, brakes and enables go out exactly when they should, the OTA job keeps its order and times, the link inside is a run of the CON client |
| `OtaFlasher.dfy`, `OtaRuns.dfy` | the flashing child process and its output | exactly one exit callback per start, within 201 turns of the loop and with the status waited for; lines independent of read boundaries |
| `EndToEnd.dfy` | the host's frames through the port to the board's parser | the board reads exactly what was handed over; every velocity command it holds was in force, none enables it after a disable |
| `AsyncLogging.dfy` | the double-buffered logger as interleaved lock sections | order of lines, ownership of the four buffers, when the spares come back |
| `MockBoard.dfy` | the simulator's kinematics and motor loop over the reals | the two conversions are inverse; integral and speed stay bounded |

`dafny verify dfyconfig.toml` checks everything.

## How to read it

Objects that the source updates in place are classes (`FrameParser`, `Client`, `SerialPort`, `Uplink`,
`Controller`, `Flasher`, `Logger`, `ConServer`, `MotorSim`). Each method's contract ties its new state
and its outputs to a function of the old state; the theorems about whole runs are lemmas about those
functions, over every sequence of events and every answer of the outside world. Clock readings, the
results of `write`, `read`, `waitpid`, `pipe` and `posix_spawn`, and whether a frame could be sent, are
parameters of the event in which they are needed, so they range over everything.

* The parser's reference is `FrameCodec.Parse`, which takes one item at a time off the front of the
  stream; the object scans ahead for a header, drops, cuts and checks in one loop.
* The link's reference is `ConSm.Step` on a state that has no redundant fields: a deadline or a counter
  exists only where it means something. `Client.Valid` is therefore the exact relation between the
  fields: READY exactly in CONNECTED and DISCONNECTING exactly when the ping deadline is armed, the
  response deadline armed exactly in CONNECTING and DISCONNECTING with the matching request, at most
  five retransmissions counted and none elsewhere, at most three unanswered pings.
* In `ChassisHost`, `sent` and the frames of `Handle` are the frames handed to `sendFrameToBoard`, which
  drops them while the port is shut; "hands over" below means no more than that. `EndToEnd.Station` puts
  the port and the frame counter behind `Handle`, so that `EndToEnd.BoardIsJustified` speaks of what the
  board's parser holds. The link's effects are carried out in their order after the link's call returns:
  its send function and its callback never look at the link.
* The reference of the flashing child is `OtaRuns.Step` on a state whose phase says what the event loop
  still owes: nothing, the pipe's end, one detach step, or one reap timer. `Flasher.Valid` ties the
  fields, the pending steps and the trace of all callbacks to it.

Where the code and its comments or documents differ, the code is followed:

* The communication callback is documented as fired on edges only (link/ConSm.h:43). READY is repeated
  when an ENABLE_REQUEST arrives while connected: `ConRuns.RepeatedReady` says exactly when.
* `connect()` in DISCONNECTING returns 0 and does nothing.
* Six transmissions before giving up hold for a connection attempt (`ConProgress.ConnectPatience`), but
  not for a disconnect: pings go on in DISCONNECTING, so the link can be dropped because these run out
  first. `ConProgress.DisconnectPatience` says what is true, `DisconnectExample` shows a run with two
  transmissions, and `DisconnectEndsByPings` that with ticks up to 100 ms apart an unanswered disconnect
  always ends that way.
* A pseudo header takes two bytes off the stream and adds one to `drop`: `FrameCodec.ByteAccounts`.
* `en 0` forgets the speed command but not its source, so losing that connection later still brakes:
  `HostRuns.DeadManStops`.
* `packFrame` does not refuse payloads over 32 bytes; the frame it makes of one is never parsed back to
  it: `Line.RoundTrip`.
* The comment at log/AsyncLogging.cc:93 says a storm keeps the newest two buffers; the code keeps the
  first two collected. A round that collects 3 to 25 buffers leaves the first spare missing, against the
  assertion at line 74: `AsyncLogging.WriteKeepsOrder` gives the exact condition, and
  `AsyncLogging.ThreeBuffersLoseASpare` three lines that get there.
* The event loop, which is not part of this model, may call the callbacks of the child's pipe in any
  order. If its error callback is followed by its read callback before the detach step runs, which takes
  one dispatch that reports both an error and data (the first callback stops further polling), what is
  read then and does not end in a line break is lost: `OtaRuns.LateTailIsLost` gives the exact condition
  on the bytes, `OtaRuns.LateTailExample` the events. Without such a read nothing is lost:
  `OtaRuns.EndedChildTold`.

## Model

| member | source | states |
|---|---|---|
| Crc.Crc16Modbus | proto/FrameCodec.cc:34-47 | the two nested in-place loops compute the register over all bytes from 0xFFFF |
| Crc.CrcIsSerial | proto/FrameCodec.cc:34-47 | the byte-wise loop is the bit-serial shift register fed with the bits in line order, least significant first |
| Crc.CrcLinear | proto/FrameCodec.cc:34-47 | the register is linear over xor in start value and message together |
| Crc.Residue | proto/FrameCodec.cc:165-166 | two appended bytes bring the register to zero exactly when they are the checksum, low byte first |
| Crc.BurstDetected | proto/FrameCodec.cc:34-47 | an error pattern confined to 16 consecutive bits on the line is never a codeword |
| Crc.ScatterDetected | proto/FrameCodec.cc:34-47 | any odd number of wrong bits anywhere in a message of any length, and any two in one of at most 39 bytes, the longest frame, are never a codeword |
| FrameCodec.PackFrame | proto/FrameCodec.cc:97-111 | the pushed bytes are the frame image, and the sender's counter advances by one modulo 256 |
| FrameCodec.PackLayout | docs/protocol-serial.md:9-17 | for payloads up to 255 bytes the image is AA 55, type, length, sequence number, payload, checksum of all but the header, low byte first |
| FrameCodec.SumOkIffPacked | proto/FrameCodec.cc:158-172 | a cut-out frame passes the checksum exactly when it is the image packFrame makes of the fields read from it |
| FrameCodec.ParseConserves | proto/FrameCodec.cc:115-176 | dropped bytes, pseudo headers, bad frames, images of good frames and the residual are, in order, the whole input |
| FrameCodec.ByteAccounts | proto/FrameCodec.cc:138-151 | bytes fed = residual + bytes of frames + drop + number of pseudo headers |
| Parser.FrameParser.FindHeader | proto/FrameCodec.cc:121-127 | the scan stops at the first AA 55, or at the end if there is none |
| Parser.FrameParser.Drain | proto/FrameCodec.cc:119-175 | one pass of the loop leaves the residual and reports the frames and counters of the reference parser, and ends |
| Parser.FrameParser.Feed | proto/FrameCodec.cc:115-176 | state, counters and frames emitted are functions of all bytes ever fed |
| Parser.ParseAppend | proto/FrameCodec.cc:115-176 | parsing a, then the residual with b, is parsing a + b: same items in order, same residual |
| Parser.ChunkIndependence | proto/FrameCodec.cc:115-176 | any cut of the stream into calls gives the same frames, counters and residual as one call |
| Parser.WaitingStays | proto/FrameCodec.cc:128-156 | the residuals are exactly the inputs that parse to themselves, each at most 38 bytes |
| Line.RoundTrip | proto/FrameCodec.cc:97-176 | a packed frame alone is parsed back to itself exactly when its payload has at most 32 bytes |
| Line.PrefixDelivery | proto/FrameCodec.cc:115-176 | of any prefix of a frame stream a fresh parser holds exactly the complete frames, whatever the payloads contain, and waits for the next |
| Line.Resync | proto/FrameCodec.cc:120-156 | whatever was fed before, 38 bytes without AA empty the buffer |
| Line.FramesAfterResync | proto/FrameCodec.cc:120-176 | every frame sent after such bytes is recovered |
| Line.ResyncIsTight | proto/FrameCodec.cc:128-156 | after a lone AA there are 37 such bytes that leave a frame open |
| Line.AcceptedIffCodeword | proto/FrameCodec.cc:164-174 | a damaged frame passes the check exactly when the damage itself has checksum residue zero |
| Line.Containment | proto/FrameCodec.cc:164-174 | with any frames of a stream hit, off header and length byte, by a burst of at most 16 bits, by two wrong bits anywhere or by any odd number of them, exactly the others are delivered in order, crcErr counts the hit ones, nothing is dropped |
| Line.TwoBytesAreABurst | proto/FrameCodec.cc:34-47 | any damage within two adjacent bytes is such a burst |
| ConCodec.ConRoundTrip | proto/FrameCodec.cc:280-292 | a payload is accepted as a CON message exactly when it is the image of that message |
| ConCodec.ConLayout | docs/protocol-serial.md:55-57 | the four payload bytes of each message in numbers |
| ConCodec.EachHearsTheOther | app/ChassisHost.cc:722-731 | host and board each hear exactly the other's messages, even on a line that echoes |
| ConSm.StepSound | link/ConSm.cc:79-115 | deadlines stay armed and the counters stay within 5 and 3 |
| ConSm.Client.Sm | link/ConSm.cc:119-209 | new state and requested side effects of each event, rows without a transition leave all as it was |
| ConSm.Client.ToConnected | link/ConSm.cc:213-220 | READY, no retransmissions counted, keep-alive to be armed |
| ConSm.Client.ToDisconnected | link/ConSm.cc:222-232 | NOT_READY, counters cleared, a callback only if READY was reported |
| ConSm.Client.SchedulePingStd | link/ConSm.cc:240-247 | the keep-alive restarts if the link is ready and is off otherwise |
| ConSm.Client.Flush | link/ConSm.cc:258-282 | cancels, send, arming and callback in that order; which event must follow a send and its outcome |
| ConSm.Client.Transit | link/ConSm.cc:249-256 | a transition with its side effects has done the whole event, or leaves an accept or a reject to follow that completes it |
| ConSm.Client.Process | link/ConSm.cc:249-256 | with its follow-ups, an event is one step of the settled link; the recursion ends |
| ConSm.Client.Connect | link/ConSm.cc:23-28 | refines the table; -1 exactly while connecting |
| ConSm.Client.Disconnect | link/ConSm.cc:30-38 | refines the table; -1 exactly while a handshake is under way |
| ConSm.Client.Reset | link/ConSm.cc:40-50 | down without a frame, one callback if READY was reported |
| ConSm.Client.OnFrame | link/ConSm.cc:52-75 | each received message refines the table |
| ConSm.Client.RspTimer | link/ConSm.cc:80-95 | an overdue answer is retransmitted up to five times, then or on a failed send the link is down |
| ConSm.Client.PingTimer | link/ConSm.cc:97-114 | an overdue ping is repeated up to twice more, then or on a failed send the link is down |
| ConSm.Client.OnTimer | link/ConSm.cc:79-115 | the two halves in order refine one tick of the table |
| ConRuns.StepReports | link/ConSm.cc:161-196 | the callbacks of one call continue the trace from the state before to the state after |
| ConRuns.RepeatedReady | link/ConSm.cc:162-172 | while ready, READY is reported exactly for an ENABLE_REQUEST received when connected |
| ConRuns.ReadyOncePerCall | link/ConSm.cc:258-282 | after READY one call can only report NOT_READY |
| ConRuns.CallbackTrace | link/ConSm.cc:258-282 | over any run the callbacks form (READY+ NOT_READY)* READY*, and the last is the current state |
| ConRuns.ShakeEntry | link/ConSm.cc:23-38 | CONNECTING and DISCONNECTING are entered only by connect and disconnect, with one transmission |
| ConRuns.ShakeSends | link/ConSm.cc:81-95 | during a visit retransmissions and counter agree, at most five |
| ConRuns.HandshakeBound | link/ConSm.cc:81-95 | a visit sends its request 1 + counter, at most 6 times, and ends within 6 (400 + delta) ms whatever arrives |
| ConRuns.DeadPeerBound | link/ConSm.cc:98-114 | without refresh after t the link is down by t + 1900 + 4 delta; pings sent = pings counted unanswered |
| ConProgress.ReadyChanges | link/ConSm.cc:119-232 | exactly the events that make a link ready, and exactly those that end it, with the failing timer cases in numbers |
| ConProgress.HandshakeEnds | link/ConSm.cc:119-209 | exactly the events that end a handshake, and whether the link is then up or down |
| ConProgress.SendsExactly | link/ConSm.cc:79-209 | exactly when each kind of frame is attempted, and then once |
| ConProgress.FirstDeadlines | docs/protocol-serial.md:48-53 | 400 ms for an answer, 1000 ms to the first ping, counted anew from each answer to a ping |
| ConProgress.ConnectPatience | link/ConSm.cc:80-95 | if only the timer runs and every send succeeds, a connection attempt that fails has sent ENABLE_REQUEST exactly six times and lasted 2400 ms at least |
| ConProgress.PingPatience | link/ConSm.cc:97-114 | a peer silent since t is given up after exactly three pings, not before t + 1900 |
| ConProgress.DisconnectPatience | link/ConSm.cc:79-115 | a disconnect that fails so has sent DISABLE_REQUEST six times over 2400 ms at least exactly if its last tick found the request exhausted, and otherwise three pings over 900 ms at least from the ping deadline |
| ConProgress.DisconnectEndsByPings | link/ConSm.cc:79-115 | with ticks up to 100 ms apart it is always the latter, by the ping deadline + 900 + 4 delta |
| ConProgress.DisconnectExample | link/ConSm.cc:79-115 | a run in which a disconnect is over after two transmissions and 900 ms |
| HostBoard.ConServer.Handle | tools/mock_board.cc:290-306 | the board's answer and its readiness and activity time for each CON message |
| HostBoard.ConServer.Watchdog | tools/mock_board.cc:144-148 | readiness is lost after more than 3000 ms without a CON frame from the host |
| HostBoard.HealthyStep | link/ConSm.cc:240-247 | the joint invariant of both sides and the wire is kept by every allowed action |
| HostBoard.NeitherSideGivesUp | tools/mock_board.cc:144-148 | with answers within d < 300, at most two unanswered pings in a row and 1600 + 3 delta + 2 d within 3000, the host stays CONNECTED, the board's view is never older than that sum, its watchdog never trips |
| HostBoard.RepositoryFigures | link/ConSm.h:33-38 | with ticks within 100 ms and answers in less than 300 ms, over every allowed run, the host stays CONNECTED and the board's view is always at least half a second short of its watchdog |
| HostBoard.BoardReadyIff | tools/mock_board.cc:145-148 | over any messages and pumps the board is ready exactly if it has heard an ENABLE or PING_REQUEST and since the last of these neither a DISABLE_REQUEST nor been pumped more than 3000 ms after it |
| HostBoard.BoardGivesUp | tools/mock_board.cc:145-148 | pumped at least every p, a board that last heard the host at t > 0 is not ready after t + 3000 + p; no pump up to t + 3000 takes readiness away |
| HostBoard.BothGiveUp | link/ConSm.cc:97-114 | a line cut at t is given up by the host by t + 1900 + 4 delta and by the board by t + 3000 + p |
| HostBoard.Greeting | tools/mock_board.cc:290-306 | connect, answered by the board, ends with both sides ready |
| HostBoard.Farewell | tools/mock_board.cc:290-306 | disconnect, answered by the board, ends with neither ready |
| SerialPort.SerialPort.OpenDevice | serial/SerialPort.cc:80-100 | opening starts with an empty buffer, reopening is a no-op |
| SerialPort.SerialPort.CloseInLoop | serial/SerialPort.cc:121-132 | the port is shut |
| SerialPort.SerialPort.Send | serial/SerialPort.cc:192-226 | bytes taken by the kernel followed by the buffer are all bytes offered; write interest exactly while the buffer is non-empty; closed exactly by a fatal direct write or by more than 1048576 bytes left over |
| SerialPort.SerialPort.HandleWrite | serial/SerialPort.cc:161-179 | continues from the front by what the write took; closes on any error but would-block |
| SerialPort.Uplink.SendFrame | app/ChassisHost.cc:748-758 | an open port gets the next consecutively numbered frame; a shut one uses up no number |
| SerialPort.Delivery | serial/SerialPort.cc:192-226 | however the wire cuts what has arrived, the peer's parser holds an initial run of the frames sent, consecutively numbered, without error; all of them once all has drained and arrived |
| OtaFlasher.PiecesSplit | ota/OtaFlasher.cc:146-159 | pieces contain no CR or LF and, joined by the breaks, restore the text |
| OtaFlasher.ShortPiecesUnchanged | ota/OtaFlasher.cc:148-159 | with no piece over 8192 bytes the lines are the non-empty pieces, unchanged |
| OtaFlasher.FlowNext | ota/OtaFlasher.cc:146-159 | one byte more: lines due and text held back, over-long text cleared at 8193 bytes |
| OtaFlasher.FlowEnd | ota/OtaFlasher.cc:178-181 | at the end of the stream the text held back is a line too |
| OtaFlasher.Flasher.Start | ota/OtaFlasher.cc:59-125 | refused while a child runs or if nothing can be spawned; a fresh child starts with nothing carried over |
| OtaFlasher.Flasher.OnChar | ota/OtaFlasher.cc:147-159 | one byte joins the child's output; line buffer and callback trace stay those due for it |
| OtaFlasher.Flasher.OnReadable | ota/OtaFlasher.cc:140-173 | what one wake-up reads joins the output; the detach is scheduled exactly on end of file or error |
| OtaFlasher.Flasher.ScheduleDetachPipe | ota/OtaFlasher.cc:175-186 | once per child: the unfinished line is delivered, and one detach step is owed |
| OtaFlasher.Flasher.DetachPipe | ota/OtaFlasher.cc:188-199 | the pipe is closed and the first look for the child taken, with the outcome described for PollReap |
| OtaFlasher.Flasher.PollReap | ota/OtaFlasher.cc:201-226 | reaped, failed or at the 200th try: the child is reported and gone, and a restart made in the callback is in place; otherwise exactly one timer with one more try is owed |
| OtaFlasher.Flasher.ReapTimer | ota/OtaFlasher.cc:211-223 | a due timer is used up, with the outcome described for PollReap |
| OtaFlasher.Flasher.Finish | ota/OtaFlasher.cc:228-239 | the callback of the current start, and only it, runs with the status; without a startable restart the flasher is vacant, with one it runs exactly the child asked for, of which nothing has been read |
| OtaRuns.Dispatch | ota/OtaFlasher.cc:140-239 | every callback of the object is one step of the reference, and its callback trace stays the story of the children |
| OtaRuns.StepSound | ota/OtaFlasher.cc:175-239 | one callback ends at most the running child; then the flasher is vacant or runs a new child about which nothing is owed |
| OtaRuns.ExitsOnce | ota/OtaFlasher.cc:228-239 | over any run every successful start has had its exit callback exactly once, except that of the child still running, which has not had it |
| OtaRuns.ReportedInTime | ota/OtaFlasher.cc:201-226 | once its output has ended, a child is reported within one detach step and 200 reap timers, whatever waitpid answers and whatever happens in between, and the flasher is then vacant or runs a fresh child |
| OtaRuns.ReportedExactlyOnce | ota/OtaFlasher.cc:175-239 | after any history, if the running child's output ends and 201 turns follow, its exit callback has run once, having not run before |
| OtaRuns.FinalTurn | ota/OtaFlasher.cc:201-239 | a look for the child settles its fate exactly if it was reaped, waiting failed, or this is the 200th timer; then its verdict is reported and the child asked for by the callback runs if it can be started, otherwise one more timer is owed |
| OtaRuns.StartTurn | ota/OtaFlasher.cc:59-125 | start succeeds exactly on a vacant flasher with arguments, a pipe and a process |
| OtaRuns.StatusReported | ota/OtaFlasher.cc:201-226 | over any run the status of every ended child is what the wait that settled its fate returned, -1 if waiting failed |
| OtaRuns.SuccessMeans | ota/OtaFlasher.cc:228-235 | success is exit code 0 and nothing else: no other code, no signal, no failed wait |
| OtaRuns.OneWakeUp | ota/OtaFlasher.cc:140-173 | one wake-up reads all data up to the first result that is neither data nor an interruption; the pipe has ended exactly if that is end of file or an error |
| OtaRuns.OutputIsHeard | ota/OtaFlasher.cc:140-173 | a child's recorded output is, in order, all its wake-ups read, whether it still runs or has ended |
| OtaRuns.EndedChildTold | ota/OtaFlasher.cc:146-187 | unless the pipe is read after its end was seen, the callbacks of an ended child are the lines of all it wrote, unfinished last one included, then its exit |
| OtaRuns.LateTailIsLost | ota/OtaFlasher.cc:175-187 | bytes read after the detach was scheduled are all delivered exactly when the length of their text after the last break is a multiple of 8193; below that length, exactly when there are none or they end in a break |
| OtaRuns.LateTailExample | ota/OtaFlasher.cc:175-187 | start, error, one byte read, detach: the child is reported and the byte is in no line |
| AsyncLogging.Logger.Append | log/AsyncLogging.cc:31-46 | a line goes into the current buffer if it fits with a byte to spare; otherwise that buffer is queued and the spare, or failing that a new buffer, takes the line, or nothing if it is too long for any |
| AsyncLogging.Logger.Swap | log/AsyncLogging.cc:79-89 | the queue and the current buffer become the batch, the first spare becomes current, and the second is handed to the front if its spare is gone |
| AsyncLogging.Logger.WriteAndRecycle | log/AsyncLogging.cc:93-123 | over 25 buffers all but the first two are dropped with a notice; the rest goes to the file in order, and missing spares are refilled from the emptied batch, the first one only after a batch of at most two |
| AsyncLogging.AppendKeepsOrder | log/AsyncLogging.cc:31-46 | file and pending text grow by exactly the line, or by nothing if it has 4000000 bytes or more |
| AsyncLogging.WriteKeepsOrder | log/AsyncLogging.cc:73-124 | a batch of up to 25 buffers is written whole, of a larger one the two oldest after the notice; both spares are back exactly if it had at most 2 or more than 25 |
| AsyncLogging.ThreeBuffersLoseASpare | log/AsyncLogging.cc:73-112 | three lines of 3999999 characters before the first round reach the top of the loop without the first spare |
| AsyncLogging.OrderOfLines | log/AsyncLogging.cc:31-46 | over all interleavings without a storm: written, in flight, queued and current text are all accepted lines in lock order |
| AsyncLogging.FourBuffersCirculate | docs/logging.md:11 | with rounds of at most two buffers both spares are there at each loop top, and the same four buffers circulate with none created |
| MockBoard.FillWheels | tools/mock_board.cc:56-60 | the loop over the wheels fills in each wheel's speed for the twist |
| MockBoard.RollsWithoutSlip | tools/mock_board.cc:54-60 | at the speeds computed for a twist each wheel's rim moves as its point of the body does in its direction |
| MockBoard.SolveTwist | tools/mock_board.cc:61-88 | the loop over the unknowns is Cramer's rule, zero on a singular geometry |
| MockBoard.KinematicsInverse | tools/mock_board.cc:54-88 | on every geometry with determinant at least 1e-9 the two conversions undo each other, in both orders |
| MockBoard.MotorSim.Advance | tools/mock_board.cc:106-120 | one tick of the motor loop: output clamp, anti-windup, speed lag and encoder count |
| MockBoard.MotorSim.SetTargetSpeed | tools/mock_board.cc:221-231 | one wheel's part of a speed command: clamp and forgotten integral |
| MockBoard.MotorStaysBounded | tools/mock_board.cc:106-120 | integral within 100, speed within 320 and target within 350 over every sequence of ticks, targets, stops and gains |
| MockBoard.RestsAtTarget | tools/mock_board.cc:106-120 | off its stops the motor is at rest exactly at its target, held there by the integral |
| MockBoard.AntiWindup | tools/mock_board.cc:109-116 | on a stop the integral moves exactly if the error points back from it |
| MockBoard.StartsTowardTarget | tools/mock_board.cc:106-120 | from a standstill it starts in the direction of its target |
| MockBoard.StopHolds | tools/mock_board.cc:235-243 | after a stop it stays at rest until a new target comes, whatever ticks, gains and disables do |
| MockBoard.TargetIsLast | tools/mock_board.cc:221-252 | the target is the last one commanded, cut to 350 either way, until a stop or disable makes it zero |
| MockBoard.ReversalForgets | tools/mock_board.cc:228-229 | a target forgets the integral exactly if it goes against the direction of turning |
| MockBoard.EncoderFollows | tools/mock_board.cc:119 | the encoder counts 60000 to a turn, short by less than one in each tick |
| ChassisHost.Controller.OnConnection | app/ChassisHost.cc:140-166 | connection set, and the brake when the speed source is lost |
| ChassisHost.Controller.HandleCommand | app/ChassisHost.cc:202-249 | gating while an OTA job is on, and the effect of each command |
| ChassisHost.Controller.CmdEnable | app/ChassisHost.cc:308-332 | the disable flag, the frame, and the link call of en 1 and en 0 |
| ChassisHost.Controller.CmdFlash | app/ChassisHost.cc:480-529 | an accepted flash stops, disables and clears the speed command and its source |
| ChassisHost.Controller.CmdFlashAbort | app/ChassisHost.cc:642-668 | ends the job only before or after the child runs |
| ChassisHost.Controller.OtaBeginFlasher | app/ChassisHost.cc:531-552 | the link is reset without a frame; the job is over if the child cannot start |
| ChassisHost.Controller.OtaOnChildExit | app/ChassisHost.cc:580-609 | recovery after success, end of the job after failure |
| ChassisHost.Controller.OnStatusFrame | app/ChassisHost.cc:705-721 | self-healing first, then the start of flashing once the board is disabled |
| ChassisHost.Controller.SelfHeal | app/ChassisHost.cc:708-714 | an enable is handed over exactly when the link is ready, the user has not disabled, the board reports en=0 and the last enable is old enough, and its time is noted |
| ChassisHost.Controller.OnConFrame | app/ChassisHost.cc:722-731 | a CON frame steps the link and its effects are carried out |
| ChassisHost.Controller.OnCommState | app/ChassisHost.cc:764-783 | enable or disable on READY, end of recovery |
| ChassisHost.Controller.OnConTick | app/ChassisHost.cc:787 | the link takes one timer tick, and every frame and state report it makes has been handed over and acted on, in order |
| ChassisHost.Controller.OnRepeatTimer | app/ChassisHost.cc:789-797 | hands over the standing speed command, as a twist or as wheel speeds according to its mode, exactly if there is one, the link is ready and the motors are not disabled; changes nothing else |
| ChassisHost.Controller.CheckOtaTimeout | app/ChassisHost.cc:840-850 | overdue quiescing flashes, overdue recovery ends |
| ChassisHost.Controller.Reconnect | app/ChassisHost.cc:862-871 | throttled reconnection, never while flashing |
| ChassisHost.Controller.OnWatchdogTimer | app/ChassisHost.cc:832-872 | port recovery, phase timeouts and reconnection in that order |
| HostRuns.HandleSteps | app/ChassisHost.cc:202-331 | which events change the repeated command, its source and the disable flag, and which frames each can send |
| HostRuns.VelocityJustified | app/ChassisHost.cc:789-797 | every velocity frame handed over repeats the latest accepted v or rpm, its source still connected, with no stop, en 0, accepted flash or loss of that source since, the link ready and not disabled |
| HostRuns.StandingIsRepeated | app/ChassisHost.cc:789-797 | conversely a beat hands over a standing command, and only it, exactly while ready and not disabled |
| HostRuns.DeadManStops | app/ChassisHost.cc:153-159 | losing the connection of the last accepted speed command hands over CMD_STOP at once, even if en 0 came between |
| HostRuns.DisabledMeansLastOff | app/ChassisHost.cc:315-331 | the disable flag holds exactly when the last accepted word on enabling was en 0 or a flash |
| HostRuns.StickyDisable | app/ChassisHost.cc:705-714 | after en 0 or an accepted flash no enable and no velocity frame is handed over until a later accepted en 1, through reconnects, self-healing and OTA completion |
| HostRuns.MotionAfterFlash | app/ChassisHost.cc:512-524 | after an accepted flash motion needs both a later en 1 and a later v or rpm |
| HostRuns.ReadyIsAnswered | app/ChassisHost.cc:768-782 | whenever the link comes up, a frame that says whether the board may drive is handed over in the same event, and recovery is over |
| HostRuns.JobOrder | app/ChassisHost.cc:480-620 | an OTA job was begun by an accepted flash and goes through quiescing, flashing, recovering in order, none skipped or revisited |
| HostRuns.FlashingIsJustified | app/ChassisHost.cc:715-719 | flashing is entered only on STATUS en=0 in quiescing or after its timeout; between events the child runs exactly while flashing |
| HostRuns.PhaseBound | app/ChassisHost.cc:840-850 | quiescing and recovering last at most their timeout plus one watchdog period |
| HostRuns.QuietWhileFlashing | app/ChassisHost.cc:863-871 | while flashing, unless the board sends ENABLE_REQUEST, the link stays down and only CMD_STOP can be handed over |
| HostDuties.SpeedsMeant | app/ChassisHost.cc:253-291 | a speed command is accepted exactly with one to three numbers; those left out are zero |
| HostDuties.BrakesExactly | app/ChassisHost.cc:297-306 | over every run CMD_STOP is handed over exactly by a stop, in every phase and link state, by an accepted flash and by the loss of the speed command's connection |
| HostDuties.LossIsTold | app/ChassisHost.cc:140-166 | over every run whatever takes a standing speed command away hands over CMD_STOP or a disable in the same event |
| HostDuties.OperatorStep | app/ChassisHost.cc:202-331 | the frames each operator line hands over, in full: enable and disable with the link call that follows, flash, stop, pid, sign, ping, and none while an OTA job is on but for stop |
| HostDuties.HealsExactly | app/ChassisHost.cc:708-714 | a STATUS frame is answered by an enable exactly if it reports en=0, the link is ready, the user has not disabled and the last enable is old enough |
| HostDuties.HealsApart | app/ChassisHost.cc:708-714 | a self-healing enable comes more than the resend interval after any other enable: the operator's, that of a link coming up, or another of its kind |
| HostDuties.ReconnectsExactly | app/ChassisHost.cc:832-872 | exactly when the watchdog asks for a link, and what it notes |
| HostDuties.ReconnectsApart | app/ChassisHost.cc:863-871 | two such requests are the retry interval apart, unless the port came back or a flash succeeded in between |
| HostDuties.ReconnectBound | app/ChassisHost.cc:863-871 | a link that is down while nothing forbids it is asked for within the retry interval and one watchdog period |
| HostDuties.RecoveryReconnects | app/ChassisHost.cc:586-589 | after a flash that succeeded the next look of the watchdog asks for the link at once if it is down and the port open |
| HostDuties.ConnsExactly | app/ChassisHost.cc:140-152 | over every run the open connections are exactly those opened and not closed since |
| HostDuties.PhaseExactly | app/ChassisHost.cc:480-668 | the phase of the OTA job after every event, in full: what begins, ends, aborts and advances it |
| HostLink.EventFollows | app/ChassisHost.cc:315-331 | each event of the host is, for its link, the calls it makes on it, and the CON frames handed over are those the link sends |
| HostLink.LinkIsRun | app/ChassisHost.cc:760-787 | over every run the host's link is a run of the CON client and its CON frames are that run's, in order, so that every statement about runs of the client holds of the link in the host |
| EndToEnd.Station.Event | app/ChassisHost.cc:748-758 | one event of the host with its frames passed on to the port in order, any write results and any closing in between; every frame on the open port stays traced to the event that handed it over |
| EndToEnd.OrderArrives | tools/mock_board.cc:219-308 | every frame of the host is read by the board, by kind, length and bytes, as what it was meant to say; floats bit for bit, an enable exactly as on or off |
| EndToEnd.BoardHoldsHandover | app/ChassisHost.cc:748-758 | what the board holds is, in order, an initial run of all frames handed over since the port was opened, each read as meant; all of them once everything has drained and arrived |
| EndToEnd.BoardIsJustified | app/ChassisHost.cc:789-797 | any velocity command held by a board that has listened since the port was opened, whatever part of the stream has reached it and however cut, was sent in a repeat beat at which it was in force |
| EndToEnd.BoardStaysDisabled | app/ChassisHost.cc:315-331 | nothing the board holds that was handed over after an accepted en 0 or flash and before en 1 was accepted again enables or moves it |
| EndToEnd.BrakeArrives | app/ChassisHost.cc:297-300 | once everything has drained and arrived the board holds a brake for every CMD_STOP handed over since the port was opened |

## Left out

- muduo, epoll, termios, `posix_spawn`, signals and clocks: replaced by events with arbitrary outcomes.
- Reply lines, JSON telemetry, help text, watch lists, ping round-trip display, command-line options and the client programs: text output without a safety property.
- TCP line splitting (app/ChassisHost.cc:169-200): commands arrive as already split lines.
- The contents of telemetry payloads: not needed by any property here. Speeds are opaque bit patterns.
- EndToEnd.BoardIsJustified: the rounding of wheel speeds in `packCmdVel` is an arbitrary function; a board that still holds part of a frame from before the port was reopened is not covered.
- Controller.OnConnection: watch lists, the source of a pending ping and the initiator of an OTA job are not modelled, because they only choose who gets text.
- Controller.CmdFlash: the path checks on the firmware file are inputs, because they read the file system.
- Controller.CmdFlashAbort: the forced kill of the child's process group is not modelled, because its effect is the exit event that follows.
- Controller.HandleCommand: whether a firmware file name is safe and the file readable are inputs, because only the outcome matters to the phases.
- Controller.OnWatchdogTimer: the silence warning is left out, because it changes no frame and no phase.
- Client.Process: 64-bit deadlines are unbounded naturals, because milliseconds never reach 2^64.
- FrameParser.Feed: the 64-bit statistics are unbounded naturals, for the same reason.
- SerialPort.SerialPort.OpenDevice: opening from a thread other than the loop's, which would expose a port without its channel, is not modelled.
- MotorSim.Advance: 32-bit float rounding and the overflow of the 32-bit encoder count are left out; the smoothing factor is any real in [0,1].
- Flasher.Finish: `killGroup` is left out, because it changes no field and its delayed signal rereads the process id.
- Logger.WriteAndRecycle: what stopping the logger leaves unwritten, and file rolling, are left out.
- HostBoard.NeitherSideGivesUp: the handshake that precedes the first keep-alive appears only as its result; frames other than CON are not part of the joint system.
