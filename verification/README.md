# A model of the USBridge agent's state machines, protocols and codecs

This project models the parts of the remote-desktop agent and client that keep state over time or translate between
formats, and proves what they are meant to keep. Each file is one component:

| file | component |
|---|---|
| `VirtualMonitor.dfy` | the watchdog that brings the agent's virtual monitor up and down with the sessions on it |
| `MouseHold.dfy` | who owns the host's held mouse button, over sockets, HTTP requests, timers and silence detectors |
| `MouseOrder.dfy` | whether the host still does what that record says, over injections that come late or fail |
| `AsyncLog.dfy` | the log writer that never blocks its callers |
| `UdpRelay.dfy` | the per-peer table of backend sockets of one Sunshine UDP port |
| `Bench.dfy` | pinning every stream backend to one monitor for a benchmark, and putting each one's own pick back |
| `BenchCarry.dfy` | taking the monitor along when backends are switched |
| `GuestPairing.dfy` | pairing a guest's Moonlight client while its share may be ending |
| `GuestMasks.dfy` | which role's permissions a guest's client is left with |
| `SunshineUpdate.dfy` | downloads and updates of Sunshine: one in-progress flag, postponement, stop, swap and start |
| `AgentUpdate.dfy` | the engine's own update, driven by an attached GUI |
| `BridgeFraming.dfy` | the localhost bridge for browser-sourced USB devices: preamble, frames, gamepad samples |
| `EngineLock.dfy` | the engine's lock file with its holder's pid and mode |
| `IcoFile.dfy` | the Windows icon writer |
| `CommandLines.dfy` | the `Exec` value of a desktop entry and the `ExecStart` of a systemd unit |
| `ResponseFile.dfy` | the response file of the clang stand-in |
| `LspciFields.dfy` | two readers of a line of `lspci -mm` |
| `Manifest.dfy` | collecting release assets by platform |
| `ScreenDiff.dfy` | how much of the screen changed |
| `AxisScaling.dfy` | pixels to absolute mouse axes |
| `Bytes.dfy`, `Quotes.dfy`, `Options.dfy` | numbers in bytes, text in quotes, a value or none: what several components share |

## How the model is built

A component with state is a state machine: `Step` is what one step does, `Run` what a list of steps does, and the
theorems are about `Run` for every list. Where the code holds a mutex, its locked section is one step; every read or
write outside one, every system call and every call into code that is not modelled is a step of its own, and an
event says what it found or whether it succeeded. A step that is not enabled changes nothing, so every list of events
is a run and every interleaving is covered.

The code's own form is kept beside it: the object whose methods update its fields is a class, with methods that
branch and assign as the code does, each proved to do what the state machine's function for that section says (for
instance `VirtualOthersWatchdog.Serve`, the loop, ends in `Run` of its events). A loop over data is a method with its
invariants, proved against a function, and the theorems are about that function.

Time is an integer, in milliseconds. Pids, manifests and versions are numbers, a certificate or a stream backend is a
string. A channel or a connection is a sequence. Clocks, the network, the display helper, the stream hosts and the
file system are what events report.

## What came out

Most of what the code and its comments promise holds for every run. These do not, and the model keeps the code as it
is: a lemma gives the run or the input, and another the exact condition.

- A virtual monitor that is up in one mode and asked for in another, where the helper takes the old one down and then
  does not get the new one up, leaves the loop believing the old mode is up: no state file, and no tick tries again
  while that mode is streamed (`LosesMonitor`, `StepKeepsRecorded`, `LostMonitorIsNotRetried`, `MonitorCanBeLost`).
- The other monitors, off around a stream host's own virtual monitor, stay off after a switch to a stream host that
  owns none (`OthersCanStayOff`, `OthersStayOffWithoutOwner`). `OthersComeBackExactly` says when they come back, and
  `OthersStayOffUntilBroughtBack` that they stay off until the first such iteration whose helper succeeds.
- Noting a press and applying it are two steps. A reconnect between them clears the record first and the press
  arrives after it: the host holds a button that no record names (`PressCanOutliveItsHold`). A release that fails to
  reach the host leaves the same (`FailedReleaseLeavesPress`). With nothing owed any more, record and host part exactly
  when an event of an earlier locked section reached the host behind the last section's and presses otherwise, or the
  last section's event failed and what reached the host last presses otherwise (`PartedExactly`).
- A backend switch during a benchmark carries the left backend's connector into the new one before the new one's own
  pick is remembered, and the release then restores the carried pick (`PickCanBeLost`, `TaintedPickIsLost`). A step
  keeps every pick undoable exactly when it does not (`StepKeepsUndoLog`). The branch behind
  `!benchPinned && benchMonitor == ""` is never taken, for the pin reports success when no monitor is set; the model
  leaves it out.
- Two overlapping pairings of one certificate for one share lose the binding at the first one's deadline, and a
  revocation then leaves the certificate trusted (`OverlapLeavesCertificate`). Any step keeps the bindings exactly when
  it does not forget one that another pairing or a grant relies on, nor fails to unpair a granted certificate that finds
  no room to be put back (`Unbinds`, `StepKeepsBindings`). A granted certificate whose binding is forgotten stays
  trusted, whether its share is revoked or has expired and is swept (`UnboundGrantOutlivesShare`).
- Trust that nobody looks at stays, with every permission. A submission of the PIN that fails after the host came to
  trust the client (a host that answers only after the handshake, and a timeout) starts no watcher
  (`FailedSubmitLeavesTrust`); and the watcher does not look once more at its deadline (`DeadlineMissesTrust`). Any step
  keeps every trusted certificate granted or looked at exactly when it is not such a one (`Abandons`, `StepKeepsTrust`),
  and under a role's mask or yet to be limited exactly when it does not leave it without (`Unlimits`, `StepKeepsMask`).
- The host keeps one permission mask for a certificate, whatever the shares it was paired for. One paired for a
  Technician's share, since revoked, and for a Viewer's can end up with the Technician's mask on the live Viewer's share
  (`RevokedRolesMaskCanStay`): the pairing that looked before the revocation limits the client after it. Limiting a
  client leaves a wrong mask exactly when its certificate is granted to a live share of another role
  (`LimitLeavesWrongMask`), and a step keeps all masks right exactly when neither of two guards holds
  (`StepKeepsRightMasks`). With shares of one role the mask is right (`TrustedGuestHasItsRolesMask`).
- An automatic Sunshine update looks for a session before it stops the streamer, not while. A session that starts in
  between is cut (`SessionCanStillBeCut`), exactly when the last that is heard of one in between is that it is on
  (`CutsExactlyALaterSession`).
- After an install of the engine ends, a check replaces the pending manifest, and the status names another version
  beside the finished one's `applying` (`UninstalledVersionIsNamed`), exactly when the check did not find that one again
  (`StatusNamesAnotherVersion`).
- A bridge stream that ends right behind a message's length reports io.EOF, as one that ends between messages
  (`TruncatedStream`). The 256 bytes of the preamble's buffer do not bound the preamble: the line is read on past a
  full buffer (`BridgeReader.More`, `BridgeReader.ReadLine`), where the comment at the constant says otherwise.
- The lock is held before its file is emptied: a launch that is refused in between reads the former holder's pid
  (`FormerHolderIsRead`). A stamp that breaks off within the pid leaves a shorter number, which is read as the holder's
  (`PartOfThePidIsRead`). Another pid than the holder's is read in these two cases and no others
  (`WrongPidIsReadExactly`).
- A unit's `ExecStart` leaves percent signs, dollar signs and line breaks to be taken for specifiers, variables and the
  line's end; it reads back without that exactly when no argument has one (`SystemdStrictRoundTrip`).
- An `Exec` value loses empty arguments (`XdgRoundTrip`) and leaves some reserved characters outside quotes
  (`XdgStrictRoundTrip`, `ParenthesisIsLeftBare`). A response file loses a bare argument's carriage return
  (`ResponseFileRoundTrip`). A reader that takes single quotes reads it back exactly when no bare argument has a
  carriage return or an apostrophe (`ShellReadersRoundTrip`, `ApostropheBreaksShellReaders`).
- The axis scale overflows 64 bits for coordinates from about 2^48 on, to either side. Such a coordinate lands at the
  other end or somewhere between: one far to the left of a common screen at its right edge (`FarLeftLandsRight`), the
  first one too large at 0 (`FirstOverflow`). The scale is right exactly when the product fits, or wraps to the same
  side of the screen (`ScaleIsRightExactly`), and monotone over a range around the screen exactly when nothing in it
  overflows; the few widest screens of all show 0 almost everywhere and have a condition of their own
  (`MonotoneExactlyWithoutOverflow`). Two pixels share a position on more than 32768 of them (`InjectiveUpTo32768`).
- An icon size of 0 or above 256 reads back as 256 (`DimSurvives`).
- Any quote in the slot of an `lspci` line puts the two readers out of step (`ReadersAgree`,
  `QuoteInSlotSeparatesReaders`). Behind an odd number of them the second reader takes the gaps for the fields, behind
  an even one earlier fields (`FieldsReadWrong`). And the GPU list rejects a line of exactly three fields that the hardware
  report takes (`GpuListWantsAnotherQuote`).

## Model

| member | source | states |
|---|---|---|
| VirtualMonitor.UpAtIsUpSince | agent/internal/app/virtual_others.go:204-224 | the loop's own clock variable is the time of the iteration that brought the monitor up in the mode it is up in, read off the run's events |
| VirtualMonitor.IdleTimeStartsLate | agent/internal/app/virtual_others.go:188-190 | on every run, once the client said it left the monitor is down and no idle time runs; an idle time starts 30 s after the monitor came up at the earliest |
| VirtualMonitor.IdleTeardownIsLate | agent/internal/app/virtual_others.go:31-40 | an idle teardown comes from a tick, 33 s or more after the iteration that brought the monitor up, and every iteration of at least the last 3 s was one that saw no session |
| VirtualMonitor.IdleMonitorGoesDownInTime | agent/internal/app/virtual_others.go:364-377 | with nobody streaming from T on and ticks at most p apart, the first thing done is the idle teardown, by max(T, up + 30 s) + 3 s + 2p, whatever the helper does; if it restores, the state file is gone |
| VirtualMonitor.AnyRunsMonitorGoesDownInTime | agent/internal/app/virtual_others.go:273-378 | the same after any run whose iterations lie before T, the 30 s counted from the iteration that brought it up |
| VirtualMonitor.LeftoverMonitorGoesDown | agent/internal/app/virtual_others.go:184-187 | a monitor that an earlier run of the agent left up goes down as well, 3 s after the first idle tick |
| VirtualMonitor.NextSessionAttaches | agent/internal/app/virtual_others.go:340-354 | after a tick that found no session the next session attaches the monitor, whether the client had left or not |
| VirtualMonitor.OthersAreRecheckedExactly | agent/internal/app/virtual_others.go:349-363 | on every run the others are switched off again exactly by ticks that see a session on the monitor that is up, only the virtual one being wanted, 10 s after it came up or the last time |
| VirtualMonitor.OthersOffAreRecorded | agent/internal/app/virtual_others.go:358-362 | switching them off is recorded in the state file if the helper does so, and leaves the monitor up |
| VirtualMonitor.StrayMonitorIsDetachedExactly | agent/internal/app/virtual_others.go:313-324 | on every run a virtual monitor with no session is detached exactly by a look for one, every 30 s, and its state file goes with it |
| VirtualMonitor.UpMeansWatched | agent/internal/app/virtual_others.go:211-219 | where a watcher can be started, a monitor that came up in this run is watched |
| VirtualMonitor.StaleReportsNeverReattach | agent/internal/app/virtual_others.go:188-190 | after the client said it left, reports of its session never attach the monitor again, however long they go on |
| VirtualMonitor.EveryRequestAnsweredOnce | agent/internal/app/virtual_others.go:133-147 | the answers are the requests taken, each once and in order |
| VirtualMonitor.AnswerFollowsAttempt | agent/internal/app/virtual_others.go:133-147 | a client is answered after the attempt: the monitor is up in the streamed mode, or exactly one attach was tried and no state file is left |
| VirtualMonitor.StepKeepsRecorded | agent/internal/app/virtual_others.go:204-224 | an iteration keeps "up means the state file exists" exactly when it does not re-attach with a helper that restores and then fails |
| VirtualMonitor.UpMeansRecorded | agent/internal/app/virtual_others.go:204-224 | on every run without such an iteration a monitor that is up is recorded |
| VirtualMonitor.LostMonitorIsNotRetried | agent/internal/app/virtual_others.go:349-363 | from a lost monitor on, ticks with a session in the old mode never attach it and never take it for down; all they do is switch the others off when only the virtual one is wanted |
| VirtualMonitor.MonitorCanBeLost | agent/internal/app/virtual_others.go:204-224 | a run of two iterations that loses the monitor |
| VirtualMonitor.ShutdownLeavesNothing | agent/internal/app/virtual_others.go:276-279 | with a working helper the agent stopping leaves no monitor up, no state file and no monitor switched off |
| VirtualMonitor.OthersComeBackExactly | agent/internal/app/virtual_others.go:249-263 | the other monitors come back exactly when they are off and the agent stops, or an owner is found and the client left, there is no choice or virtual monitor any more, or no session was reported for 3 s |
| VirtualMonitor.OwnersOthersExactly | agent/internal/app/virtual_others.go:228-264 | on every run, by its events: the others go off around an owner's monitor exactly by iterations that find a session on it, 10 s after the last time, and come back exactly at the end, when the client left or the choice is gone, or when none was found for 3 s |
| VirtualMonitor.OthersStayOffUntilBroughtBack | agent/internal/app/virtual_others.go:228-264 | over any run they stay off until the first such iteration whose helper succeeds, and that one ends it |
| VirtualMonitor.OthersCanStayOff | agent/internal/app/virtual_others.go:293-312 | a run that switches them off and never brings them back, however long stream hosts that own none go on |
| VirtualMonitor.OthersStayOffWithoutOwner | agent/internal/app/virtual_others.go:293-312 | iterations that find no owner never touch the other monitors' state |
| VirtualMonitor.VirtualOthersWatchdog.constructor | agent/internal/app/virtual_others.go:181-190 | the loop's variables at its start, "?" for a monitor that an earlier run left up |
| VirtualMonitor.VirtualOthersWatchdog.BringUpNow | agent/internal/app/virtual_others.go:204-224 | bringUp does what the state machine's section does to the variables, the file and the trace |
| VirtualMonitor.VirtualOthersWatchdog.TakeDownNow | agent/internal/app/virtual_others.go:265-272 | takeDown, likewise |
| VirtualMonitor.VirtualOthersWatchdog.OwnerOthersNow | agent/internal/app/virtual_others.go:228-264 | ownerOthers, likewise |
| VirtualMonitor.VirtualOthersWatchdog.CheckStray | agent/internal/app/virtual_others.go:313-324 | the check for a virtual monitor attached with no session |
| VirtualMonitor.VirtualOthersWatchdog.TickActive | agent/internal/app/virtual_others.go:349-363 | a tick that sees a session |
| VirtualMonitor.VirtualOthersWatchdog.TickIdle | agent/internal/app/virtual_others.go:364-377 | a tick that sees none |
| VirtualMonitor.VirtualOthersWatchdog.TickSession | agent/internal/app/virtual_others.go:333-377 | a tick with no owner |
| VirtualMonitor.VirtualOthersWatchdog.TickOwned | agent/internal/app/virtual_others.go:293-312 | a tick with one |
| VirtualMonitor.VirtualOthersWatchdog.HandleStarting | agent/internal/app/virtual_others.go:288-332 | a client's start |
| VirtualMonitor.VirtualOthersWatchdog.Handle | agent/internal/app/virtual_others.go:273-378 | one iteration is one step |
| VirtualMonitor.VirtualOthersWatchdog.Serve | agent/internal/app/virtual_others.go:273-378 | the loop is the run of its events, to the first shutdown |
| MouseHold.EveryRunKeepsInv | agent/internal/api/mouse_hold.go:56-114 | under every interleaving a recorded hold has an owner drawn before, whose armed timer will find the press stale |
| MouseHold.RecordedExactlyWhenLatched | agent/internal/api/server.go:868-889 | for every action string noteMouse's list and applyMouse's agree: a request is recorded exactly when it latches the host's buttons, with the same buttons at the same place |
| MouseHold.AdvertisedActionsAreHandled | agent/internal/api/server.go:878-884 | every action that the mouse tool and the endpoint's documentation name does something, and those with a position latch the buttons asked for |
| MouseHold.NoOrphanPress | agent/internal/api/mouse_hold.go:14-26 | a recorded hold belongs to an owner, not 0, that can still release it: a socket whose deferred release has not run, a request about to arm its timer, or a timer armed or about to release |
| MouseHold.NoOrphanPressOnHost | agent/internal/api/mouse_hold.go:14-26 | over the host: with sections and injections in turn, a button held on it once nothing is owed has an owner that can still release it, at that position |
| MouseOrder.HeldPressIsAnswerable | agent/internal/api/mouse_hold.go:14-26 | and on any run, unless the last section's event was overtaken or failed |
| MouseHold.OwnersAreUnique | agent/internal/api/mouse_hold.go:28-32 | the next id to be drawn names no socket or request so far, and none is ever 0 |
| MouseHold.OnlyOwnHoldReleased | agent/internal/api/mouse_hold.go:82-100 | a closing or silent socket and a firing timer end only their own owner's hold |
| MouseHold.TimerReleasesHeldPress | agent/internal/api/mouse_hold.go:102-114 | a timer that fires while its request still holds finds the press stale, and its release clears the record and owes the host a lift at the held position |
| MouseHold.UnfollowedPressIsLifted | agent/internal/api/mouse_hold.go:102-114 | an HTTP press that nothing follows up is lifted on the host 5 s later, where it was made, and not before |
| MouseHold.NewSocketClears | agent/internal/api/server.go:753-756 | a new socket ends whoever's hold there is, and the host lets go of the button before the socket reads |
| MouseHold.ClosingSocketReleases | agent/internal/api/server.go:757-757 | a closing one ends its own hold so, and no other's |
| MouseHold.SilentSocketIsReleased | agent/internal/api/server.go:795-810 | and one that falls silent while it holds; one that does not hold is left alone |
| MouseHold.HttpRequestRuns | agent/internal/api/server.go:717-737 | a request that nothing interrupts: recorded, with a timer of 5 s exactly when it presses, and told to the host |
| MouseHold.SocketMessageRuns | agent/internal/api/server.go:821-841 | and a socket's message |
| MouseHold.SpentOwnerHoldsNothing | agent/internal/api/server.go:753-757 | an owner whose socket closed or whose timer is through holds nothing |
| MouseHold.RecordAgreesWithLatest | agent/internal/api/server.go:726-730 | on every run the record agrees with the event that the last locked section owes, position and all |
| MouseOrder.EveryTraceKeepsTInv | agent/internal/api/server.go:726-730 | with the locked sections numbered, every owed event carries its section's number, and what reached the host is the last attempt that succeeded |
| MouseOrder.PartedExactly | agent/internal/api/server.go:829-831 | on every run, once nothing is owed, record and host part exactly when an event of an earlier section reached the host behind the last section's and presses otherwise, or the last section's failed and what reached the host last presses otherwise |
| MouseOrder.PartedByOvertaking | agent/internal/api/server.go:829-831 | with injections that succeed, exactly when overtaken |
| MouseOrder.FailedReleaseLeavesPress | agent/internal/api/server.go:753-757 | a run in which a closing socket's release fails and the button stays down with no record |
| MouseHold.RecordAgreesWithHost | agent/internal/api/server.go:829-831 | when sections and injections take turns and injections succeed, a button is held on the host exactly when the record says so, at the recorded position |
| MouseHold.PressCanOutliveItsHold | agent/internal/api/server.go:753-757 | a run in which a reconnect between noting and applying leaves a press that no record names |
| MouseHold.MouseHoldRecord.Note | agent/internal/api/mouse_hold.go:54-72 | noteMouse: a press replaces the record, a lift clears it, anything else leaves it |
| MouseHold.MouseHoldRecord.HeldBy | agent/internal/api/mouse_hold.go:74-80 | an owner holds exactly when its release would end a hold now |
| MouseHold.MouseHoldRecord.Release | agent/internal/api/mouse_hold.go:82-100 | releaseHeldMouse clears the record for its owner, or for anybody as owner 0, and gives the last position |
| MouseHold.MouseHoldRecord.TimerStale | agent/internal/api/mouse_hold.go:104-109 | the timer's check: still held by this request, and for at least 5 s |
| AsyncLog.EveryRunKeepsInv | client/cmd/async_log_writer.go:62-138 | conservation, order, counting and the state of the two signals in every reachable state |
| AsyncLog.LinesAreConserved | client/cmd/async_log_writer.go:32-41 | written, in hand and queued lines are the accepted ones in order with their contents at call time; at most 8192 are queued; every call was accepted, dropped, or has not sent yet |
| AsyncLog.CallRuns | client/cmd/async_log_writer.go:108-117 | a call that nothing interrupts queues what the caller's buffer holds, or drops it when 8192 lines are queued; the buffer is the caller's again after it |
| AsyncLog.WorkerTurns | client/cmd/async_log_writer.go:62-70 | a free worker writes the line queued longest |
| AsyncLog.StoppedWorkerFlushes | client/cmd/async_log_writer.go:72-86 | told to stop, it writes everything queued, in order, and is done |
| AsyncLog.CloseRuns | client/cmd/async_log_writer.go:129-138 | Close stops, waits for the worker or its time to be over, reports and returns; nobody comes to a later step without the ones before |
| AsyncLog.ReportTellsDropped | client/cmd/async_log_writer.go:135-137 | on every run the notice tells the calls that were neither accepted nor are under way, and there is none when all were |
| AsyncLog.NoticesAreTrue | client/cmd/async_log_writer.go:135-137 | no notice ever tells of more lines than were dropped |
| AsyncLog.DoneMeansFlushed | client/cmd/async_log_writer.go:72-86 | once the worker is done, every line accepted before the stop signal was written, first and in order |
| AsyncLog.WrittenIsFinal | client/cmd/async_log_writer.go:98-103 | after the worker is done no later step writes a line, and what was written stays |
| AsyncLog.CloseAgainChangesNothing | client/cmd/async_log_writer.go:119-130 | once the stop signal is given, a run with any number of further Close calls in it writes, queues, drops and signals what the run without them does |
| AsyncLog.AsyncLogWriter.constructor | client/cmd/async_log_writer.go:51-60 | a new writer is empty and open |
| AsyncLog.AsyncLogWriter.Write | client/cmd/async_log_writer.go:108-117 | queues a copy of the buffer's contents, or counts a drop when the queue is full, and claims all of it was written |
| AsyncLog.AsyncLogWriter.Drain | client/cmd/async_log_writer.go:72-86 | the last loop writes everything queued in order and signals done |
| AsyncLog.AsyncLogWriter.Report | client/cmd/async_log_writer.go:135-137 | reports the dropped lines, if any, to the inner writer |
| UdpRelay.EveryRunKeepsInv | agent/internal/app/sunshine_tsnet.go:111-184 | the table, the forwarder's packet and the history fit together in every reachable state |
| UdpRelay.TableIsPerPeer | agent/internal/app/sunshine_tsnet.go:125-151 | the table maps a peer to a socket dialled for it whose relay has not removed itself, holds every such socket, and gives no two peers one |
| UdpRelay.RepliesReachTheSender | agent/internal/app/sunshine_tsnet.go:159-183 | a socket's replies go to the peer whose packets it carried |
| UdpRelay.TeardownTakesItsOwnEntry | agent/internal/app/sunshine_tsnet.go:163-168 | a relay that deletes by its peer's key always deletes its own socket's entry |
| UdpRelay.NothingIsMadeUp | agent/internal/app/sunshine_tsnet.go:129-156 | packets reach the backend unchanged, in order and at most once, and so do a socket's replies its peer |
| UdpRelay.RepliesAreSent | agent/internal/app/sunshine_tsnet.go:171-183 | on every run what a relay read from the backend went to its peer, in order, all but the one in hand or the one that could not be sent |
| UdpRelay.ReplyRuns | agent/internal/app/sunshine_tsnet.go:171-183 | a reply that is read and sent is the one read; a relay that cannot read or send leaves without one |
| UdpRelay.RelayEnds | agent/internal/app/sunshine_tsnet.go:163-169 | and takes its peer's entry and its socket with it |
| UdpRelay.TurnReachesThePeersSocket | agent/internal/app/sunshine_tsnet.go:137-155 | a packet goes to its peer's socket: the one in the table, or one dialled for it, which is in the table and has its relay from then on |
| UdpRelay.UdpForwarder.constructor | agent/internal/app/sunshine_tsnet.go:125-126 | the forwarder starts as the state machine does |
| UdpRelay.UdpForwarder.Forward | agent/internal/app/sunshine_tsnet.go:128-156 | one turn of the loop is the state machine's six steps and keeps the invariant |
| UdpRelay.UdpForwarder.TearDown | agent/internal/app/sunshine_tsnet.go:163-169 | the end of a relay is its two steps and keeps the invariant; the peer's entry goes, the others stay |
| Bench.PinMovesToMonitor | agent/internal/app/bench.go:220-278 | a pin moves the active backend to the first output that it reports for the monitor, and no other backend; where it reports none, or the write fails, nothing moves |
| Bench.PinMovesToVirtual | agent/internal/app/bench.go:203-278 | a pin to the virtual monitor moves it to the mode asked for, else the one streamed, else the default |
| Bench.RefusedPinChangesNothing | agent/internal/app/bench.go:177-196 | a mode that does not parse or a monitor that is not there changes nothing |
| Bench.SwitchMovesToMonitor | agent/internal/app/app.go:1957-1989 | a switch during a pin moves the backend it comes to, and no other: at once, or late when it reported none before it was up |
| Bench.SwitchMovesToVirtual | agent/internal/app/app.go:1957-1989 | and to the pinned mode when that is virtual |
| BenchCarry.SwitchCarriesTheMonitor | agent/internal/app/app.go:2001-2042 | with no monitor pinned, a switch moves the backend it comes to onto the connector the other one is pinned to, by its first device there with an output; where there is no such connector or device nothing moves |
| Bench.SetRestartsExactly | agent/internal/app/bench.go:223-312 | a pin or a release restarts the running backend exactly when its output changes, on that output, at once or with the next switch as asked |
| Bench.SwitchRestartsExactly | agent/internal/app/app.go:1882-1991 | a switch starts the backend it comes to, once more exactly when the late pin changed its output; to the active one it only makes up for a restart put off |
| Bench.StepKeepsUndoLog | agent/internal/app/bench.go:239-278 | a pin, re-pin, release or switch keeps every backend's pick undoable exactly when it carries no pin into a kind not yet remembered |
| Bench.RunKeepsUndoLog | agent/internal/app/bench.go:239-278 | so on every run without such a switch |
| Bench.ReleaseRestoresEveryBackend | agent/internal/app/bench.go:280-312 | releasing after any such run puts every backend's output back to its value before the first pin |
| Bench.TaintedPickIsLost | agent/internal/app/app.go:1957-1959 | when the switch carries, the release leaves that kind on the carried output, which is not its own, whether it was pinned at once, later or never |
| Bench.PickCanBeLost | agent/internal/app/app.go:1957-1959 | a run from an unpinned state, a pin, a switch and a release, that leaves RustShine on Sunshine's connector |
| Bench.BaseIsFromTheFirstPin | agent/internal/app/bench.go:198-203 | the outputs the proof compares with are those of the moment the first pin began |
| Bench.StepKeepsUpToDate | agent/internal/app/bench.go:223-235 | whatever changes a running active backend's output restarts it or leaves its restart pending |
| Bench.EveryRunStaysUpToDate | agent/internal/app/bench.go:164-175 | so over every run of pins, releases and switches |
| Bench.PutPicksBack | agent/internal/app/bench.go:286-302 | whatever order the map gives, every pick that its backend accepts is put back, and the active one's change is noticed |
| Bench.BenchPins.RestartActive | agent/internal/app/app.go:1887-1898 | the active backend comes up on its current output, if it comes up |
| Bench.BenchPins.ApplyPin | agent/internal/app/bench.go:239-278 | applyBenchMonitor: the kind's own pick is remembered once, before its output changes |
| Bench.BenchPins.RestoreOutputs | agent/internal/app/bench.go:284-312 | restoreBenchOutputs, with the restart at once or deferred |
| Bench.BenchPins.PinActiveNow | agent/internal/app/bench.go:220-236 | the end of a pin: the active backend is pinned and restarted or its restart deferred |
| Bench.BenchPins.ResolveId | agent/internal/app/bench.go:177-196 | the monitor a request stands for, or that it is refused |
| Bench.BenchPins.NoteMonitor | agent/internal/app/bench.go:203-215 | the monitor and the virtual mode that are noted |
| Bench.BenchPins.SetBenchMonitor | agent/internal/app/bench.go:176-237 | SetBenchMonitor is the state machine's pin or release |
| Bench.BenchPins.CarryPin | agent/internal/app/app.go:2021-2042 | carryPin |
| Bench.BenchPins.PinLateNow | agent/internal/app/app.go:1983-1991 | a kind that could not be pinned before its start is tried again |
| Bench.BenchPins.LeaveFor | agent/internal/app/app.go:1910-1950 | leaving one backend for another, with the connector the old one was pinned to |
| Bench.BenchPins.SetStreamBackend | agent/internal/app/app.go:1882-1991 | SetStreamBackend is the state machine's switch |
| GuestPairing.MasksNest | agent/internal/app/guests.go:121-140 | each role's mask is within the next one's, a Viewer's has no input, clipboard or files, and none runs commands |
| GuestPairing.StepKeepsBindings | agent/internal/app/guests.go:115-116 | any step keeps grants, bindings, pairings and certificates being dropped fitting together exactly when it neither forgets a binding that another pairing of the certificate for the share, or its grant, relies on, nor fails to unpair a granted certificate and finds no room to put it back |
| GuestPairing.StepKeepsTrust | agent/internal/app/guests.go:85-119 | any step keeps each trusted certificate that a pairing was of granted or still looked at exactly when it neither brings trust that none will look at, nor ends the last look at one that is not granted: by a share without room, a failed submission, the deadline or a failed unpairing |
| GuestPairing.EveryRunKeepsBindings | agent/internal/app/guests.go:67-119 | so the bindings fit together over every run without a step of the first kind |
| GuestPairing.EveryRunAccountsForTrust | agent/internal/app/guests.go:67-119 | and trust is accounted for over every run without one of the second |
| GuestPairing.FailedSubmitLeavesTrust | agent/internal/app/guests.go:91-93 | a run in which the host trusts the client before the PIN's submission fails, and a live Viewer's client keeps every permission |
| GuestPairing.DeadlineMissesTrust | agent/internal/app/guests.go:94-116 | one in which it does after the last look before the deadline, with the same end and no binding |
| GuestPairing.NoOverlapNeverUnbinds | agent/internal/app/guests.go:67-119 | no binding is lost when pairings of one certificate for one share follow one another, none reaches its deadline on a pair granted already, and revocations unpair what they take |
| GuestPairing.UnboundGrantOutlivesShare | agent/internal/app/guests.go:115-116 | once a granted certificate's binding is forgotten, its share's revocation, or its sweep if it has ended, leaves it trusted and granted and in nobody's hands |
| GuestPairing.NothingLeftBehind | agent/internal/app/guests.go:67-70 | once all is through, a trusted certificate that a pairing was of was granted to a share that is still bound to it and is live, or has ended and is about to be swept |
| GuestPairing.RevokedShareHasNothing | agent/internal/guestauth/manager.go:137-166 | once all is through, a revoked share has no granted certificate, or only one that failed to be unpaired and is put back for the next sweep |
| GuestPairing.GrantsComeFromPairings | agent/internal/app/guests.go:97-102 | a grant is of a pairing of that certificate for that share |
| GuestPairing.PairingWatches | agent/internal/app/guests.go:96-113 | a pairing watches until the host trusts its certificate, and then looks at the share |
| GuestPairing.ShareIsLookedAtAgain | agent/internal/app/guests.go:98-101 | a share revoked or expired in between gets no grant and the certificate is unpaired; a live one gets its grant |
| GuestPairing.FourPrintsAtMost | agent/internal/guestauth/store.go:128-151 | on every run a share has four certificates at most, put back ones and all |
| GuestPairing.RevokedCertificateUntrusted | agent/internal/app/guests.go:67-70 | a certificate paired for revoked shares only is not trusted |
| GuestPairing.OverlapLeavesCertificate | agent/internal/app/guests.go:115-116 | a run of two overlapping pairings after which a revocation leaves the certificate trusted |
| GuestPairing.StepKeepsMask | agent/internal/app/guests.go:96-119 | where the hosts that a certificate was paired on can limit clients, any step keeps it, once trusted, under a role's mask, or yet to be limited or unpaired, exactly when it neither brings trust that none will limit, nor ends the last pairing that would |
| GuestPairing.TrustedGuestsAreLimited | agent/internal/app/guests.go:102-110 | so over every run without such a step, once all is through, it has the mask of the role of a share it was paired for |
| GuestPairing.ViewersAreLimited | agent/internal/app/guests.go:80-87 | on every run and any host, a pairing of a Viewer's share is one that will be limited |
| GuestPairing.ViewersOnlyView | agent/internal/app/guests.go:80-110 | so on any host, once all is through, a trusted certificate that was paired for Viewers' shares may list, view and launch, and nothing else |
| GuestMasks.TrustedGuestHasItsRolesMask | agent/internal/app/guests.go:67-119 | and when it was paired for shares of one role, that role's, with a grant and binding to a share that is live, or expired and about to be swept |
| GuestMasks.LimitLeavesWrongMask | agent/internal/app/guests.go:102-110 | limiting a client leaves a wrong mask exactly when its certificate is granted to a live share of another role |
| GuestMasks.StepKeepsRightMasks | agent/internal/app/guests.go:97-110 | a step keeps every mask that of the live shares it is for exactly when it neither limits a client so, nor grants a certificate with one role's mask to a share of another |
| GuestMasks.EveryRunKeepsRightMasks | agent/internal/app/guests.go:67-119 | so they are right over every run without such a step that loses no binding |
| GuestMasks.LiveSharesMaskIsApplied | agent/internal/app/guests.go:102-110 | once all is through on such a run, a certificate granted to a live share has the mask of that share's role |
| GuestMasks.RevokedRolesMaskCanStay | agent/internal/app/guests.go:97-110 | a run that ends with a live Viewer's client under the mask of a revoked Technician's share |
| GuestPairing.ShareStore.Revoke | agent/internal/guestauth/store.go:115-127 | a known share is ended, and stays so |
| GuestPairing.ShareStore.AddFingerprint | agent/internal/guestauth/store.go:132-151 | the certificate is recorded unless the share is unknown or has four others |
| GuestPairing.ShareStore.RemoveFingerprint | agent/internal/guestauth/store.go:153-169 | the certificate is forgotten |
| GuestPairing.ShareStore.TakeFingerprints | agent/internal/guestauth/store.go:171-183 | all of the share's certificates are returned and forgotten |
| SunshineUpdate.EveryRunKeepsInv | agent/internal/app/sunshine_update.go:69-254 | the flag, the lock, the prepared tree, the stops and starts and the check's time fit the one thread under way |
| SunshineUpdate.FlagHasOneHolder | agent/internal/app/sunshine_update.go:69-105 | over any interleaving of the four entry points the flag is up exactly while one thread has it |
| SunshineUpdate.NothingIsOwedAtRest | agent/internal/app/sunshine_update.go:231-254 | with none under way every stop has had its start by the same thread, every prepared tree is committed or discarded, and the stream lock is free |
| SunshineUpdate.AutomaticSparesSessions | agent/internal/app/sunshine_update.go:154-157 | an automatic update stops Sunshine only when it saw no session under the lock |
| SunshineUpdate.PutOffMeansStreaming | agent/internal/app/sunshine_update.go:223-237 | an update is put off only if it is automatic and a client streams from Sunshine |
| SunshineUpdate.TreesAreSettledOnce | agent/internal/app/sunshine_update.go:241-247 | what became of a prepared tree never changes |
| SunshineUpdate.OutcomeTellsTree | agent/internal/app/sunshine_update.go:107-254 | on every run and for every entry point: a thread that made a tree and ends as Fine has it committed, as Failed or Streaming discarded; one that made none ends as Fine only if it was to update |
| SunshineUpdate.UninterruptedDownload | agent/internal/app/sunshine_update.go:107-140 | a download that nothing interrupts ends as Fine exactly when its tree is prepared and committed, and leaves no open tree |
| SunshineUpdate.UninterruptedLook | agent/internal/app/sunshine_update.go:214-230 | an update's steps up to the lock: failed, nothing newer, put off, or a tree prepared |
| SunshineUpdate.TurnedAwayExactly | agent/internal/app/sunshine_update.go:69-199 | an entry point is turned away exactly when another has the flag or it is too early, and then changes nothing; a download never delays the next check |
| SunshineUpdate.StopsAndStartsTheActive | agent/internal/app/sunshine_update.go:231-254 | on every run what is stopped, and started again, is Sunshine as the active streamer |
| SunshineUpdate.NextCheckIsDue | agent/internal/app/sunshine_update.go:172-181 | the next automatic check is due exactly 15 minutes after a postponement, and else 6 h after the check began |
| SunshineUpdate.NextFetchIsDue | agent/internal/app/sunshine_update.go:69-79 | the next first-run download is due a minute after the last one began |
| SunshineUpdate.UninterruptedSwap | agent/internal/app/sunshine_update.go:231-254 | the swap's steps, taken together: the outcome, one tree settled, a stop and its start or neither, the lock free |
| SunshineUpdate.CutsExactlyALaterSession | agent/internal/app/sunshine_update.go:233-240 | whatever happens between an automatic update's look and its stop, the stop cuts a session exactly when the last session event in between is that one is on |
| SunshineUpdate.SessionCanStillBeCut | agent/internal/app/sunshine_update.go:233-240 | a run from the start in which one is cut |
| SunshineUpdate.SunshineUpdater.BeginFetch | agent/internal/app/sunshine_update.go:69-79 | the background download begins unless one is under way or the last began less than a minute ago |
| SunshineUpdate.SunshineUpdater.BeginDownload | agent/internal/app/sunshine_update.go:95-103 | a download begins unless one is under way |
| SunshineUpdate.SunshineUpdater.BeginCheck | agent/internal/app/sunshine_update.go:162-171 | an automatic check begins when it is due and none is under way, and notes its time |
| SunshineUpdate.SunshineUpdater.BeginCheckNow | agent/internal/app/sunshine_update.go:191-199 | a requested one begins unless one is under way, and notes its time |
| SunshineUpdate.SunshineUpdater.EndCheck | agent/internal/app/sunshine_update.go:172-181 | after a check the flag is down and the next one is due 15 minutes or 6 h on |
| SunshineUpdate.SunshineUpdater.DownloadTree | agent/internal/app/sunshine_update.go:107-140 | downloadSunshine: the outcome and what became of the tree |
| SunshineUpdate.SunshineUpdater.Swap | agent/internal/app/sunshine_update.go:231-254 | updateSunshine from the lock on: outcome, tree, stop and start |
| AgentUpdate.EveryRunKeepsInv | agent/internal/adminapi/agent_update.go:71-127 | the state tells of the running install in every reachable state |
| AgentUpdate.ActiveIsOneInstall | agent/internal/adminapi/agent_update.go:23-31 | active means one running install, of the pending manifest; its bytes are shown, and applying means it once reported them all |
| AgentUpdate.ApplyingMeansAllBytes | agent/internal/adminapi/agent_update.go:105-112 | while an install runs the status is applying exactly when it once reported all of its bytes, of at least one |
| AgentUpdate.ErrorMeansStopped | agent/internal/adminapi/agent_update.go:115-124 | an error is never shown beside an install that runs or applies |
| AgentUpdate.PendingStaysWhileActive | agent/internal/adminapi/agent_update.go:73-77 | no step changes the pending manifest while an install runs |
| AgentUpdate.ReportStays | agent/internal/adminapi/agent_update.go:115-135 | what an install reported stays in the status through any checks until the next install |
| AgentUpdate.StatusNamesAnotherVersion | agent/internal/adminapi/agent_update.go:128-134 | after an install ended, a check leaves its version in the status exactly when it found it again |
| AgentUpdate.UninstalledVersionIsNamed | agent/internal/adminapi/agent_update.go:71-134 | a run from the start after which the status is applying and names a version that was never installed |
| AgentUpdate.AgentUpdateState.Check | agent/internal/adminapi/agent_update.go:71-86 | a check sets the pending manifest unless an install runs |
| AgentUpdate.AgentUpdateState.Install | agent/internal/adminapi/agent_update.go:87-102 | an install starts with cleared progress, or is refused as running or as having nothing pending |
| AgentUpdate.AgentUpdateState.Progress | agent/internal/adminapi/agent_update.go:105-112 | progress is recorded, and applying once all bytes are there |
| AgentUpdate.AgentUpdateState.Finish | agent/internal/adminapi/agent_update.go:113-124 | the end: an error, or applying |
| BridgeFraming.FrameOfParse | agent/internal/api/usb_passthrough_browser.go:570-589 | a stream whose first frame reads as a payload starts with that payload's frame |
| BridgeFraming.FramesRoundTrip | agent/internal/api/usb_passthrough_browser.go:570-605 | the messages read are the messages sent, then io.EOF |
| BridgeFraming.ReadAllIsExact | agent/internal/api/usb_passthrough_browser.go:570-589 | every stream is the encoding of the messages read from it and less than a frame more |
| BridgeFraming.TruncatedStream | agent/internal/api/usb_passthrough_browser.go:578-589 | cut inside message j, a stream gives the messages before it and then io.EOF right at the cut or behind a length, else io.ErrUnexpectedEOF |
| BridgeFraming.TruncationLosesNoOrder | agent/internal/api/usb_passthrough_browser.go:578-589 | whatever the cut, a proper prefix of the messages is read |
| BridgeFraming.GamepadRoundTrip | agent/internal/api/usb_passthrough_browser.go:452-492 | preamble and messages of a gamepad connection come back as sent |
| BridgeFraming.PenRoundTrip | agent/internal/api/usb_passthrough_browser.go:452-492 | and of a pen's |
| BridgeFraming.ClipboardRoundTrip | agent/internal/api/usb_passthrough_browser.go:463-470 | and of the clipboard's, whose preamble has no bus |
| BridgeFraming.GamepadPreambleIsExact | agent/internal/api/usb_passthrough_browser.go:455-486 | a stream is a gamepad's for a bus exactly when it starts with that line |
| BridgeFraming.OtherLines | agent/internal/api/usb_passthrough_browser.go:463-492 | the lines of the other verbs, one without a bus, and an unknown one |
| BridgeFraming.PadRoundTrip | agent/internal/api/usb_passthrough_browser.go:266-276 | decoding inverts little-endian two's complement |
| BridgeFraming.EveryPadFrameIsAnEncoding | agent/internal/api/usb_passthrough_browser.go:266-276 | and every 12-byte frame is the encoding of what it decodes to |
| BridgeFraming.SamplesRoundTrip | agent/internal/api/usb_passthrough_browser.go:673-682 | the samples sent are the states set, in order |
| BridgeFraming.BridgeReader.ReadFull | agent/internal/api/usb_passthrough_browser.go:580-588 | io.ReadFull gives the stream's next n bytes whatever the chunks, io.EOF when none is left, io.ErrUnexpectedEOF when too few |
| BridgeFraming.BridgeReader.ReadFrame | agent/internal/api/usb_passthrough_browser.go:570-589 | a frame is what the stream's bytes say, whatever the chunks |
| BridgeFraming.BridgeReader.More | agent/internal/api/usb_passthrough_browser.go:455-456 | a full buffer without a newline is handed out and reading goes on |
| BridgeFraming.BridgeReader.ReadLine | agent/internal/api/usb_passthrough_browser.go:455-461 | the bytes up to the first newline, of any length and in any chunks |
| BridgeFraming.BridgeReader.ReadPreamble | agent/internal/api/usb_passthrough_browser.go:452-492 | the preamble is what the first line says, and the bytes behind it are kept |
| BridgeFraming.BridgeReader.ServeGamepad | agent/internal/api/usb_passthrough_browser.go:673-682 | the states set are the decoded 12-byte messages, in order, the others passed over |
| BridgeFraming.BridgeWriter.WriteFrame | agent/internal/api/usb_passthrough_browser.go:591-605 | a payload above 65535 bytes sends nothing; one that fits sends its frame, or on a connection that breaks a part of it |
| EngineLock.PidRoundTrip | agent/internal/app/enginelock.go:77-96 | a pid reads back through decimal print, parse and the 64-byte buffer, as not headless |
| EngineLock.StampRoundTrip | agent/internal/app/enginelock.go:98-121 | pid and mode read back |
| EngineLock.AtoiOfSigned | agent/internal/app/enginelock.go:84-96 | numbers with a sign read back too, to the ends of 64 bits and no further |
| EngineLock.AtoiRejects | agent/internal/app/enginelock.go:84-96 | and nothing else is a number |
| EngineLock.NoNumberIsNoPid | agent/internal/app/enginelock.go:84-96 | a file whose first word is no number tells of no process |
| EngineLock.PidIsInFirstBytes | agent/internal/app/enginelock.go:84-88 | the first 64 bytes are all that is looked at |
| EngineLock.EveryRunKeepsInv | agent/internal/app/enginelock.go:49-121 | who has the lock and what the file then says, over all interleavings and failures |
| EngineLock.LockHasOneHolder | agent/internal/app/enginelock_unix.go:10-22 | at most one open of the file has the lock |
| EngineLock.OnlyTheHolderWrites | agent/internal/app/enginelock.go:70-81 | a step that changes the file is the holder's |
| EngineLock.LaunchRuns | agent/internal/app/enginelock.go:49-82 | a launch up to its pid, for each of its failures: who has the lock then and what the file says |
| EngineLock.StampRuns | agent/internal/app/enginelock.go:98-110 | and its stamp |
| EngineLock.ReadersSeeTheHolder | agent/internal/app/enginelock.go:84-121 | what any process reads, for each point the holder is at: what it found, nothing, its pid, then its pid and mode; and after a write that broke off its pid, nothing or a smaller number, by how much was written and whether the file had been emptied |
| EngineLock.WrongPidIsReadExactly | agent/internal/app/enginelock.go:84-96 | a pid that is not the holder's is read exactly while the holder has not emptied a file that says another, or when its stamp broke off within the pid in an emptied file |
| EngineLock.BrokenStampReads | agent/internal/app/enginelock.go:98-110 | what each length of a broken stamp reads as |
| EngineLock.PartOfThePidIsRead | agent/internal/app/enginelock.go:98-110 | a run in which a broken stamp is read as a smaller pid |
| EngineLock.StampIsFinal | agent/internal/app/enginelock.go:98-110 | a complete stamp stays until its holder closes the file |
| EngineLock.FormerHolderIsRead | agent/internal/app/enginelock.go:59-76 | a run in which a refused launch reads the former holder's pid |
| EngineLock.LockFile.Acquire | agent/internal/app/enginelock.go:49-82 | acquired exactly when granted, emptied and written; what the file then holds, and the pid read when refused |
| EngineLock.LockFile.StampEngineMode | agent/internal/app/enginelock.go:98-110 | the stamp reads back even if the file could not be emptied first; what a failed write leaves |
| EngineLock.LockFile.WaitForLockFree | agent/internal/app/enginelock.go:172-186 | free exactly when an attempt before the deadline succeeds |
| IcoFile.PngSizeReadsIhdr | agent/scripts/generate_windows_ico.py:10-17 | width and height are those of the IHDR chunk |
| IcoFile.PngSizeRefuses | agent/scripts/generate_windows_ico.py:10-15 | a file is no PNG exactly by its first eight bytes, and a PNG too short exactly below 24 |
| IcoFile.DimSurvives | agent/scripts/generate_windows_ico.py:20-21 | a size survives its byte exactly when it is 1 to 256 |
| IcoFile.StableSortIsUnique | agent/scripts/generate_windows_ico.py:31-31 | there is one stable sorting by area |
| IcoFile.StableSortIsPermutation | agent/scripts/generate_windows_ico.py:31-31 | it has the images it started from |
| IcoFile.SortByArea | agent/scripts/generate_windows_ico.py:31-31 | the images come out by width times height, those of one area in the order they were |
| IcoFile.LoadImages | agent/scripts/generate_windows_ico.py:25-29 | the sizes of all inputs, or the error of the first that is no PNG |
| IcoFile.LoadsAll | agent/scripts/generate_windows_ico.py:25-29 | it succeeds exactly when each input has its sizes, and keeps them and the bytes, in order |
| IcoFile.PackEntries | agent/scripts/generate_windows_ico.py:33-51 | header and entries with the running offset, or an error exactly when a field cannot hold its value |
| IcoFile.BuildIco | agent/scripts/generate_windows_ico.py:24-53 | the file of the stably sorted images, or the error |
| IcoFile.RegionsFillTheFile | agent/scripts/generate_windows_ico.py:35-53 | the regions lie one behind the other from 6 + 16n to the end of the file |
| IcoFile.FileReadsBack | agent/scripts/generate_windows_ico.py:33-53 | read through its directory, the file gives the images it was made of, in order, with the sizes a byte shows, from entries without palette, of one plane and 32 bits |
| CommandLines.XdgRoundTrip | agent/internal/autostart/autostart_linux.go:496-511 | split at spaces and unquoted, the value gives the arguments back exactly when none is empty |
| CommandLines.BareExactly | agent/internal/autostart/autostart_linux.go:505-508 | an argument is left as it is exactly when it has none of the seven characters that need quotes |
| CommandLines.XdgStrictRoundTrip | agent/internal/autostart/autostart_linux.go:492-511 | to a reader that bars the reserved characters outside quotes, and a backquote or dollar sign without a backslash inside them, also exactly when each argument that has a reserved one is quoted |
| CommandLines.ParenthesisIsLeftBare | agent/internal/autostart/autostart_linux.go:505-508 | an argument with a parenthesis is not quoted |
| CommandLines.SystemdRoundTrip | agent/internal/autostart/autostart_linux.go:36-42 | joined quoted arguments, split at spaces and unquoted, come back whatever they are |
| CommandLines.SystemdEscapesDollars | agent/internal/autostart/autostart_linux.go:36-42 | also to a reader that bars a dollar sign without a backslash |
| CommandLines.SystemdStrictRoundTrip | agent/internal/autostart/autostart_linux.go:36-42 | to a reader that refuses what systemd takes for specifiers, variables or the line's end, exactly when no argument has a percent sign, a dollar sign or a line break |
| CommandLines.XdgExecValue | agent/internal/autostart/autostart_linux.go:492-503 | the value of any executable and arguments, and when it reads back |
| CommandLines.ExecStart | agent/internal/autostart/autostart_linux.go:259-263 | the unit's command line, split at spaces and unquoted, gives the executable and arguments back, and to that reader exactly then |
| ResponseFile.ResponseFileRoundTrip | client/scripts/ndkclangwrap.go:37-39 | the file gives the arguments back with slashes for backslashes exactly when each with a carriage return is quoted for another reason |
| ResponseFile.ReadsExactlyWithBoth | client/scripts/ndkclangwrap.go:37-62 | arguments without backslashes come back from a reader that takes single quotes too exactly when each bare one has neither a carriage return nor an apostrophe |
| ResponseFile.ShellReadersRoundTrip | client/scripts/ndkclangwrap.go:37-39 | so such a reader gets any arguments back, with slashes for backslashes, exactly then |
| ResponseFile.ApostropheBreaksShellReaders | client/scripts/ndkclangwrap.go:56-62 | an input of which it gets the line's end back |
| ResponseFile.QuoteRsp | client/scripts/ndkclangwrap.go:56-62 | the line of an argument, and that it reads as that argument with slashes exactly when a carriage return in it comes with another reason for quotes |
| ResponseFile.WriteResponseFile | client/scripts/ndkclangwrap.go:37-39 | the file has one line an argument, and when it reads back |
| LspciFields.FieldsAreOddParts | agent/internal/account/hwinfo_linux.go:101-112 | the loop's fields are the odd parts of its text split at quotes, one for each complete pair |
| LspciFields.ReadersAgree | agent/internal/app/gpus_linux.go:89-94 | field k of one reader is part 2k-1 of the other, moved on by the quotes in the slot |
| LspciFields.FieldCount | agent/internal/account/hwinfo_linux.go:94-114 | a field for each complete pair of quotes behind the slot |
| LspciFields.ReadersAgreeOnLines | agent/internal/app/gpus_linux.go:89-94 | with no quote in the slot both readers find the same fields and as many |
| LspciFields.GpuListWantsAnotherQuote | agent/internal/app/gpus_linux.go:91-94 | what each reader takes: three fields for the report, one more quote for the GPU list, and then the same vendor and device |
| LspciFields.QuoteInSlotSeparatesReaders | agent/internal/app/gpus_linux.go:90-94 | with any quotes in the slot and any fields behind it, one reader has the fields, the other a part of the slot, the gap before a field or an earlier field |
| LspciFields.FieldsReadWrong | agent/internal/app/gpus_linux.go:90-94 | on a line spaced as lspci prints it, the other has a field right exactly when the slot's quotes are even in number and the earlier field it takes says the same |
| LspciFields.RenderRoundTrip | agent/internal/account/hwinfo_linux.go:93-114 | a line printed from a slot and fields without quotes is read as these |
| LspciFields.EveryRestIsRendered | agent/internal/account/hwinfo_linux.go:93-114 | every text is printed from the fields read from it |
| LspciFields.SplitQuoted | agent/internal/account/hwinfo_linux.go:94-114 | splitQuoted gives the slot and the fields, and nothing without a space |
| Manifest.CollectsUnlessAmbiguous | scripts/sign_update_manifest.go:226-239 | collecting succeeds exactly when no asset lacks a key or a hash and no two share a key; the map then lists them all and nothing else |
| Manifest.OrderDoesNotMatter | scripts/sign_update_manifest.go:169-178 | the directory's order decides neither success nor the map |
| Manifest.EligibleFilesAreListed | scripts/sign_update_manifest.go:178-239 | every eligible file is under the key its name tells |
| Manifest.KeysAreOfFiles | scripts/sign_update_manifest.go:226-239 | every key is that of one eligible file, and of no other |
| Manifest.ErrorsAreTrue | scripts/sign_update_manifest.go:226-237 | an error names an asset without a key or a hash, or the second of two that share a key |
| Manifest.EligibleForOneApp | scripts/sign_update_manifest.go:157-182 | no file is eligible for both apps' manifests |
| Manifest.SystemIsTagged | scripts/sign_update_manifest.go:245-258 | a name's system is the one whose tag stands in it when no earlier one's does |
| Manifest.ArchIsNamed | scripts/sign_update_manifest.go:260-269 | its architecture is arm64 when that stands in it, else amd64 when either name of that does |
| Manifest.WindowsZip | scripts/sign_update_manifest.go:245-271 | the Windows archive's key |
| Manifest.MacosDmg | scripts/sign_update_manifest.go:245-271 | the macOS image's |
| Manifest.AndroidApk | scripts/sign_update_manifest.go:245-271 | the Android package's |
| Manifest.CollectPlatforms | scripts/sign_update_manifest.go:169-243 | the loop gives the map, or the first error |
| ScreenDiff.LumaIsWeighted | agent/internal/api/screen_diff.go:57-58 | a gray's luma is its own eight bits, and full red, green and blue have 76, 149 and 29 |
| ScreenDiff.LumaIsBt601 | agent/internal/api/screen_diff.go:57-58 | luma is the weighted sum of ITU-R BT.601, rounded down |
| ScreenDiff.LumaIsMonotone | agent/internal/api/screen_diff.go:57-58 | more of a channel is never darker |
| ScreenDiff.PercentInRange | agent/internal/api/screen_diff.go:9-22 | a result is between 0 and 100 |
| ScreenDiff.ZeroMeansNoChange | agent/internal/api/screen_diff.go:49-72 | 0 exactly when the sizes agree, there is a pixel, and none in every fourth column and row differs by more than 12 in luma |
| ScreenDiff.PercentIsSymmetric | agent/internal/api/screen_diff.go:33-72 | the order of the screenshots does not matter |
| ScreenDiff.ScreenChangePercent | agent/internal/api/screen_diff.go:23-73 | the percentage, 100 for another size, and the errors in their order |
| ScreenDiff.DiffRows | agent/internal/api/screen_diff.go:52-68 | ceil(w/4) times ceil(h/4) pixels are looked at, and the changed ones counted |
| AxisScaling.PixelToAbsoluteXY | agent/internal/api/mcp_mouse_absolute.go:58-76 | both axes stay in 0..32767, for any integers |
| AxisScaling.EndPoints | agent/internal/api/mcp_mouse_absolute.go:69-74 | the first pixel goes to 0, and the last to 32767 exactly when its product fits 64 bits |
| AxisScaling.Monotone | agent/internal/api/mcp_mouse_absolute.go:69-74 | where the scale is right, a later coordinate never goes further back, on the screen and off it |
| AxisScaling.MonotoneExactlyWithoutOverflow | agent/internal/api/mcp_mouse_absolute.go:73-73 | for every screen, over a range around it the scale never goes back exactly when both ends' products fit 64 bits, or, on one wider than the largest product, when the range starts behind the one coordinate whose product wraps to the last pixel |
| AxisScaling.PixelIsRecovered | agent/internal/api/mcp_mouse_absolute.go:69-74 | up to 32768 pixels, rounding up gives the pixel back, rounding down it or the one before |
| AxisScaling.InjectiveUpTo32768 | agent/internal/api/mcp_mouse_absolute.go:69-74 | no two pixels share a position exactly when there are at most 32768 |
| AxisScaling.ScaleIsRightExactly | agent/internal/api/mcp_mouse_absolute.go:69-74 | for all 64-bit coordinates and sizes the scale is that of unbounded integers exactly when the product fits 64 bits or wraps to the same side of the screen |
| AxisScaling.FirstOverflow | agent/internal/api/mcp_mouse_absolute.go:73-73 | the first coordinate too large goes to 0, and its negative to the right of the left edge |
| AxisScaling.FarLeftLandsRight | agent/internal/api/mcp_mouse_absolute.go:73-73 | a far negative coordinate goes to 32767 |

## Left out

- Operating system calls, process launch, HTTP routing, JSON, WebSocket, tsnet, cloud and license clients: only what they report to a modelled component is kept.
- Signatures, hashes, authentication and the guest route table: one-branch lookups or foreign code; a hash that fails is an entry without one.
- The Vibepollo and Punktfunk updaters, `awdl.go` and `wlan_streaming.go`: smaller or equal versions of modelled machines.
- The MCP absolute-click path: it injects input past the mouse hold.
- VirtualMonitor: the platforms without an agent virtual monitor, StopForService, the watcher process, log messages, and the timeouts of a client that waits to be taken or answered.
- Bench: monitors that are renamed while pinned, and changes of a backend's output by anybody else during a pin; which branch of SetStreamBackend downloads a backend first.
- MouseHold: the wrap-around of the 64-bit owner counter, which would take centuries of requests; when a socket is silent for 4 s is the environment's choice.
- GuestPairing: the cloud side of a revocation, saving the store to disk and its failures, and normalising a fingerprint's case.
- GuestPairing.NothingLeftBehind: asks that no step unbinds and none abandons; StepKeepsBindings and StepKeepsTrust show both to be exact, step by step.
- GuestMasks.LiveSharesMaskIsApplied: asks that no step unbinds, leaves a client unlimited or mixes roles; StepKeepsBindings, StepKeepsMask and StepKeepsRightMasks show each to be exact.
- MouseHold.RecordAgreesWithHost: asks that sections and injections take turns; MouseOrder.PartedExactly says for all runs when they agree on whether a button is held.
- UdpRelay: the two-minute read deadline is the environment's choice of a failed read; the forwarder's end leaves the relays to their own.
- SunshineUpdate: the DownloadInProgress, Progress and LastError fields of the download's display, and starting Sunshine after a first-run download; postponing and lowering the flag, two locked sections, are one step, for no entry point can begin between them.
- AgentUpdate: a successful install of a binary exits the process, which ends the run; two checks that overlap are two check steps.
- BridgeFraming: what the ATTACH and API relays and the clipboard's JSON do with their bytes, and the maps of sessions by bus.
- EngineLock: the eviction of a holder, which kills a process by the pid it reads, and the Windows lock (LockFileEx over the file's first byte), which would also keep other processes from reading; the model is the advisory lock of the Unix file. White space is ASCII.
- CommandLines.SystemdRoundTrip: this reader expands nothing and takes any character behind a backslash; SystemdStrictRoundTrip says for which arguments that is all systemd does. What systemd puts in place of a specifier or a variable is not part of this model.
- CommandLines.ExecStart: the same readers.
- CommandLines: the escaping of the desktop file's string values below the Exec key's own quoting and its percent field codes, which the code does not write.
- ResponseFile: which of its readers clang uses is not part of this model; both kinds are stated. A reader's rule for several backslashes before a quote, which never stand there.
- LspciFields: the shortening of GPU names behind both readers.
- Manifest: reading the directory, hashing and signing; that a directory's names are distinct is asked where it is needed.
- ScreenDiff: decoding PNG files, and the rounding of float64 in the quotient.
- AxisScaling: the other users of the scale.
- IcoFile: reading and writing files; the sort is written as an insertion sort, which StableSortIsUnique shows to be as good as any.
