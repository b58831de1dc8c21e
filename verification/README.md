# Verified models of AllRelay

This project models the concurrent session core of the AllRelay server and the streaming and codec
code around it, and proves what they promise, for all inputs and over all runs.

* **Session core** (`Session*.dfy`, `ServerController.dfy`, `ControllerRuns.dfy`, `Transport.dfy`). `SessionState` gives every
  critical section of `ServerController` as a function on the shared state; `ServerController` is the
  object, one method per section, each proved equal to that function. `SessionSystem` is the machine of
  all goroutines - starts, stops, Disconnect, Connect, stream workers, control reconnects - whose steps
  are these sections in any order, and `ControllerRuns` shows that the object carries it out.
  `SessionInvariant` is the inductive invariant: the generation, the
  connection and the done channel are an ownership token. `SessionEdits`, `SessionFrames`, `SessionLanes`,
  `SessionInstalls`, `SessionControl`, `SessionReconnects`, `SessionDisconnects` and `SessionConnects` show
  that every step keeps it; `SessionTheorems`, `SessionSafety`, `SessionLeaks` and `SessionWitness` draw
  the conclusions. `SessionContexts` adds who cancels which context; `SessionCancels`, `SessionEffects` and
  `SessionJoins` say what each call must bring about.
* **Display power and replay** (`Hub.dfy`, `HubRuns.dfy`, `HubHistory.dfy`): the hub refines a history of its
  calls that has none of its flags. `HubLink` shows that the hub the session core
  sees is this hub; `SessionDisplay` joins the two machines and cuts the end of a screen session in two.
* **Speaker queue** (`SpeakerQueue.dfy`).
* **Recording** (`Recorder.dfy`, `RecorderRuns.dfy`, `RecorderTimes.dfy`, `RecorderEndings.dfy`,
  `PacketMerger.dfy`).
* **Audio output** (`AudioBuf.dfy`, `AudioRegulator.dfy`, `AudioRegulatorRuns.dfy`).
* **Delay buffer** (`Clock.dfy`, `DelayBuffer.dfy`).
* **Control channel** (`ControlQueue.dfy`, `DeviceMessages.dfy`, `Receiver.dfy`).
* **Formats** (`AnnexB.dfy`, `Wire.dfy`, `Ogg.dfy`, `Bytes.dfy`).

Where the original changes state, the model is a class whose methods are proved against functions on
values, and the properties are proved of those functions and of runs of them. Outcomes that come from
outside - dials, writes, clocks, the resampler, the rescaling of timestamps - are parameters of the steps
or unspecified functions. `dafny verify dfyconfig.toml` checks everything.

Preconditions that the code needs and the model keeps: Connect calls do not overlap (the machine has one
Connect at a time, next to any number of other calls), and allocation does not fail.

What the proofs say that the comments in the code do not:

* A finished screen session can leave its control socket open for a while: when Disconnect has taken the
  connection away but has not closed it yet, `closeScreenControl` no longer finds its token. The exact
  condition, at the guard that fails, is `SessionSafety.ControlOutlivesExactly`;
  `SessionSafety.FinishedControlIsClosed` says what holds of the socket from then on.
* `FrameToAnnexB` takes length-prefixed data for a byte stream if its first length is 1 or 256 to 511, and
  `ConfigToAnnexB` and `FrameToAnnexB` index an empty slice on a zero length behind which nothing fits
  (`AnnexB.RoundTripExactly`, `AnnexB.PanicsExactly`).
* The C reader's timestamp mask is eight bits wider than the Go reader's and than the documented format
  (`Wire.TimestampsAgree`).
* The "try once more" branch of the speaker queue can be reached (`SpeakerQueue.RetryIsReachable`), but
  its drop cannot.
* A recording that is stopped before its origin is known fails, with nothing written, if and only if
  something is left but the next video packet (without video, the next audio packet) is not media - a
  config packet, say, with media queued behind it (`RecorderEndings.StoppedRecordingFails`, `RecorderEndings.MediaBehindConfigIsLost`).

## Model

| member | source | states |
|---|---|---|
| SessionTheorems.OneOpenWorker | allrelay-server/internal/web/controller.go:286-505 | In every interleaving of starts, stops, Disconnect, Connect and worker exits, a stream has at most one worker on the current connection whose done channel is open, and the stream's `done` is that channel |
| SessionTheorems.StatusIsTruthful | allrelay-server/internal/web/controller.go:299-342 | In every reachable state a stream is reported active if and only if some worker holds exactly its current generation and connection and has not run its exit section; then the session is connected and the stream running |
| SessionTheorems.StepKeeps | allrelay-server/internal/web/controller.go:90-751 | Every critical section of every goroutine keeps the ownership invariant: whoever holds a stream's current generation owns it, and the owner determines status, slot, context and done channel |
| SessionTheorems.RunKeeps | allrelay-server/internal/web/controller.go:90-751 | So does every run, of any length and interleaving |
| SessionSafety.NoForeignClose | allrelay-server/internal/web/controller.go:624-668 | No worker on its way out, the screen's unguarded CloseStream included, closes a socket that belongs to another worker |
| SessionSafety.WorkerStepClosesOwn | allrelay-server/internal/web/controller.go:544-662 | What a worker's step closes is its own socket, or the control socket its own session's reconnect dialled; it empties no media slot but its own, and only while its own socket is in it |
| SessionSafety.AlwaysDials | allrelay-server/internal/web/controller.go:405-430 | Whenever startStream reaches its dial decision the slot is already empty, so it always dials and never reuses an earlier worker's socket |
| SessionSafety.LaunchGetsFreshSocket | allrelay-server/internal/web/controller.go:452-497 | InstallStream never fails there, and a launched worker gets exactly the open socket its own start dialled, which no earlier worker had |
| SessionSafety.StaleStepsAreSilent | allrelay-server/internal/web/controller.go:336-342 | A start, stop, worker or metrics callback with an old generation changes neither the stream's record nor what is in its slot, and does not close that socket |
| SessionSafety.ReconnectClosesOwn | allrelay-server/internal/web/controller.go:678-734 | A control reconnect closes only sockets it dialled itself and never displaces another's from a control slot |
| SessionReconnects.CheckFindsEmptySlot | allrelay-server/internal/web/controller.go:680-686 | The CloseStream with which a reconnect in charge begins finds the control slot empty: it closes nothing |
| SessionSafety.ControlOutlivesExactly | allrelay-server/internal/web/controller.go:736-745 | When the screen worker gives up control after its reconnect is over, a control socket that the reconnect dialled survives if and only if it is open and the connection has already been taken away, which is when the token guard fails |
| SessionSafety.FinishedControlIsClosed | allrelay-server/internal/web/controller.go:736-751 | Once a screen worker has given up control and its reconnect is over, from then on, such a socket is closed if and only if the slot of its connection does not hold it, and it is held only while a Disconnect still owes that connection's Close |
| SessionWitness.ControlSocketMayOutliveBoth | allrelay-server/internal/web/controller.go:222-225 | That exception is real: a concrete run ends with worker and reconnect finished and their control socket open, the detached connection not closed yet |
| SessionSafety.RouteIsLive | allrelay-server/internal/web/controller.go:717-733 | The control route registered with the hub always writes to an open socket, the one in the current connection's control slot |
| SessionLeaks.NoSocketLeaks | allrelay-server/internal/web/controller.go:432-481 | In every reachable state every socket ever dialled is closed, or in the slot of the goroutine answering for it, or in the hands of the one about to install it |
| SessionLeaks.AllSocketsClosedAtRest | allrelay-server/internal/web/controller.go:222-235 | When nobody holds a dialled socket and every connection has been closed, every socket is closed |
| SessionInstalls.LaunchHires | allrelay-server/internal/web/controller.go:452-497 | The owner of the current generation that comes back from its dial is never turned away: its worker takes over generation, context and socket, and the slot it fills was empty |
| SessionInstalls.ControlIsFree | allrelay-server/internal/web/controller.go:624-630 | When a screen worker is launched, every earlier screen worker of the connection has finished and the control slot and token are free |
| SessionReconnects.StepMoves | allrelay-server/internal/web/controller.go:678-751 | Every reconnect step either leaves the control slots alone, takes its own socket out, or fills the empty slot of the session in charge |
| SessionCancels.ConnectUnlessDisconnected | allrelay-server/internal/web/controller.go:104-142 | A Connect goes up - connection current and open, the speaker's worker launched on it with the dialled socket - if and only if no Disconnect came between its claim of a generation and its publication, whatever else ran meanwhile; otherwise its connection and socket are closed and nothing is connected |
| SessionCancels.DisconnectSupersedes | allrelay-server/internal/web/controller.go:163-167 | In every reachable state a Disconnect gives a Connect in flight a later generation and cancels its context |
| SessionCancels.StaleWorkersAreCancelled | allrelay-server/internal/web/controller.go:186-199 | A worker's context is cancelled if and only if the worker has finished or its generation or connection is no longer the current one |
| SessionCancels.StaleDialsAreCancelled | allrelay-server/internal/web/controller.go:414-422 | So is the context of a start that is dialling: stopping, restarting and disconnecting cancel it, and nothing else does |
| SessionEffects.StopStops | allrelay-server/internal/web/controller.go:286-331 | stopStream on a connected session takes the stream out of service at once: new generation, inactive, its slot empty and the socket in it closed; the other streams are untouched |
| SessionEffects.StopEndsSession | allrelay-server/internal/web/controller.go:320-323 | stopStream of the screen leaves no screen session in the hub |
| SessionEffects.DisconnectClears | allrelay-server/internal/web/controller.go:171-214 | After Disconnect there is no session, connection, token or screen session and no active stream; every generation has moved on and one Disconnect is left with the connection to close |
| SessionEffects.StartProceeds | allrelay-server/internal/web/controller.go:350-430 | startStream on an active stream or without a session does nothing; otherwise it takes a new generation and waits for the last worker, or dials on the current connection |
| SessionEffects.StartWaitsForOpenWorker | allrelay-server/internal/web/controller.go:369-386 | If a worker of the stream is still open on this connection, it waits for exactly that one |
| SessionEffects.WorkingScreenHasSession | allrelay-server/internal/web/controller.go:624-630 | While the screen's worker in service works, the hub's screen session is active and its own |
| SessionJoins.DialEnds | allrelay-server/internal/web/controller.go:452-499 | A dial that comes back launches its worker, with the dialled socket open in the slot, if and only if its generation is still the stream's; otherwise the socket is closed and no stream changes |
| SessionJoins.DialFailureEnds | allrelay-server/internal/web/controller.go:436-449 | A failed dial cancels its context, and resets the stream only if its generation is still the stream's |
| SessionJoins.WaitEnds | allrelay-server/internal/web/controller.go:387-403 | A start that waited dials if and only if its generation is still the stream's |
| SessionJoins.ReportLands | allrelay-server/internal/web/controller.go:769-782 | A worker's report becomes the stream's metrics if and only if the worker is in service |
| SessionJoins.ExitEnds | allrelay-server/internal/web/controller.go:655-662 | A worker's exit takes its stream out of service, slot empty and without a hub session, if and only if the worker is in service; any other changes nothing |
| SessionJoins.ReconnectGoesOn | allrelay-server/internal/web/controller.go:678-733 | While its screen works, each step of a control reconnect leads on: dial, socket into the control slot, and registration as the hub's route |
| SessionJoins.LateDialIsClosed | allrelay-server/internal/web/controller.go:694-706 | A reconnect whose dial returns after its screen was stopped, restarted or disconnected closes its socket and fills no slot |
| SessionJoins.AsksExactly | allrelay-server/internal/web/controller.go:708-715 | A reconnect that has installed its socket goes on to the hub if and only if its screen is still in service; otherwise it closes the socket |
| SessionJoins.DisconnectJoins | allrelay-server/internal/web/controller.go:222-235 | A Disconnect that has returned has outlived every worker of the connection it detached |
| SessionJoins.StopNotesWorker | allrelay-server/internal/web/controller.go:316-334 | A stopStream takes note of the worker that is still open on the connection |
| SessionJoins.StopJoins | allrelay-server/internal/web/controller.go:332-342 | A stopStream that has returned has outlived the worker it took note of |
| ControllerRuns.Run | allrelay-server/internal/web/controller.go:90-751 | Over any run of critical sections in any order the object is in the state of the machine of all goroutines, so that everything proved of reachable states holds of its fields |
| ControllerRuns.Perform | allrelay-server/internal/web/controller.go:90-781 | Each critical section of the object, called with what its goroutine holds, does to the fields what the machine's step does to the shared state |
| Controller.ServerController.StopSection | allrelay-server/internal/web/controller.go:286-331 | stopStream's first section, with its whole effect on stream, context, hub and slot |
| Controller.ServerController.StartSection | allrelay-server/internal/web/controller.go:350-383 | startStream up to its wait or its dial: an active stream returns, a stopping one is claimed and waited for |
| Controller.ServerController.InstallSection | allrelay-server/internal/web/controller.go:452-499 | Ownership check, install and launch as one section |
| Controller.ServerController.ExitSection | allrelay-server/internal/web/controller.go:655-662 | A worker's exit clears the stream only if generation, connection and hub session are still its own |
| Controller.ServerController.RetireAll | allrelay-server/internal/web/controller.go:186-199 | The loop retires every stream and collects exactly the open done channels |
| Controller.ServerController.DisconnectSection | allrelay-server/internal/web/controller.go:162-214 | Disconnect's section: display restored first, all streams retired, token and connection dropped |
| Controller.ServerController.ReconnectInstallSection | allrelay-server/internal/web/controller.go:694-706 | After its dial a reconnect installs its socket if its token is still current, else closes it |
| Controller.ServerController.CloseScreenControlSection | allrelay-server/internal/web/controller.go:736-745 | Giving up control clears the token and closes the slot's socket, for the session in charge only |
| Controller.ServerController.ConnectPublishSection | allrelay-server/internal/web/controller.go:128-142 | A superseded or cancelled connect closes its connection; else it is published and the speaker launched |
| Transport.Connection.Close | allrelay-server/internal/transport/connection.go:258-298 | Close empties every slot under the lock, closes each socket it took, and does nothing the second time |
| Transport.Connection.TakeAll | allrelay-server/internal/transport/connection.go:268-288 | The sockets taken are exactly those in the slots |
| Transport.Connection.CloseOne | allrelay-server/internal/transport/connection.go:400-442 | CloseStream empties one slot and closes that socket only |
| Transport.Connection.CloseControl | allrelay-server/internal/transport/connection.go:363-373 | CloseControlConn closes its argument and clears the control slot only if it holds that very socket |
| Transport.Connection.Install | allrelay-server/internal/transport/connection.go:445-490 | InstallStream fills the slot and closes what it displaces; on a closed connection it closes its argument and fails |
| Transport.Connection.HasStreamOn | allrelay-server/internal/transport/connection.go:376-396 | HasStream tells whether the slot is filled |
| Transport.ConnectContext | allrelay-server/internal/transport/connection.go:131-157 | The collection loop keeps every dialled socket in its slot if all dials succeeded, and otherwise closes every one that was collected; either way conservation holds of what it leaves |
| Transport.SocketsConserved | allrelay-server/internal/transport/connection.go:258-490 | Over every run of locked sections and closes, in which installed sockets are newly dialled and CloseControlConn is given a control socket installed before, each socket handed over is in exactly one slot, on its way to being closed, or closed; after Close no slot is filled again |
| Transport.NothingLeaks | allrelay-server/internal/transport/connection.go:258-298 | A closed connection whose pending closes are done has closed every socket it was ever handed |
| Transport.SectionsCompose | allrelay-server/internal/transport/connection.go:363-490 | The effect of a whole operation is its locked section followed by the closes it owes |
| Transport.CloseStreamEffect | allrelay-server/internal/transport/connection.go:400-442 | Closing a stream empties its slot, closes what was in it, and touches nothing else |
| Transport.CloseAllEffect | allrelay-server/internal/transport/connection.go:258-298 | Closing a connection empties every slot and closes all that was in them, once |
| Transport.CloseControlEffect | allrelay-server/internal/transport/connection.go:363-373 | Closing a control socket closes that very socket and empties the control slot only if it still holds it |
| Transport.InstallEffect | allrelay-server/internal/transport/connection.go:445-490 | Installing fills the slot and closes the socket displaced; a closed connection closes the new socket instead |
| ScreenHub.Hub.BeginScreenSession | allrelay-server/internal/web/hub.go:275-299 | A new session ends an active one first, attempting to restore the display and closing the old route |
| ScreenHub.Hub.SetScreenSession | allrelay-server/internal/web/hub.go:303-336 | Only the active generation's header is taken; it resets the replay cache and sends OFF through the route |
| ScreenHub.Hub.EndScreenSessionBegin | allrelay-server/internal/web/hub.go:340-354 | Ending detaches exactly the active route and empties the cache, for the active generation only |
| ScreenHub.Hub.EndScreenSessionFinish | allrelay-server/internal/web/hub.go:356-358 | The display is restored through the detached route before that is closed |
| ScreenHub.Hub.RestoreDisplay | allrelay-server/internal/web/hub.go:374-386 | ON is attempted only while the display is off, and only its success clears the flag |
| ScreenHub.Hub.SendDisplayOff | allrelay-server/internal/web/hub.go:447-461 | OFF is sent at most once successfully per route |
| ScreenHub.Hub.RegisterControlRoute | allrelay-server/internal/web/hub.go:391-412 | A registration of the active generation replaces and closes the previous route and replays OFF |
| ScreenHub.Hub.ClearControlRoute | allrelay-server/internal/web/hub.go:414-426 | Only the current route is cleared, and then closed |
| ScreenHub.Hub.BroadcastScreenFrame | allrelay-server/internal/web/hub.go:487-512 | Frames of other generations are refused; configs and a small enough key frame are kept |
| HubRuns.PowerFlagIsTheLog | allrelay-server/internal/web/hub.go:106-110 | Over every run with arbitrarily failing writes, `displayPowerOff` holds exactly if the last successful automatic write was OFF, and no route carries two successful OFFs |
| HubRuns.OffOnlyInSession | allrelay-server/internal/web/hub.go:303-336 | An automatic OFF is written only in an active session whose header has arrived, on its own current route |
| HubRuns.EndingAttemptsOn | allrelay-server/internal/web/hub.go:275-386 | Each path that ends a session while the display is off attempts ON once, on the still open route that was active; the duty ends exactly if that succeeds |
| HubRuns.EndTakesActiveRoute | allrelay-server/internal/web/hub.go:340-354 | EndScreenSession takes the active route away and leaves a stale caller's hub untouched |
| HubRuns.DutySurvives | allrelay-server/internal/web/hub.go:370-386 | The duty to turn the display on survives route replacement, later sessions and failures until an ON succeeds |
| HubRuns.ReplayCacheIsTheSpan | allrelay-server/internal/web/hub.go:487-512 | The cache is the last four configs and the latest key frame within the limit among the frames accepted since the latest header or begin, all of the active generation; nothing when inactive |
| HubRuns.StaleCallsAreIgnored | allrelay-server/internal/web/hub.go:303-412 | Headers, frames, registrations and ends of other generations change nothing |
| HubHistory.HubIsItsHistory | allrelay-server/internal/web/hub.go:275-512 | The hub refines a history without flags - sessions begun, the header, route and frames of the one that is on, the writes attempted: over every run and any outcome of the writes, active, header, desired and actual power, route with its OFF mark, log and frames are what the history of the same calls says |
| HubHistory.OffIsAttempted | allrelay-server/internal/web/hub.go:319-328 | In every reachable state with an active session, its header and a route, an OFF has been attempted on that very route, and if one succeeded there the route is marked and the display known to be off |
| HubHistory.OffIsWrittenWhenDue | allrelay-server/internal/web/hub.go:303-412 | An accepted header writes OFF through the route unless one has succeeded there, a route registered after the header has OFF written at once, and nothing else writes OFF |
| HubHistory.AnswersAreTruthful | allrelay-server/internal/web/hub.go:275-512 | Calls are accepted exactly from the session that is on; a registration fails exactly with its write, an end exactly if a due ON has no route or fails |
| SessionDisplay.PowerWritesReachLiveSockets | allrelay-server/internal/web/hub.go:303-483 | In every interleaving of the whole session core and the hub, with other goroutines running between the two halves of an end, every automatic power write goes to a socket that is open and in the current control slot |
| SessionDisplay.EndAttemptsOnLiveSocket | allrelay-server/internal/web/hub.go:356-386 | However an end is overtaken between its halves, while the display is off it attempts ON on the route that was active, whose socket is still open and current; the duty ends exactly if the write succeeds |
| SessionDisplay.LaunchFindsHubIdle | allrelay-server/internal/web/controller.go:624-630 | When a screen worker is launched the hub has no active session to end |
| SessionDisplay.JointRunKeeps | allrelay-server/internal/web/hub.go:275-483 | Hub and session core stay linked over every joint run: the same lifecycle, each route on the socket it was made for |
| HubLink.BeginAgrees | allrelay-server/internal/web/hub.go:275-299 | The hub the session core sees begins sessions as the hub does |
| HubLink.EndAgrees | allrelay-server/internal/web/hub.go:340-368 | Both halves of EndScreenSession are the session core's end |
| HubLink.RegisterAgrees | allrelay-server/internal/web/hub.go:391-412 | A route is registered in one view exactly if it is in the other, with the same socket |
| SpeakerQueue.Pipeline.Offer | allrelay-server/internal/web/controller.go:979-981 | The first select enqueues if there is room |
| SpeakerQueue.Pipeline.MakeRoom | allrelay-server/internal/web/controller.go:982-986 | A full queue loses its oldest frame, counted as dropped |
| SpeakerQueue.Pipeline.RetryOnce | allrelay-server/internal/web/controller.go:987-994 | The innermost select |
| SpeakerQueue.Pipeline.Write | allrelay-server/internal/web/controller.go:896-915 | A failed write makes the sender drain the queue |
| SpeakerQueue.QueueIsTheLatest | allrelay-server/internal/web/controller.go:976-995 | The queue is always a contiguous run of at most five of the most recently enqueued frames, whose timestamps are 20 ms apart |
| SpeakerQueue.NeverBlocksNeverDropsNew | allrelay-server/internal/web/controller.go:983-994 | The blocking send never blocks and the innermost drop is unreachable |
| SpeakerQueue.RetryIsReachable | allrelay-server/internal/web/controller.go:983-994 | A full queue that the sender empties between two selects leads to the innermost branch, which then enqueues |
| SpeakerQueue.OnlyTheOldestIsDropped | allrelay-server/internal/web/controller.go:983-986 | Only the oldest queued frame is ever dropped |
| SpeakerQueue.SentIncreases | allrelay-server/internal/web/controller.go:895-917 | Transmitted timestamps strictly increase |
| SpeakerQueue.ProducedIsAccountedFor | allrelay-server/internal/web/controller.go:877-918 | Frames produced equal frames sent plus dropped plus queued plus in flight, in hand or discarded after a write error, with no frame in two of these |
| SpeakerQueue.RoomDropsNothing | allrelay-server/internal/web/controller.go:979-994 | A frame offered to a queue with room is enqueued and nothing dropped; a full queue loses its oldest; every loss is counted |
| SpeakerQueue.NothingSentAfterError | allrelay-server/internal/web/controller.go:896-915 | After a failed write nothing more is sent, whatever the capture loop does |
| SpeakerQueue.WritesDecide | allrelay-server/internal/web/controller.go:896-915 | A frame counts as sent exactly when its write succeeds |
| Recorder.RecorderObject.VideoSinkPush | scrcpy/app/src/recorder.c:602-637 | A stopped recorder refuses packets, a live one queues them |
| Recorder.RecorderObject.AudioSinkPush | scrcpy/app/src/recorder.c:691-727 | The same for audio |
| Recorder.RecorderObject.ProcessHeaderTake | scrcpy/app/src/recorder.c:199-232 | The header takes the first packet of each stream that has a config |
| Recorder.RecorderObject.TakePackets | scrcpy/app/src/recorder.c:303-350 | One packet per stream is taken; the loop ends when stopped with nothing left |
| Recorder.RecorderObject.SetOrigin | scrcpy/app/src/recorder.c:365-387 | The origin is the least timestamp of the streams recorded, or the loop waits, or gives up |
| Recorder.RecorderObject.WriteVideoStream | scrcpy/app/src/recorder.c:106-121 | A timestamp not above the last one is moved just past it |
| Recorder.RecorderObject.RecordVideo | scrcpy/app/src/recorder.c:391-411 | A video packet is written once its successor gives its duration |
| Recorder.RecorderObject.RecordAudio | scrcpy/app/src/recorder.c:413-426 | An audio packet is written at once |
| Recorder.RecorderObject.HandlePackets | scrcpy/app/src/recorder.c:352-427 | One turn of the loop after the mutex is released |
| Recorder.RecorderObject.FinishFile | scrcpy/app/src/recorder.c:429-448 | The last video packet gets a fixed duration and its failure is no error |
| RecorderRuns.CompleteRecording | scrcpy/app/src/recorder.c:286-459 | A recording that completes without error gave the muxer exactly the media packets accepted after the header, per stream, once and in order, with every write but perhaps the last video one successful |
| RecorderRuns.TimestampsIncrease | scrcpy/app/src/recorder.c:107-121 | Written timestamps strictly increase in each stream, whatever the input and the rescaling |
| RecorderRuns.DurationsTelescope | scrcpy/app/src/recorder.c:395-411 | Video durations before rescaling telescope to the last minus the first timestamp; the last packet lasts 100000 |
| RecorderTimes.StampsAreScaledTimes | scrcpy/app/src/recorder.c:106-121 | In every run each written timestamp, of either stream, is the scaled time since the one origin, or one more than its predecessor where that would not increase |
| RecorderTimes.RisingTimesAreKept | scrcpy/app/src/recorder.c:111-119 | Scaled times that increase are written unchanged |
| RecorderTimes.OriginIsEarliest | scrcpy/app/src/recorder.c:365-387 | The origin is the time of a first accepted media packet: of the earlier of the two streams' first ones until the recorder is stopped, never after the video's first; with one stream, of its first |
| RecorderTimes.OriginStays | scrcpy/app/src/recorder.c:287-366 | Once known the origin never changes |
| RecorderTimes.TurnFindsOrigin | scrcpy/app/src/recorder.c:365-387 | A turn finds an origin exactly if it has media at hand of both recorded streams, of the only one, or of the video of a stopped recorder |
| RecorderTimes.EveryMediaIsWritten | scrcpy/app/src/recorder.c:193-459 | A complete recording holds every media packet its sinks accepted, per stream, once and in order, the header having taken only configs; a recorded video had its config |
| RecorderTimes.HeaderWaitsForStreams | scrcpy/app/src/recorder.c:193-232 | Unless stopped, the file is begun only when every stream is set up and has shown the config it needs |
| RecorderTimes.HeaderTakesHeads | scrcpy/app/src/recorder.c:205-232 | The header takes one packet of the video and, if its codec has a config, one of the audio, and gives up only when stopped before any video came |
| RecorderTimes.HeaderNeedsConfigs | scrcpy/app/src/recorder.c:234-282 | The file goes on exactly if these are configs and the header was written |
| RecorderTimes.RecorderGoesOn | scrcpy/app/src/recorder.c:199-316 | The thread is never stuck with something to do: once stopped it always goes on, and it takes a packet or the header whenever it may |
| RecorderTimes.TakingTakesAll | scrcpy/app/src/recorder.c:332-346 | Each free hand is filled if its queue can; the loop ends exactly when stopped with nothing left |
| RecorderTimes.SinksAcceptUntilStopped | scrcpy/app/src/recorder.c:602-727 | A sink accepts its packet exactly until the recorder is stopped |
| RecorderTimes.OnlyTrailerCompletes | scrcpy/app/src/recorder.c:448-459 | A recording completes exactly when its trailer is written |
| RecorderTimes.FailedWriteIsLast | scrcpy/app/src/recorder.c:398-426 | A failed write is the last of its turn and ends the recording |
| RecorderEndings.FailsOnlyByGivingUp | scrcpy/app/src/recorder.c:353-393 | Once the header is written, a recording whose writes succeed fails at a step if and only if that step is a turn of the loop, stopped without an origin, whose packets at hand give none |
| RecorderEndings.StoppedRecordingFails | scrcpy/app/src/recorder.c:307-393 | Over every run on from a stop: when the thread has ended, a recording whose writes succeed has failed if and only if, at the stop, it had no origin and something left, but no media as the next video packet nor, without video, as the next audio packet |
| RecorderEndings.GivingUpLosesAll | scrcpy/app/src/recorder.c:374-384 | In every run a turn that gives up leaves a file without a packet, and all the media accepted after the header is still queued |
| RecorderEndings.MediaBehindConfigIsLost | scrcpy/app/src/recorder.c:353-384 | Such a run: a second config packet with a media packet queued behind it, then a stop; the recording fails and the media is never written |
| RecorderRuns.ConfigsHeadRecordedVideo | scrcpy/app/src/packet_merger.c:20-52 | Behind the merger a complete recording holds each media packet with the bytes of the config right before it in front |
| PacketMerger.Merger.MergePacket | scrcpy/app/src/packet_merger.c:20-52 | A config is kept, replacing an older one, and put in front of the next media packet |
| PacketMerger.MergeHeadsMedia | scrcpy/app/src/packet_merger.c:20-52 | Packet by packet, the merger's output is the input with each media packet headed by the config right before it |
| AudioBuf.Ring.constructor | scrcpy/app/src/util/audiobuf.c:8-28 | A new ring is empty and has the capacity asked for |
| AudioBuf.Ring.CountReadable | scrcpy/app/src/util/audiobuf.h:62-67 | The modular distance of the cursors is the number of samples held |
| AudioBuf.Ring.Read | scrcpy/app/src/util/audiobuf.c:35-77 | A read takes the oldest samples, as many as there are, across the end of the array |
| AudioBuf.Ring.Write | scrcpy/app/src/util/audiobuf.c:79-118 | A write appends as many samples as fit and disturbs none |
| AudioBuf.WindowGrow | scrcpy/app/src/util/audiobuf.c:99-114 | Filling the free cells behind the window extends it by exactly those samples |
| AudioBuf.WindowDrop | scrcpy/app/src/util/audiobuf.c:56-74 | Where a read's samples lie, and that advancing the tail drops exactly them |
| AudioRegulator.Regulator.PullInto | scrcpy/app/src/audio_regulator.c:63-119 | The output is silence until the target is first buffered, then the oldest samples padded with silence to the requested length |
| AudioRegulator.Regulator.WriteSamples | scrcpy/app/src/audio_regulator.c:198-238 | Undisturbed, a push leaves the newest samples that fit: the oldest give way |
| AudioRegulator.Regulator.Replace | scrcpy/app/src/audio_regulator.c:215-236 | With the ring full, as many old samples are dropped as remain to be written, and all of these are written |
| AudioRegulator.Regulator.SkipAbove | scrcpy/app/src/audio_regulator.c:258-271 | Above the threshold only the newest samples up to it stay |
| AudioRegulator.Regulator.PushSamples | scrcpy/app/src/audio_regulator.c:198-286 | The whole push, from the resampled samples to the threshold |
| AudioRegulator.AssertionsHold | scrcpy/app/src/audio_regulator.c:224-267 | For every interleaving of pulls between the phases of a push, the three assertions on skipped and rewritten sample counts hold |
| AudioRegulator.SamplesAreConserved | scrcpy/app/src/audio_regulator.c:198-284 | Samples written are, in order, those played or dropped and then those buffered, never more than the capacity |
| AudioRegulator.PlayerOutput | scrcpy/app/src/audio_regulator.c:92-118 | Every output has exactly the requested length, and the samples played are a FIFO subsequence of those written |
| AudioRegulator.PushEndsBelowThreshold | scrcpy/app/src/audio_regulator.c:240-284 | A push that passes the threshold check leaves at most max_buffered_samples |
| AudioRegulatorRuns.PushWritesAll | scrcpy/app/src/audio_regulator.c:198-238 | However pulls interleave, a push writes every sample that arrived (of more than the ring holds, the last ones), after some silence if there was a gap |
| AudioRegulatorRuns.RetryDropsOldest | scrcpy/app/src/audio_regulator.c:207-229 | Under the mutex exactly as many of the oldest samples are dropped as there is no room for |
| AudioRegulatorRuns.SkipDropsOldest | scrcpy/app/src/audio_regulator.c:258-271 | Above the threshold the oldest samples are dropped, and only those above it |
| AudioRegulatorRuns.LocksOnlyAbove | scrcpy/app/src/audio_regulator.c:258-264 | A push goes for the mutex again exactly if the buffer is above its threshold |
| AudioRegulatorRuns.OnlyPushesDrop | scrcpy/app/src/audio_regulator.c:92-238 | No other action ever drops a sample |
| AudioRegulatorRuns.ThresholdIsLiteral | scrcpy/app/src/audio_regulator.c:240-256 | The threshold is the target plus a tenth and 60 ms once playback has started, before that the target plus 10 ms |
| AudioRegulatorRuns.GapFillsToTarget | scrcpy/app/src/audio_regulator.c:144-163 | After a discontinuity silence is written for what buffered and incoming samples lack of the target |
| AudioRegulatorRuns.GapReachesTarget | scrcpy/app/src/audio_regulator.c:144-163 | Undisturbed, that brings the buffer to its target |
| AudioRegulatorRuns.SilenceUntilTarget | scrcpy/app/src/audio_regulator.c:73-90 | Over every run, until playback has started every output is silence, and the output that starts it has all samples asked for or at least the target |
| AudioRegulatorRuns.PullTakesAll | scrcpy/app/src/audio_regulator.c:73-119 | A pull gives silence exactly before playback below the target; otherwise it takes the oldest samples there are, and counts what it lacks |
| AudioRegulatorRuns.FirstPushReceives | scrcpy/app/src/audio_regulator.c:286-286 | Missing samples are counted from the end of the first push on |
| AnnexB.SplitNALs | allrelay-server/internal/video/annexb.go:49-119 | The loops return exactly the specified pieces, and whether the first begins where the data does |
| AnnexB.FindStart | allrelay-server/internal/video/annexb.go:72-92 | The search ends at the next start code, or at the end; it never looks at the last three bytes |
| AnnexB.NextStart | allrelay-server/internal/video/annexb.go:72-92 | No start code is skipped |
| AnnexB.FrameToAnnexB | allrelay-server/internal/video/annexb.go:163-187 | The conversion of a frame, a panic included |
| AnnexB.ConfigToAnnexB | allrelay-server/internal/video/annexb.go:129-158 | The conversion of a config is the same function |
| AnnexB.PanicsExactly | allrelay-server/internal/video/annexb.go:172-172 | The conversion panics exactly on a zero length behind which nothing fits |
| AnnexB.ZeroLengthPanics | allrelay-server/internal/video/annexb.go:172-172 | Four zero bytes are such an input |
| AnnexB.SplitCoversTheStream | allrelay-server/internal/video/annexb.go:58-98 | On any Annex B input the pieces each begin with a start code and split no further, and their concatenation is the input |
| AnnexB.StreamSplits | allrelay-server/internal/video/annexb.go:58-98 | A byte stream of NAL units behind start codes of three or four bytes in any mix splits into exactly these, and is left as it is by the conversions |
| AnnexB.StartCodeAddedOnce | allrelay-server/internal/video/annexb.go:33-40 | Data that has a start code keeps it, any other gets one, once |
| AnnexB.UnframedGetsStartCode | allrelay-server/internal/video/annexb.go:163-187 | Data with neither a start code nor a length that fits gets one start code in front |
| AnnexB.LooksLikeAnnexB | allrelay-server/internal/video/annexb.go:15-26 | Length-prefixed data is taken for Annex B exactly when the first length is 1 or 256 to 511 |
| AnnexB.AvccSplits | allrelay-server/internal/video/annexb.go:99-113 | Length-prefixed NAL units split into themselves |
| AnnexB.RoundTripExactly | allrelay-server/internal/video/annexb.go:163-187 | Length-prefixing, FrameToAnnexB and SplitNALs return the NAL units with 4-byte start codes if and only if the first length is neither 1 nor 256 to 511, or all lengths are 1 |
| AnnexB.OneByteNalBreaks | allrelay-server/internal/video/annexb.go:163-187 | A NAL unit of one byte followed by a longer one does not come back |
| DeviceMessages.DeserializeMore | scrcpy/app/src/device_msg.c:10-78 | More bytes never change a decision already possible |
| DeviceMessages.SerializeOne | scrcpy/app/src/device_msg.c:17-73 | A message in the wire format is read back, whatever follows it |
| DeviceMessages.Examples | scrcpy/app/src/device_msg.c:17-73 | A message of each type byte by byte |
| DeviceMessages.UnknownExactly | scrcpy/app/src/device_msg.c:74-77 | Unknown is exactly a first byte above 2 |
| DeviceMessages.FullExactlyIfOversized | scrcpy/app/src/device_msg.h:9-11 | A full buffer holds no complete message exactly if it begins with a message larger than the buffer |
| DeviceMessages.OversizedNeverParses | scrcpy/app/src/device_msg.c:24-27 | Such a message never fits, whatever arrives |
| Receiver.MessageReceiver.ProcessMsgs | scrcpy/app/src/receiver.c:160-182 | The loop processes exactly the messages at the head and returns the bytes consumed, or -1 at an unknown type |
| Receiver.MessageReceiver.Append | scrcpy/app/src/receiver.c:195-203 | net_recv appends to the pending bytes |
| Receiver.MessageReceiver.Shift | scrcpy/app/src/receiver.c:211-215 | memmove keeps exactly the bytes not consumed |
| Receiver.MessageReceiver.Receive | scrcpy/app/src/receiver.c:193-216 | One turn of the loop |
| Receiver.RestIsSuffix | scrcpy/app/src/receiver.c:161-182 | What is left of a parse is the end of what was parsed |
| Receiver.ParseMore | scrcpy/app/src/receiver.c:161-182 | A parse can stop anywhere and go on with more bytes |
| Receiver.ChunkIndependence | scrcpy/app/src/receiver.c:185-216 | However the stream is cut, the messages processed are those of the whole stream up to the first unknown type, and the bytes kept are exactly the unparsed suffix |
| Receiver.MessagesArrive | scrcpy/app/src/receiver.c:185-216 | Messages sent in any chunks arrive as they were sent, in order |
| Receiver.BeginningIsKept | scrcpy/app/src/receiver.c:185-216 | Messages followed by the beginning of another, in any chunks: the messages are processed and exactly the beginning is kept |
| Receiver.UnknownTypeEndsStream | scrcpy/app/src/receiver.c:160-216 | An unknown type ends the stream in error, in any chunks, with exactly the messages before it processed |
| Receiver.RoomUnlessOversized | scrcpy/app/src/receiver.c:194-196 | At the start of an iteration the buffer is not full, unless the device sent a message larger than the buffer |
| Receiver.RoomForMessages | scrcpy/app/src/receiver.c:161-216 | If every message sent fits into the buffer, then however the bytes are cut and however far the last message has come, the buffer is not full at the start of an iteration and the messages processed are the first of those sent |
| ControlQueue.Push | scrcpy/app/src/controller.c:96-126 | A message is refused exactly if it is droppable and at least 60 are queued |
| ControlQueue.Controller.PushMsg | scrcpy/app/src/controller.c:96-126 | Queue, result and wakeup of a push |
| ControlQueue.Controller.RequestResize | scrcpy/app/src/controller.c:129-140 | A resize overwrites a pending one and signals only when none was |
| ControlQueue.Controller.RequestStop | scrcpy/app/src/controller.c:240-245 | Stop is set and signalled |
| ControlQueue.Controller.TakeNext | scrcpy/app/src/controller.c:169-196 | Under the mutex the consumer waits, stops, or takes the resize before the queue |
| ControlQueue.Controller.AfterMsg | scrcpy/app/src/controller.c:203-211 | A failure ends the loop; only an unserializable message is an error |
| ControlQueue.NoLostWakeup | scrcpy/app/src/controller.c:96-140 | The consumer never sleeps unsignalled while a message, a resize or a stop is pending, although the overflow branch signals nobody |
| ControlQueue.SentInOrder | scrcpy/app/src/controller.c:163-212 | The queued messages sent are a prefix of those accepted; the rest is in hand or queued |
| ControlQueue.OnlyDroppablesRefused | scrcpy/app/src/controller.c:103-121 | Over every run no refused message is a UHID_CREATE or a UHID_DESTROY, either is accepted in every state, and any other is refused if and only if at least 60 are queued |
| ControlQueue.ResizeGoesFirst | scrcpy/app/src/controller.c:179-196 | A pending resize is taken before any queued message, with its own size |
| ControlQueue.EndsExactly | scrcpy/app/src/controller.c:175-211 | The consumer ends exactly when it finds the stop, or when a message could not be serialized (an error) or met the end of the stream (none) |
| ControlQueue.StopsAfterThisMessage | scrcpy/app/src/controller.c:169-178 | Once stopped, the consumer sends at most the message in its hands |
| ControlQueue.LatestResizeWins | scrcpy/app/src/controller.c:129-196 | A pending resize is the latest request; once none is pending the latest was taken; resizes go out in order |
| Wire.Demuxer.Run | allrelay-server/internal/protocol/demuxer.go:49-91 | The loop calls registered handlers with what it reads and ends cleanly only at a packet boundary |
| Wire.ReadsBack | allrelay-server/internal/protocol/packet.go:128-178 | A written packet is read back with its header and payload, and the reader stands behind it |
| Wire.WireRoundTrip | allrelay-server/internal/protocol/packet.go:128-178 | Packets and session headers in any order, read by Run, end cleanly and reach each registered handler as exactly its stream's packets and sessions in order, a session with its id, width and height and an empty payload |
| Wire.RunExactly | allrelay-server/internal/protocol/demuxer.go:49-91 | On any input Run delivers exactly the whole frames at its head to the registered handlers, and ends without error if and only if nothing is left behind them: a header or payload cut short or a size above 16 MiB is an error |
| Wire.EveryInputIsFrames | allrelay-server/internal/protocol/demuxer.go:49-91 | Every input is such a sequence of whole frames with such a rest |
| Wire.CutPacketFails | allrelay-server/internal/protocol/packet.go:160-178 | A packet cut short anywhere behind its header fails to be read |
| Wire.PacketExample | allrelay-server/internal/audio/ogg.go:138-153 | A packet byte by byte |
| Wire.SessionExample | allrelay-server/internal/protocol/packet.go:148-155 | A session header byte by byte |
| Wire.AccessorsReadBack | allrelay-server/internal/protocol/packet.go:79-96 | Session, config and key-frame flags and PTS are what the writer was given |
| Wire.SessionsAgree | scrcpy/app/src/demuxer.c:108-126 | Go and C take the same headers for sessions and read the same size |
| Wire.ReadersAgree | scrcpy/app/src/demuxer.c:128-169 | On every non-empty packet the Go reader accepts, the C reader finds the same stream, flags and payload |
| Wire.TimestampsAgree | scrcpy/app/src/demuxer.c:157-161 | They find the same timestamp exactly if the bits between their masks are clear |
| Wire.TimestampsDiffer | scrcpy/app/src/demuxer.c:157-161 | On 2^53 they differ: the Go reader finds zero |
| Wire.CRoundTrip | scrcpy/app/src/demuxer.c:289-326 | The C reader gets every session and every non-empty packet written, in order, with the PTS of every non-config one |
| Wire.EmptyPacketFailsInC | scrcpy/app/src/demuxer.c:140-146 | An empty packet, which the Go reader takes, ends the C reader in error |
| Clock.ClockObject.UpdateWith | scrcpy/app/src/clock.c:18-32 | One update, with C's truncating division |
| Clock.OffsetBetween | scrcpy/app/src/clock.c:18-32 | Over any run of updates the offset stays between the least and greatest offsets observed |
| Clock.ConstantIsExact | scrcpy/app/src/clock.c:18-32 | A constant offset is estimated exactly, for good |
| Clock.UpdateIsWeightedMean | scrcpy/app/src/clock.c:18-32 | Thirty-two times the new offset is the weighted sum of old offset and observation cut towards zero, the observation's weight falling from thirty-two parts to one |
| Clock.DistanceShrinks | scrcpy/app/src/clock.c:18-32 | With a full range an update leaves thirty-one parts of the distance up to rounding, and one observation moves the estimate by a thirty-second of its distance |
| Clock.SettlesAfterJump | scrcpy/app/src/clock.c:18-32 | After the offset has jumped the estimate comes nearer with every update until it is within 31, and stays there |
| Clock.NoOverflow | scrcpy/app/src/clock.c:23-27 | The 64-bit arithmetic of an update does not overflow for offsets below 2^57 |
| DelayBuffer.Buffer.SinkPush | scrcpy/app/src/delay_buffer.c:201-245 | A frame updates the clock and is queued, or goes past the queue if it is the first |
| DelayBuffer.Buffer.TakeNext | scrcpy/app/src/delay_buffer.c:53-83 | A popped frame waits for the earlier of its clock time and its pop time, each plus the delay |
| DelayBuffer.Buffer.WaitReturned | scrcpy/app/src/delay_buffer.c:72-91 | A wakeup recomputes the deadline; a stop drops the frame |
| DelayBuffer.OutputsAreFifo | scrcpy/app/src/delay_buffer.c:47-128 | Outputs are a FIFO prefix of the accepted inputs without the first frame where that is asked to go past the queue; it and no other goes past |
| DelayBuffer.WaitsAreBounded | scrcpy/app/src/delay_buffer.c:67-79 | Every popped frame finds an initialised clock and is due at most `delay` after its pop |
| DelayBuffer.DeadlineIsExact | scrcpy/app/src/delay_buffer.c:63-83 | The deadline is `delay` after the timestamp as the clock reads it then, or `delay` after the pop, exactly the earlier |
| DelayBuffer.FramesLeaveAtDeadline | scrcpy/app/src/delay_buffer.c:72-112 | A frame goes to the sinks exactly when its wait ends by the deadline in a buffer not stopped; a session goes at once |
| DelayBuffer.AcceptsUntilStopped | scrcpy/app/src/delay_buffer.c:201-262 | Pushes are accepted exactly until the buffer is stopped |
| DelayBuffer.StoppedGivesOutOneMore | scrcpy/app/src/delay_buffer.c:86-128 | Once stopped it takes nothing in and gives out no more than the item the sinks are taking |
| DelayBuffer.ClockSeesEveryFrame | scrcpy/app/src/delay_buffer.c:212-218 | The clock is fed by every accepted frame and nothing else; its range is their number up to thirty-two |
| DelayBuffer.ClockStaysInRange | scrcpy/app/src/delay_buffer.c:212-214 | In every state of the buffer the clock's offset lies between the least and greatest offsets pushed |
| Ogg.OggDemuxer.SplitPackets | allrelay-server/internal/audio/ogg.go:112-125 | The loop cuts the data at every lacing value below 255 |
| Ogg.OggDemuxer.TotalLength | allrelay-server/internal/audio/ogg.go:90-94 | The data length is the sum of the lacing values |
| Ogg.OggDemuxer.ReadPageFrom | allrelay-server/internal/audio/ogg.go:68-128 | One page: its raw bytes, its packets, or the failure |
| Ogg.OggDemuxer.Next | allrelay-server/internal/audio/ogg.go:34-55 | Queued packets first, then the next page |
| Ogg.PageReadsBack | allrelay-server/internal/audio/ogg.go:62-64 | ReadPage returns the page's bytes unchanged, with its packets |
| Ogg.OggRoundTrip | allrelay-server/internal/audio/ogg.go:34-128 | Packets laced into any pages come back in order by repeated NextPacket, and then the end |
| Ogg.PacketlessPageEndsEarly | allrelay-server/internal/audio/ogg.go:48-50 | A page in which no packet ends makes NextPacket report the end, whatever follows |
| Ogg.PacketlessExactly | allrelay-server/internal/audio/ogg.go:112-125 | That is a page whose lacing values are all 255 |
| Ogg.FailsExactly | allrelay-server/internal/audio/ogg.go:62-128 | Reading fails exactly on an input that is not empty and does not begin with a whole page |
| Ogg.CutPageFails | allrelay-server/internal/audio/ogg.go:68-110 | A page cut short anywhere fails |
| Ogg.CutEndsInError | allrelay-server/internal/audio/ogg.go:34-128 | Behind whole pages a cut one ends the reading in error, after all the packets before it |
| Ogg.ExamplePage | allrelay-server/internal/audio/ogg.go:62-128 | A page of two packets byte by byte |

## Left out

- Overlapping Connect calls: `Connect` does not check `connected` again after it relocks, so two at once may publish two connections; the machine runs one at a time.
- The HTTP and WebSocket layer, status broadcasts, JSON, logging and metrics timing: plumbing around the state machines.
- `NewServerController` with a nil web server: the controller is modelled with its hub present.
- Connection objects in `Controller.ServerController` are entries of a table of values rather than references; `Transport.Connection` is the object, and no two controllers share one.
- Locks nested inside a section: `controlMu` inside Disconnect's section, a connection's own mutex inside the controller's, and the hub's operations inside stopStream and Disconnect are part of that one step, but for the end of a screen session, which `SessionDisplay` cuts in two; a reconnect's install and its re-reading of the slot are one step. Deadlock and lock order are not modelled.
- `ConnectContext` with more than the speaker requested is covered for its collection loop only; the session core asks for the speaker alone.
- Retries, back-off, deadlines and the dummy byte of a dial: a dial succeeds with a new socket or fails.
- User control bytes through `WriteControl`: they may carry power messages of their own; the display properties are about automatic writes, and a failed write is taken to have no effect on the phone.
- The hub's clients: `BroadcastScreenFrame` is modelled for its acceptance and its cache, not for the sends to viewers.
- Timestamps of the speaker are unbounded integers; the wrap of the 64-bit counter is not modelled.
- Receiver of a failed `malloc`, and `malloc(0)` returning null for an empty UHID report.
- Recorder formats, extradata contents, stream creation and the muxer's own reordering; the rescaling of durations.
- The recorder's discarding of queued packets after a failed recording.
- `Recorder.RecorderObject.WriteAudioStream` repeats `WriteVideoStream` for the other stream.
- The regulator's averaged buffering estimate and the compensation it sets: floating-point averaging in util/average.c; its `written` count leaves out the final retry.
- `AudioRegulator.Regulator`: its methods are the operations without interleaving, and its push has no discontinuity; the machine in the same module has both. Weak memory orderings are not modelled: a load or store of a cursor is one step.
- Resampling: the samples that reach the ring are given.
- Delay buffer: what the condition variables wake is left to the scheduler, so that any wait may end at any time; the flush after a stop drops what is queued.
- `Demuxer.Stop`, `MultiDemuxer` and the goroutines per stream: Run is modelled until the input ends or fails; a handler's error is ignored, as in the code.
- The reader's position after a failed read of an Ogg page or a packet; Ogg pages that end in an unfinished packet.
- The session header and codec negotiation at the start of `run_demuxer`.
- Command line, windows, input mapping, orientation, bitrate and reconnect policies, ADB, discovery: easy members, user interface or I/O.
