# VCMP: a verified model

`vcmp` is a small protocol of acknowledged messages and heartbeats over WebSocket text frames. This
project models what is hard about it, the interleavings and the accounting, and proves what the
protocol is for: a `send` that succeeds was handled by the peer exactly once, nothing waits forever or
leaks when a session closes, and the limits on retained resources hold at every moment. Run
`dafny verify dfyconfig.toml`.

## What is modelled

- **Sessions** (`session.dfy`): the session of `src/session.rs` as atomic steps, one per critical section,
  channel operation or atomic access. A list of threads holds every `exchange`, every handled message and
  every heartbeat being sent, each with its program counter, so all interleavings are runs of the model.
  `session_object.dfy` is the same session as an object with mutable fields, whose methods are proved to be
  steps of that machine. The results are in
  `session_close.dfy` (the invariant of closing), `session_settlement.dfy` (closing and settlement),
  `session_progress.dfy` (closing completes, sends end, the writer stops), `session_history.dfy` (where outcomes come from),
  `session_lanes.dfy`, `session_overtaking.dfy`, `session_origins.dfy` and `session_sizes.dfy` (the writer),
  `session_conservation.dfy` and `session_replies.dfy` (frames and replies), `session_permits.dfy` (accounting),
  `session_admission.dfy` (what is let through and what is refused, exactly) and `session_delivery.dfy` (with room,
  frames get through).
- **Two sessions** (`two_sessions.dfy`, `round_trip.dfy`) over FIFO links that may be cut anywhere, with the frame
  parser between them.
- **Admission** (`resources.dfy`, `shared_budget.dfy`): the counters of a budget, and any number of sessions,
  connection attempts and hooks on one shared budget.
- **Heartbeats** (`heartbeat.dfy`, `heartbeat_timing.dfy`): the two timer slots under all interleavings of their
  lock sections, and two parties with a clock.
- **Client** (`client.dfy`): generations of connection tasks racing with `start` and `stop`.
- **Server** (`server_upgrades.dfy`, `server_stop.dfy`): accepted upgrades against `close_sessions`, and the accept
  loop, connection tasks and sessions against `stop`, awaited from a hook or not.
- **Codecs** (`text.dfy`, `frame.dfy`, `base64url.dfy`, `fragments.dfy`, `bounded.dfy`): UTF-8 (RFC 3629), frames,
  ids (section 5 of RFC 4648), WebSocket fragments (section 5.4 of RFC 6455), bounded serialization.

## Assumptions

- Message ids are fresh among all ids a session ever generates (`Sessions.FreshId`). The code draws 72 random
  bits; `Ids.IdOfNineBytes` shows that fresh bytes give fresh ids.
- Handlers do not panic (the release profile aborts on panic, `Cargo.toml:80`).
- JSON is opaque: whether a payload parses, has a type and has a handler is the choice of the events
  `Reject` and `Spawn`.
- Strings are UTF-8 and intervals have 64 bits, as their types say (`TwoSessions.TypedEvent`).
- The transport underneath is a lossless FIFO text link that may be cut; a flush may happen late or never.
- Time is a discrete clock in milliseconds. `HeartbeatTiming.Timely` and `HeartbeatTiming.Punctual` state what
  is assumed of it.
- Limits are not negative (`WithinLimits(NOTHING, …)`), as their type says.

Some events stand for code between two critical sections: the size check of `exchange` belongs to its first
reservation, and the `close()` after a failed mandatory write ends its thread. Two of them merge sections of
the session's own budget, which its threads share: a refusal by the shared budget comes together with the
release of the own half, and the push of a reply with the release of the task permit (the shared half still
comes back in a step of its own). So the model leaves out the moments in which another thread of the session
is refused although room is about to be made.

## What the code does differently from its description

- `README.md:31` says that a side closes when no heartbeat arrives within two intervals. The watchdog is armed
  when a side *sends*, one interval after it last heard from the peer. So with punctual timers a silent peer is
  noticed exactly three intervals after its last heartbeat (`HeartbeatTiming.SilentPeerClosing`, and
  `HeartbeatTiming.SilentBeyondTwo` for a run). It can be sooner, but never within two, if and only if a send was
  under way when that heartbeat was accepted (`HeartbeatTiming.EarlyCloseExactly`,
  `HeartbeatTiming.NotClosedWithinTwo`).
- `README.md:302-304` says that only a write already started is ahead of a control frame. The writer polls
  the control queue first and the data queue second, so a control frame queued between the two polls is
  overtaken by a data frame not yet picked (`SessionOvertaking.OvertakingHappens`). It is one data frame, and only
  then (`SessionLanes.OvertakenExactly`).
- `src/client.rs:311-313` says that `start` closes the session it replaces without notifying `on_disconnected`. A
  task that has read the stop channel just before still calls the hook afterwards
  (`Clients.HookAfterReplacement`); `Clients.ReplacedHookExactly` says when.
- `src/server.rs:322` says that `stop` closes every session. A connection that passed the test of `stopped` just
  before it was set, and registers after its endpoint was looked at, is not among those closed
  (`ServerStop.MissedExactly`); `stop` then waits until its peer leaves or the deadline aborts its task. When
  `stop` returns to a hook, or after the accept loop has ended, that session is shut as well
  (`ServerStop.StopLeavesNothing`).
- After `finish_close` has cleared the timer slots, the last section of a `send_heartbeat` that was under way may
  still install a watchdog (`Heartbeats.LateTimerHappens`). It is the only way (`Heartbeats.LateTimers`), and
  harmless (`Heartbeats.ClosedIsQuiet`).

## Model

| member | source | states |
|---|---|---|
| `TwoSessions.AckMeansHandled` | src/session.rs:543-567 | A `send` that returned `Ok(p)`: the peer ran exactly one handler for a message with that id, it received that very payload, and `p` is what it returned: nothing if it returned nothing or an empty payload, otherwise exactly its payload |
| `TwoSessions.NakMeansRefused` | src/session.rs:705-721 | A `send` refused by a NAK: the peer's only thread for that very message refused it. If a handler ran, its registered form (which serializes the result) failed with that very problem; if none did, the problem is the one the peer chose when it refused the message, in an event of the run: none if it chose none or an empty one, otherwise exactly that |
| `TwoSessions.HandledAtMostOnce` | src/session.rs:727-776 | The peer handles no id more often than its message was written, which is at most once |
| `TwoSessions.OnePlace` | src/session.rs:813-878 | In every run, each message sent is in exactly one place: on its way out, in the peer's handler, on its way back as a reply, answered, or lost to a cut or a close |
| `TwoSessions.ArrivalOrder` | src/session.rs:97-118 | Comparing any two arrivals a side has recorded, of messages handled or of ACKs, tells exactly which of the two frames the peer wrote first, whatever was lost or rejected in between |
| `TwoSessions.ArrivedWasWritten` | src/session.rs:97-118 | What arrived was written by the peer; unless a frame was rejected, the arrival is the very position at which it was written |
| `TwoSessions.CarriedAB` | src/session.rs:788-811 | Per link: frames written are in transit, read or lost; what is read and in transit was written, in that order, even when frames were rejected; unless one was, it is the first frames written |
| `TwoSessions.NothingRejected` | src/session.rs:788-801 | A side whose limit is not below the other's rejects no frame: all are short enough and parse |
| `TwoSessions.LosslessUntilCut` | src/session.rs:97-101 | Then, until the link is cut, what was written is what was read followed by what is in transit, in order |
| `TwoSessions.ReplyFromPeer` | src/session.rs:697-725 | Every reply received for an exchange was sent by the one thread of the peer that handles that very message |
| `RoundTrips.RoundTrip` | src/session.rs:727-776 | From every state of every run of two sessions at rest whose links are up, with room for the message at the sender and for its handling and the reply at the peer, both within the size limits: the message gets through, is handled with exactly its payload, `send` returns what the handler made of it, and both are at rest again |
| `TwoSessions.Mirrored` | src/session.rs:382-418 | A run with both sides exchanged is a run: all results hold for the messages of either side |
| `SessionClose.StepKeeps` | src/session.rs:867-901 | Every atomic step keeps the invariant of closing: phases of gate, writer, handlers and pending entries, and the matching of sending halves to waiting exchanges |
| `SessionClose.RunKeeps` | src/session.rs:867-901 | So it holds in every state of every run |
| `SessionSettlement.ClosedForGood` | src/session.rs:602-607 | `closed` once published stays so, and then `open` is false, nothing is pending, both queues and the sink are gone and no handler is alive |
| `SessionSettlement.GateMonotone` | src/session.rs:602-607 | `open` never rises again and `closed` never falls |
| `SessionHistory.NothingPendsAfterDrain` | src/session.rs:330-332 | After the drain no send registers any more, under every interleaving |
| `SessionProgress.CloseCompletes` | src/session.rs:813-878 | From every state in which `close` was called or the stream has ended, the session closes by steps of its own alone: no handler, write, queue, pending entry or notification still to be stored can hold `closed` up |
| `SessionProgress.ClosingEndsSends` | src/session.rs:890-901 | So in every run, once `close` was called or the stream has ended, each `send` ends without any deadline |
| `SessionProgress.EverySendCanEnd` | src/session.rs:543-567 | From every state of every run, an open and idle session included, each `send` ends by at most nine steps of its own and its deadline; `SessionAdmission.FailsExactly` says how |
| `SessionProgress.WriterStops` | src/session.rs:826-854 | Once told to stop, the writer takes no more steps than its position, what is queued, what is buffered and what is still pushed allow, in every order of its steps |
| `SessionSettlement.ExchangeEnds` | src/session.rs:543-567 | Whatever the session's state, an exchange ends by at most nine steps of its own, its deadline among them; in a closed session without the deadline: none waits for something that never comes |
| `SessionAdmission.FailsExactly` | src/session.rs:543-567 | In every run, exactly why a `send` fails: too large if and only if its message is, on the wire; overloaded if and only if a budget had no room or the writer was gone; not open, timed out, abandoned or closed if and only if that happened to it; whatever happens first decides |
| `SessionAdmission.RequestDecided` | src/session.rs:544-547 | In every run, the first section of a `send` refuses it as too large if and only if its frame is longer than `max_message_bytes`, as overloaded if and only if it fits and no request is left, and otherwise takes exactly one request |
| `SessionAdmission.CheckDecided` | src/session.rs:616-622 | In every run the check of `enqueue` fails if and only if the session is not open or the frame is too large, for messages, replies and heartbeats; a failed send cleans up, a failed reply or heartbeat goes on to close the session |
| `SessionAdmission.ReserveDecided` | src/session.rs:623-624 | In every run its reservation fails if and only if the lane of the frame has no room for it, and otherwise takes one frame and its bytes of that lane |
| `SessionAdmission.PushDecided` | src/session.rs:625-626 | In every run its `try_send` fails if and only if the writer is gone |
| `SessionAdmission.HandlingDecided` | src/session.rs:727-734 | In every run a message received is answered with the NAK given if and only if there is no room for its handler, and otherwise holds one task and its bytes and goes on |
| `SessionAdmission.InvalidIgnored` | src/session.rs:793-800 | In every run a frame that does not parse changes one counter and closes nothing |
| `SessionAdmission.HeartbeatCounted` | src/session.rs:802-806 | In every run a heartbeat received changes nothing of exchanges, handlers, queues and permits |
| `SessionAdmission.OversizedCloses` | src/session.rs:788-792 | In every run, after an oversized frame the session is never open again, and closes by its own steps |
| `SessionAdmission.OpenExactly` | src/session.rs:601-638 | In every run a session is open exactly until someone closes it, an oversized frame arrives, a reply or heartbeat cannot be queued, a write fails or reading ends; nothing else closes it |
| `SessionDelivery.SendGoesThrough` | src/session.rs:543-567 | From every state of every run in which an exchange begins in an open session with room for one request and for its frame: with the shared budget granting, its own steps lead to waiting with exactly its message appended to the data queue, and nothing else changed but its permits and its pending entry |
| `SessionDelivery.PickPath` | src/session.rs:826-846 | In an open session the writer gets the first control frame into the sink, or the first data frame when no control frame waits |
| `SessionDelivery.FlushPath` | src/session.rs:841-851 | Then that frame goes onto the wire and its permits come back |
| `SessionDelivery.HandlePath` | src/session.rs:727-776 | A message received, with room for its handler, is handed to it with exactly its id and payload, and the read loop goes on |
| `SessionDelivery.AnswerPath` | src/session.rs:764-776 | What the handler made of a message is queued as its reply in the control lane, with room for it, and the task permits come back |
| `SessionDelivery.ReturnPath` | src/session.rs:697-725 | A reply received ends the exchange that awaits it with exactly its payload, and the pending entry and request permit are gone |
| `SessionDelivery.BeatPath` | src/session.rs:640-654 | In an open session with room, a heartbeat begun is queued in the control lane with exactly its interval |
| `SessionSettlement.SenderNeverGone` | src/session.rs:562-566 | The branch for a vanished one-shot sender is never taken |
| `SessionSettlement.SettledOnce` | src/session.rs:543-567 | An exchange that has ended keeps its outcome for the rest of the run |
| `SessionSettlement.AnswerReaches` | src/session.rs:697-725 | In every run an ACK or NAK goes to exactly the exchange that awaits it; if none does (an unknown id, a late answer, a duplicate), it changes no exchange, permit or queue, only two counters |
| `SessionHistory.RunTraced` | src/session.rs:764-811 | In every run outcomes, replies and handlers trace back to frames received, messages are handled in arrival order, and each reply carries what its handler returned |
| `SessionHistory.OriginIsTrue` | src/error.rs:199-241 | Errors from a peer NAK are never classed as local transport; closed and timed-out outcomes always are, and the closed one is only given after the drain |
| `SessionReplies.RepliesConserved` | src/session.rs:629-638 | For every id, messages received are replies queued, plus those still handled, plus those given up because the session closed; none is given up or dropped while it is open, none is still handled when it is closed |
| `SessionReplies.MandatoryFrames` | src/session.rs:629-638 | While a session is open, every reply and every heartbeat whose thread is through was queued: one that cannot be queued takes the session with it |
| `SessionReplies.WrittenOnce` | src/session.rs:558-561 | The message of an id is written at most once |
| `SessionConservation.RunConserves` | src/session.rs:826-854 | Every frame queued is in exactly one place: a queue, the writer's hands, the sink, the wire, or dropped at the end |
| `SessionOrigins.RunSourced` | src/session.rs:296-299 | Every frame queued, in the writer's hands or written is the frame of one thread that queued it, with the permit of its lane and size |
| `SessionLanes.WrittenInOrder` | src/session.rs:826-854 | Control frames written are the first of those queued, in order; likewise data frames |
| `SessionLanes.OvertakenExactly` | src/session.rs:829-834 | While a control frame waits to be picked, exactly one data frame is picked before it if the writer stood between the two queues when the wait began and finds a data frame, and none in every other case |
| `SessionOvertaking.OvertakingHappens` | src/session.rs:829-834 | A run in which a heartbeat is queued at that moment and overtaken by a message not yet picked |
| `SessionSizes.WrittenWithinLimit` | src/session.rs:620-622 | No frame written is longer than `max_message_bytes` |
| `SessionSizes.NothingStartsAfterClose` | src/session.rs:838-840 | Once a session is closed no write begins: at most the frame already in the sink is still written |
| `SessionPermits.StepAccounts` | src/session.rs:425-429 | Every step changes the own counters exactly as the permits held change, and the shared holdings exactly by what it takes from or returns to the shared budget |
| `SessionPermits.RunBalanced` | src/resources.rs:93-134 | In every state each own counter equals what exchanges, tasks, queues, writer and pending map hold, and is within its limit |
| `SessionPermits.AdmissionImpliesRoom` | src/session.rs:616-627 | A frame that has its permits finds a free slot: `try_send` fails if and only if the writer is gone |
| `SessionPermits.RetainedBytesCovered` | src/session.rs:301-305 | At every step the bytes queued, picked or buffered in the sink, per lane, are covered by bytes reserved in the own budget and in the shared one |
| `SessionPermits.RequestsCounted` | src/session.rs:547-557 | Request permits are the pending entries, those being failed by `finish_close`, and the exchanges between reserving and registering |
| `SessionPermits.NothingLeaks` | src/session.rs:880-901 | When a session is closed and its exchanges have ended, all its counters are zero |
| `SharedBudgets.RunSharedBalanced` | src/resources.rs:71-91 | However many sessions, connections and hooks share a budget, its counters are the sum of what they hold, within the limits |
| `SharedBudgets.SharedIsSum` | src/session.rs:425-429 | For requests, data and control the shared usage is the sum of the sessions' own usage whenever no reservation or release is half done |
| `SharedBudgets.GrantedExactly` | src/resources.rs:93-134 | What a session asks of the shared budget is granted if and only if it fits beside everything that is held, and a refusal leaves the counters as they are |
| `SharedBudgets.SharedRetainedCovered` | src/resources.rs:71-91 | At every moment the bytes that all sessions on a budget retain together are covered by it, and within its limit |
| `Resources.AdmitsExactly` | src/resources.rs:96-111 | Within the limits, the saturating admission test says exactly that the charged usage is within the limits |
| `Resources.ResourceBudget.constructor` | src/resources.rs:82-86 | A new budget is empty |
| `Resources.ResourceBudget.Reserve` | src/resources.rs:93-134 | Admits exactly when there is room; counters stay the sums over the live permits; a refusal changes only `overloads` |
| `Resources.ResourceBudget.Drop` | src/resources.rs:151-171 | Dropping a live permit gives back exactly what it took; no counter underflows |
| `Resources.ReserveBoth` | src/session.rs:425-429 | Succeeds exactly when both budgets have room; a refusal by the shared one leaves the own counters as they were |
| `SessionObjects.Session.constructor` | src/session.rs:382-411 | A new session is the initial state of the machine |
| `SessionObjects.Session.Swap` | src/session.rs:602-604 | The swap is one step; only one caller ever finds the session open |
| `SessionObjects.Session.Notify` | src/session.rs:604-606 | Storing the notification is one step, after the swap |
| `SessionObjects.Session.Close` | src/session.rs:602-607 | Undisturbed, the first call leaves the session shut with the notification stored, and every other one changes nothing |
| `SessionObjects.Session.Insert` | src/session.rs:551-557 | Checking `open` and inserting under the lock is one step |
| `SessionObjects.Session.TakePending` | src/session.rs:723-725 | Removes exactly the entry with the id and drops its permits |
| `SessionObjects.Session.CleanUp` | src/session.rs:947-951 | Dropping the waiter is one step that leaves no entry |
| `SessionObjects.Session.Push` | src/session.rs:623-626 | The `try_send` of `enqueue` is one step, into the lane of the frame |
| `SessionObjects.Session.ReadFrame` | src/session.rs:788-811 | Handling one parsed frame is one step, for each of the four types |
| `SessionObjects.Session.PickNext` | src/session.rs:829-834 | An undisturbed poll picks the oldest control frame, or else the oldest data frame |
| `SessionObjects.Session.StartWrite` | src/session.rs:835-846 | A picked frame goes to the sink, or is dropped with its permit if the session has closed |
| `SessionObjects.Session.Written` | src/session.rs:847-851 | Permits are dropped only when the sink is empty again |
| `SessionObjects.Session.FinishClose` | src/session.rs:880-901 | Settles exactly the pending exchanges with the closed error, returns all request permits, leaves the queues alone, then publishes |
| `Heartbeats.StartupWatchdog` | src/session.rs:581-599 | No initial watchdog is armed once a heartbeat was accepted or the slots were cleared; never two watchdogs or two echo timers are armed |
| `Heartbeats.LateTimers` | src/session.rs:640-668 | After the slots were cleared, a timer is armed if and only if a send under way reaches its last section |
| `Heartbeats.LateTimerHappens` | src/session.rs:655-667 | A run in which that happens |
| `Heartbeats.ClosedIsQuiet` | src/session.rs:640-644 | Once a session has been closed no send of a heartbeat begins any more, whichever timers fire, and it stays closed |
| `Heartbeats.AcceptedWhenAwaited` | src/session.rs:670-695 | In every run a heartbeat is accepted exactly when awaited with a nonzero interval; the echo timer it starts waits for that interval and is then the only live timer, and otherwise only a counter changes |
| `Heartbeats.AcceptedAsAsked` | src/session.rs:670-695 | In every run each heartbeat accepted starts one echo, and at most one more is accepted than sends have asked for |
| `Heartbeats.WatchdogWaits` | src/session.rs:655-667 | In every run the last section of a send of interval I leaves exactly one live watchdog, which waits for 2 I, or for 2^64 - 1 if that is less |
| `Heartbeats.ExpectedWithin` | src/session.rs:581-599 | In every run, expecting a heartbeat in an open session that has received none leaves exactly one live watchdog, which waits for the given time; otherwise it does nothing |
| `Heartbeats.TimerRunsOut` | src/session.rs:658-691 | In every run an echo that runs out begins a send of its interval if the session is open, and a watchdog that runs out closes the session |
| `Heartbeats.IntervalsKept` | src/session.rs:640-695 | In every run a send keeps the interval it began with, and a timer its kind and its wait |
| `Heartbeats.SectionsExactly` | src/session.rs:640-668 | In every run how far a send of a heartbeat has come is exactly what has happened to it: it awaits before it writes, arms the watchdog if and only if its frame was queued, and otherwise has closed the session |
| `Heartbeats.AwaitsExactly` | src/session.rs:646-649 | In every run a heartbeat is awaited if and only if some send has asked for one since the last one was accepted, or none was |
| `Heartbeats.OpenExactly` | src/session.rs:650-662 | In every run the session is open until someone closes it, a heartbeat cannot be queued, a watchdog runs out or its end is reached; no heartbeat received and no echo closes it |
| `Heartbeats.SendUndisturbed` | src/session.rs:640-668 | What `SendHeartbeat` does is what the sections of one send do in a row |
| `Heartbeats.HeartbeatState.Expect` | src/session.rs:581-599 | Installs the initial watchdog only in an open session that has received no heartbeat |
| `Heartbeats.HeartbeatState.Handle` | src/session.rs:670-695 | Accepts or ignores under one lock |
| `Heartbeats.HeartbeatState.SendHeartbeat` | src/session.rs:640-668 | Awaits an answer, then arms the watchdog if the frame was queued and closes the session if not; in a closed session it does nothing |
| `Heartbeats.HeartbeatState.Arm` | src/session.rs:655-667 | Replaces and aborts the previous watchdog |
| `Heartbeats.HeartbeatState.Clear` | src/session.rs:882-890 | Aborts and empties both slots |
| `HeartbeatTiming.HeartbeatKeepsAlive` | src/session.rs:640-695 | While round trips are shorter than the interval, and a started send gets through its sections within one: exactly one heartbeat exists, an awaiting side holds no echo timer, none is ignored, no watchdog runs out, both sides stay open |
| `HeartbeatTiming.EchoDueExactly` | src/session.rs:684-694 | A side that accepted a heartbeat at time t is to send its own at t + I and no sooner; once that moment is further back than timers are late, the echo has fired |
| `HeartbeatTiming.SilentPeerDetected` | src/session.rs:655-694 | After accepting a heartbeat of interval I at time t and hearing nothing more, a side is closed after t + 3 I, plus twice the lateness of timers, whatever else goes on, when 2 I is at most 2^64 - 1 (the watchdog waits for that at most) |
| `HeartbeatTiming.SilentPeerClosing` | src/session.rs:655-694 | While timers and sends are less than I late, it also is open before t + 3 I: with punctual timers that is the moment of closing, whatever was under way at t, when 2 I is at most 2^64 - 1 (the watchdog waits for that at most) |
| `HeartbeatTiming.NotClosedBefore` | src/session.rs:655-694 | However late timers are, it is not closed before t + 3 I unless a send was under way at t, when 2 I is at most 2^64 - 1 (the watchdog waits for that at most) |
| `HeartbeatTiming.EarlyCloseExactly` | src/session.rs:640-667 | It can be closed before t + 3 I (saturated like the watchdog) if and only if a send was under way at t |
| `HeartbeatTiming.NotClosedWithinTwo` | src/session.rs:655-667 | In no case is it closed before t + 2 I, when 2 I is at most 2^64 - 1 (the watchdog waits for that at most) |
| `HeartbeatTiming.SilentBeyondTwo` | src/session.rs:655-694 | A run with punctual timers in which a side that hears nothing is still open one tick before t + 3 I, when 2 I is at most 2^64 - 1 (the watchdog waits for that at most) |
| `Clients.InstalledIsCurrent` | src/client.rs:314-356 | Over all interleavings an installed session implies a running client and the task of the current generation; `connected` says exactly whether one is installed; every open session is in the hands of a task |
| `Clients.OnlyCurrentTaskChanges` | src/client.rs:540-553 | In every run the task of the current generation installs and clears its session; one that was replaced, or whose client was stopped, changes nothing, and the session it tried to install is closed from then on |
| `Clients.NothingAfterStop` | src/client.rs:337-356 | From `stop` to the next `start` nothing is installed and the client is not connected |
| `Clients.ReplacedHookExactly` | src/client.rs:467-478 | After `start` has replaced a running client, its old task is told to end quietly and aborted, its session is closed and a new task connects; the old task can still run the disconnect hook if and only if it had read the stop channel before and not called the hook yet |
| `Clients.StoppedHookExactly` | src/client.rs:337-356 | `stop` tells the current task to notify, closes its session and changes no other task; the disconnect hook can still run if and only if the task has installed its session and has not called the hook yet |
| `Clients.StartCancels` | src/client.rs:314-329 | `start` aborts the task of the generation before in every case, and where that task waits it is dropped, its hook and its session with it |
| `Clients.HookAfterReplacement` | src/client.rs:467-478 | A run in which that happens: the hook runs after the `start` that replaced its connection |
| `Clients.StoppedTaskEnds` | src/client.rs:431-501 | Every task told to stop ends by at most five steps of its own |
| `Clients.RunningIsAlive` | src/client.rs:489-499 | In every run only a task told to stop ends, so a running client always has its current task alive |
| `Clients.Reconnects` | src/client.rs:431-501 | When the current task of a running client has lost its connection, or could not make one, it gets to connecting again by at most six steps of its own |
| `Clients.ConnectsAgain` | src/client.rs:540-553 | A connection that is made then is installed: the client is connected by a new open session |
| `Clients.NoSessionOutlivesTasks` | src/client.rs:556-561 | When all tasks have ended no session is open |
| `Clients.ClientState.Start` | src/client.rs:314-329 | The whole state after `start`: the old connection closed quietly, its task aborted, a new generation running |
| `Clients.ClientState.StopInner` | src/client.rs:337-346 | The whole state after `stop`, and the task to wait for |
| `Clients.ClientState.SetSession` | src/client.rs:540-553 | Refuses a stale generation, or a session for a stopped client, and closes what it refuses |
| `Upgrades.NoUpgradeSlipsPast` | src/server.rs:150-165 | When `close_sessions` has returned, every upgrade accepted before the call has failed or its session is closed, under every interleaving of upgrades and other calls |
| `Upgrades.CallReturns` | src/server.rs:150-165 | From every point of every call, `close_sessions` returns by its own steps and those of the upgrades accepted before and of the sessions told to close |
| `Upgrades.UpgradeServes` | src/axum.rs:118-145 | An accepted upgrade gets to serving an open session that is registered and owns the connection permit, without the guard |
| `Upgrades.PermitsHaveOneOwner` | src/server.rs:372-397 | `pending_upgrades` is the number of live guards, and the connections counted are the permits owned, each by one upgrade task or one session |
| `Upgrades.OnUpgrade` | src/axum.rs:118-145 | Serves exactly when admitted and upgraded; then the session is registered before the guard goes and owns the permit, otherwise endpoint and budget are as before |
| `Upgrades.ServeSession` | src/server.rs:426-449 | Undisturbed: each hook runs exactly if it is set and gets a handler permit, a refused connect hook closes the session, the session is removed before the disconnect hook, and the budget is as before |
| `Upgrades.PendingUpgrade.Drop` | src/server.rs:372-381 | Dropping the guard lowers the count by one and returns the permit if no session took it |
| `ServerStop.StopKnowsItsCaller` | src/server.rs:196-206 | Hooks run only in tracked tasks, so a `stop` awaited by one never waits for the accept loop |
| `ServerStop.StopLeavesNothing` | src/server.rs:325-353 | From the moment `stop` has returned: nothing is accepted, every other connection task has been joined, and no session is open |
| `ServerStop.StopReturnsToHook` | src/server.rs:325-346 | From every state after the call, a `stop` awaited by a disconnect hook returns by steps of the server alone, the aborts at its deadline among them, while the hook still runs: it never waits for itself |
| `ServerStop.StopReturnsOutside` | src/server.rs:325-353 | From every state after the call, a `stop` awaited outside a hook returns without its deadline once the connections under way have come to their ends: `close_sessions` has closed theirs, missed sessions are left by their peers, hooks return |
| `ServerStop.ServedTaskEnds` | src/server.rs:426-447 | A task whose session is closed removes it and returns by its own steps, unless its hook awaits `stop` |
| `ServerStop.CloseSessionsReturns` | src/server.rs:150-165 | From every point inside `close_sessions` it returns by its own steps and those by which the collected sessions publish `closed` |
| `ServerStop.MissedExactly` | src/server.rs:265-272 | When it looks at an endpoint, a session of it can still be open after `close_sessions` if and only if its task had passed the test of `stopped` and has not registered it yet |
| `ServerStop.MissHappens` | src/server.rs:265-272 | A run that leads to such a moment |
| `ServerStop.ConnectHookDropped` | src/server.rs:428-437 | A connect hook that awaits `stop` has had its own session closed before `stop` waits for the others, so the hook may be dropped with `stop` in it |
| `ServerStop.ConnectionTasks.FinishedExcept` | src/server.rs:305-307 | True exactly when accepting has ended and no tracked task but the caller is left |
| `ServerStop.ConnectionTasks.Drain` | src/server.rs:215-219 | The end of the accept loop: no longer accepting, and every task joined is gone |
| `Frames.ParseWire` | src/frame.rs:115-164 | Parsing what was serialized gives the frame back, for every well-formed frame and all 64-bit intervals |
| `Frames.WireParse` | src/frame.rs:115-164 | Whatever is parsed is well formed, and serializing it gives the input back if and only if it is no heartbeat with a leading `+` or zeros |
| `Frames.AcceptedExactly` | src/frame.rs:125-139 | The texts accepted as MSG, ACK or NAK are exactly the serialized frames of that type |
| `Frames.HeartbeatAccepted` | src/frame.rs:118-124 | `HBT` is accepted if and only if an optional `+` and then at least one digit follow, with a value of 64 bits; the interval is that value |
| `Frames.RefusedExactly` | src/frame.rs:115-142 | Which texts are refused, with each of the four errors |
| `Frames.WireForm` | src/frame.rs:145-164 | What each kind of frame looks like on the wire, literally |
| `Frames.WireInjective` | src/frame.rs:145-164 | Two well-formed frames with the same text are the same |
| `Frames.SplitByUnits` | src/frame.rs:126-133 | Splitting an accepted frame by bytes is splitting it by UTF-16 units |
| `Texts.ValidExactly` | src/frame.rs:115-140 | The strings of the model are exactly the UTF-8 encodings (RFC 3629) of sequences of scalar values |
| `Texts.BoundaryExactly` | src/ws.rs:120-127 | A position of a string is a character boundary if and only if the text before it is a string |
| `Texts.UnitsExactly` | src/frame.rs:126-133 | A scalar value is one UTF-16 unit or the pair of surrogates that stands for it |
| `Frames.Serialize` | src/frame.rs:145-164 | Builds exactly the wire form, which parses back |
| `Ids.Encode` | src/frame.rs:211-225 | The loops produce the encoding, of the documented length, which decodes to the bytes |
| `Ids.EncodeChunk` | src/frame.rs:214-223 | One chunk gives one character more than it has bytes, and decodes to them |
| `Ids.EncodedSize` | src/frame.rs:208-212 | 4 characters per 3 bytes, and 2 or 3 for a rest |
| `Ids.DecodeEncoded` | src/frame.rs:208-225 | Decoding inverts the encoding of every byte string |
| `Ids.Alphabet` | src/frame.rs:206 | The 64 characters are `A-Z`, `a-z`, `0-9`, `-` and `_`, in this order |
| `Ids.IdOfNineBytes` | src/frame.rs:197-204 | Nine bytes give an id the parser accepts, and different bytes different ids |
| `Fragments.Fragmenter.Next` | src/ws.rs:111-133 | Each call yields the next of the fragments to come, whose ends `Fragments.Fragmentation` fixes |
| `Fragments.Collect` | src/ws.rs:95-103 | Draining the iterator yields all of them |
| `Fragments.Fragmentation` | src/ws.rs:105-134 | Fragments join to the text, none is empty or too large, the first is text and the others continue, only the last is final, cuts fall between characters from size 4 on, and there are at most len / (size - 3) of them, rounded up. A fragment that ends before the text ends at the last character boundary within its size, or has exactly that size if there is none |
| `Fragments.FragmentsJoin` | src/ws.rs:120-132 | Joining gives the text back even when characters are cut |
| `Fragments.FragmentCount` | src/ws.rs:120-127 | From size 4 on, every fragment but the last carries at least size - 3 bytes |
| `Bounded.SerializeBounded` | src/session.rs:913-941 | Returns the whole text exactly when it fits, and reports what does not fit as too large |
| `Bounded.MessageFrame` | src/session.rs:519-546 | A message frame is built exactly if the serializer succeeds and the frame is within the permitted size, also when that size is below the 15 bytes of type and id |
| `Bounded.Output.Write` | src/session.rs:919-927 | Takes a part whole or not at all, never beyond the limit |

## Left out

- `send_raw` and `send_payload`: back doors for tests; the first would break the end-to-end results.
- Serde, typed handlers, `HandlerMap` and the `@type` tag: JSON is opaque here.
- Tokio, tungstenite, hyper, axum extraction, TLS and sockets: links, scheduler and timers of the model stand for them.
- `Backoff::delay`, `PathPattern`, `ConnectInfo`, logging, diagnostics at powers of two and `Debug` redaction: short pure functions or output, with nothing to prove beyond their bodies.
- `ProblemDetail` builders and conversions: only the origin of an error is modelled.
- Handler panics: excluded by assumption.
- Arrivals of different sessions: within a session their order is proved, across sessions it is that of a creation counter.
- The deadline of a `ServerHandle::stop` awaited outside a hook, after which it aborts the accept loop without joining its tasks, and a hook that reaches its own deadline while awaiting `stop`: how they end is not modelled.
- Loops as loops: the read loop, the writer and the client task are steps of state machines, because other tasks run between any two of their sections; `SessionObjects.Session` and the other classes give the sections themselves.
- `SessionObjects.Session.PickNext`: the poll of both queues without anything in between; the interleaved poll is `PickControl`, `SeeControlEmpty` and `PickData` of the state machine.
- `Upgrades.OnUpgrade`: the undisturbed sequence of effects; its interleavings are the state machine beside it.
- `Upgrades.ServeSession`: the undisturbed sequence for a session that closes; hooks are a permit taken and returned.
- `Heartbeats.HeartbeatState.SendHeartbeat`: the undisturbed sections of one send; the interleaved ones are `Await`, `Write` and `Arm` of the state machine.
- `SessionObjects.Session.Close`: the undisturbed call; `Swap` and `Notify` are the steps other threads come between.
- `HeartbeatTiming.HeartbeatKeepsAlive`: assumes that writing a heartbeat succeeds; a heartbeat that cannot be queued closes the session, in `Sessions` and `Heartbeats`.
- `SessionPermits.NothingLeaks`: says nothing of a session with exchanges that have not taken their last steps; `SessionSettlement.ExchangeEnds` says that they can.
- `RoundTrips.RoundTrip`: says that the way through is there from states at rest, with the shared budget granting, not that no other step comes between; what may go wrong then is `SessionAdmission.FailsExactly`.
- Liveness under a fair scheduler: the results say that the next step is always there and that few are left, not that a scheduler takes it.
