# Verification of rc-mcp's relay core

rc-mcp connects MCP sessions to agents that sit behind unreliable WebSockets, possibly through several server
replicas. This Dafny project models the state that has to survive disconnects, and the indices and windows that
stand for unbounded histories, and proves properties of them over every run. `dafny verify dfyconfig.toml` checks
all of it.

| module | what it models |
|---|---|
| `Outbox`, `Lifecycle` | the agent's bounded send buffer, and the connection loop that resumes or abandons |
| `DeviceState`, `Hub` | the server's per-device dispatch maps per critical section; presence, grace timers and revocation per operation |
| `Bridge`, `Relay` | the wait loop of a dispatch, and its cross-replica form as a refinement of it |
| `Locations` | device location records in the TTL store, their ownership and their heartbeat |
| `Replay`, `SseWire`, `SseStream` | the replay buffer as a window on an unbounded log; the event-stream writer against a standard reader; clients that reconnect |
| `RateLimit` | the sliding-window limiter and the concurrency slots |
| `Schema` | the JSON Schema subset validator |
| `Registry`, `Jobs` | pairing, tokens and revocation on disk; the job store's indices, timers and idempotency |
| `Backoff`, `Binary`, `Numbers`, `Util` | reconnect delays in 64-bit arithmetic; frame headers and file streaming; decimal text; shared definitions |

A component that the program updates in place is a class whose methods are proved against a pure step function.
Runs are sequences of such steps, and the main theorems are about all of them. Histories that only the proofs need
(what was offered, delivered, accepted, acknowledged) are ghost fields or parts of the specification's state.

## Model

| member | source | states |
|---|---|---|
| Outbox.DeliveryOrder | agent/client/outbox.go:39-68 | Over every run of Attach, Detach, Drop and sends, an envelope is never delivered before a frame offered earlier, and each kind is delivered in the order it was offered. |
| Outbox.BufferOnlyWhileDown | agent/client/outbox.go:85-128 | Over every run something is buffered only while no live connection is attached, and what is buffered is newer than everything delivered. |
| Outbox.ExactlyOneFate | agent/client/outbox.go:85-128 | Over every run each item offered is delivered, buffered, evicted or discarded, exactly one of these and once. |
| Outbox.CountsAndBounds | agent/client/outbox.go:10-19 | Over every run offers equal deliveries plus buffered plus evicted plus discarded, and each buffer is the newest min(n, 256) envelopes or min(n, 128) frames given to it since its last clear. |
| Outbox.RunInvariant | agent/client/outbox.go:21-32 | The order, conservation and window invariants hold after every run. |
| Outbox.BriefOutage | agent/client/outbox.go:39-68 | From any state with nothing live attached, whatever it has buffered, and after any offers: a flush delivers as much as the connection takes of the newest frames then the newest envelopes held since the last clear and discards the rest; everything held arrives exactly if neither buffer overflowed and the connection takes it all. |
| Outbox.AttachWire | agent/client/outbox.go:53-64 | A flush sends the longest prefix of frames followed by envelopes that the connection takes. |
| Outbox.Connection.Send | agent/client/ws.go:229-256 | A write succeeds or fails, and the first failure is followed only by failures. |
| Outbox.SendAll | agent/client/outbox.go:53-64 | A flush loop sends until the first failure, and the wire gains exactly what was taken. |
| Outbox.Box.Attach | agent/client/outbox.go:43-68 | Attaching changes the history as specified and puts exactly the newly delivered items on the wire. |
| Outbox.Box.Detach | agent/client/outbox.go:70-75 | Only the connection goes; both buffers stay. |
| Outbox.Box.Drop | agent/client/outbox.go:77-83 | Both buffers are emptied into the discarded items; the connection stays. |
| Outbox.Box.SendEnvelope | agent/client/outbox.go:85-107 | An envelope goes to a live connection, otherwise to the buffer, evicting the oldest at 256. |
| Outbox.Box.SendBinary | agent/client/outbox.go:109-128 | A frame goes to a live connection, otherwise to its own buffer, evicting the oldest at 128. |
| Lifecycle.DeliveredInItsEpoch | cmd/agent/main.go:95-167 | Over every run of the connection loop nothing offered before local state was abandoned, by a fresh session or by the grace timer, is delivered after it. |
| Lifecycle.ShortOutageLosesNothing | cmd/agent/main.go:113-167 | From every reachable connected agent, failed writes or not: losing the connection, any mixture of offers and failed attempts, and a resume deliver in the same epoch the newest frames then envelopes held, as many as the new connection takes; nothing held is lost exactly if neither buffer overflowed and it takes them all. |
| Lifecycle.GraceOnlyWhileDown | cmd/agent/main.go:107-167 | The grace timer is armed only while no connection is up, and every wait between attempts is between 0.8 and 36 seconds. |
| Lifecycle.AdvanceKeepsInv | cmd/agent/main.go:113-167 | Every event of the loop keeps the outbox, epoch and timer invariants. |
| Lifecycle.LoopKeeps | cmd/agent/main.go:107-167 | Over every run: attempts are the failures since the last connection, the grace timer is armed from a loss to the next connection or its own end, local state is given up exactly by a fresh session or that timer, and every item is offered. |
| Lifecycle.WaitsBackOff | cmd/agent/main.go:122-136 | The wait after a failed attempt is the backoff for the number of failures in a row. |
| Lifecycle.AbandoningDiscards | cmd/agent/main.go:99-105 | Giving up discards the whole backlog and delivers none of it. |
| Lifecycle.ConnectionLifecycle | cmd/agent/main.go:95-167 | The loop drives the outbox through exactly the specified steps for every sequence of events. |
| DeviceState.StepKeepsLifecycle | internal/agent/state.go:40-134 | Each critical section keeps every prefix entry owned by a pending registration with that prefix and channel, and every channel pending, being closed or closed at most once. |
| DeviceState.ClosedAtMostOnce | internal/agent/state.go:114-134 | Over every interleaving of critical sections no channel is closed twice. |
| DeviceState.RoutesAreOpen | internal/agent/state.go:68-80 | Over every interleaving no closed channel can be reached by correlation id or by prefix at the time of the lookup. |
| DeviceState.DeliveryPanicsIff | internal/agent/connection.go:86-121 | The send that follows a lookup, after the lock is released, panics exactly if the channel was closed in between, which takes an expiry that ran in between and still found the dispatch registered. |
| DeviceState.PanicsIff | internal/agent/connection.go:86-121 | A run panics exactly if some send comes after the closing of its channel. |
| DeviceState.LateSendPanics | internal/agent/connection.go:86-121 | Such a run exists for every id that has a prefix. |
| DeviceState.Device.Route | internal/agent/state.go:68-73 | The channel of the pending dispatch, open when handed out, or none. |
| DeviceState.Device.RoutePrefix | internal/agent/state.go:75-80 | The channel of a pending dispatch with that prefix, open when handed out, or none. |
| DeviceState.RegisterKeepsOwned | internal/agent/state.go:40-56 | A granted registration on a fresh channel keeps every prefix entry owned by a pending dispatch with that prefix and channel. |
| DeviceState.UnregisterKeepsOwned | internal/agent/state.go:58-66 | Unregistering keeps every remaining prefix entry owned. |
| DeviceState.ExactIsOneToOne | internal/agent/state.go:13-27 | When exact, the prefix index maps each pending id to its own channel, one to one. |
| DeviceState.UnregisterExactIff | internal/agent/state.go:58-66 | Unregistering keeps the index exact if and only if the id is still pending or its prefix is unused. |
| DeviceState.HarmlessRunsStayExact | internal/agent/state.go:40-134 | Over every run of such unregistrations the index is the exact one-to-one image of the pending map. |
| DeviceState.LateUnregisterLosesEntry | internal/agent/state.go:58-66 | Counterexample for any two ids that share a prefix: unregistering after an expiry removes the entry of the newer dispatch. |
| DeviceState.SharedPrefix | internal/protocol/binary.go:54-70 | Such ids exist for every prefix. |
| DeviceState.Device.RegisterPending | internal/agent/state.go:40-56 | Succeeds exactly if the id has a prefix that is not in use; then a fresh channel is entered in both maps. |
| DeviceState.Device.UnregisterPending | internal/agent/state.go:58-66 | Removes the id and its prefix from the maps. |
| DeviceState.Device.StartGrace | internal/agent/state.go:89-99 | Replaces the timer. |
| DeviceState.Device.Resume | internal/agent/state.go:101-112 | Stops the timer and reports whether anything is pending. |
| DeviceState.Device.Expire | internal/agent/state.go:114-134 | Closes each pending channel exactly once and leaves the state empty. |
| DeviceState.Device.CollectChannels | internal/agent/state.go:114-127 | The first loop of expire gathers each pending channel once, in whatever order. |
| Hub.StepKeepsInv | internal/agent/hub.go:179-247 | Each operation keeps: an armed timer means offline, an offline device with pending dispatches has a timer, and every waiting dispatch is closed or pending on its own channel. |
| Hub.GraceTimers | internal/agent/hub.go:179-219 | In every reachable state a timer is armed only for an offline device, and always when it has pending dispatches. |
| Hub.NothingWaitsForever | internal/agent/hub.go:199-247 | In every reachable state a waiting dispatch has its channel closed, or its device online, or a timer due within a grace period whose firing closes that channel. |
| Hub.ExpiryClosesAll | internal/agent/hub.go:221-247 | Expiry and revocation close every channel held for the device and none of another device. |
| Hub.ResumeKeepsDispatch | internal/agent/hub.go:179-197 | A dispatch pending at a disconnect stays pending on the same open channel through any run that comes back before the deadline and neither finishes nor revokes it. |
| Hub.DisconnectArms | internal/agent/hub.go:199-219 | A disconnect by the current connection keeps every pending dispatch and arms the timer for a grace period. |
| Hub.ResumeFlagMeans | internal/agent/connection.go:300-336 | The resume flag is true exactly if some dispatch to the device still waits on an open channel. |
| Hub.Server.StateOf | internal/agent/hub.go:160-170 | Returns the state of the device, created empty on first use. |
| Hub.OnlineIff | internal/agent/hub.go:179-219 | After every run a device is online on a connection exactly if that is the last connection it registered and that connection has not unregistered since: a new one supersedes the old one, whose own teardown changes nothing. |
| Hub.Server.RegisterOnline | internal/agent/hub.go:179-197 | The new connection replaces any other as the one of the device, the replaced one is the one to close, and the flag says whether held work was waiting; the invariant is kept. |
| Hub.Server.UnregisterOnline | internal/agent/hub.go:199-219 | A superseded connection changes nothing at all; the current one goes offline, and pending dispatches stay with a timer a grace period away, or no timer if there are none. |
| Hub.Server.Dispatch | internal/agent/dispatch.go:70-95 | Offline exactly if the device is; accepted on a new open channel exactly if it is online and the prefix of the id exists and is free; nothing else changes. |
| Hub.Server.Finish | internal/agent/dispatch.go:80-95 | Unregisters a dispatch when it returns. |
| Hub.Server.Fire | internal/agent/state.go:89-99 | A due timer expires the held dispatches. |
| Hub.Server.RevokeDevice | internal/agent/hub.go:221-247 | Everything held for the device is closed and its dispatch state forgotten; its connection is the one to close and stays registered until its own teardown. |
| Hub.RevocationLeavesWindow | internal/agent/hub.go:199-247 | Between a revocation and the teardown of the connection a dispatch is still accepted, exactly if its id has a prefix; after the teardown it is held on an open channel for a whole grace period. |
| Bridge.EveryScript | internal/agent/dispatch.go:97-137 | For every sequence of messages, cancellation, closure and grace: callbacks are exactly those of the events consumed, in order; the outcome is that of the last event consumed; no earlier event was terminal; at most one cancel goes out. |
| Bridge.EveryGrace | internal/agent/dispatch.go:120-130 | After a cancellation at most one more message is consumed and no second cancel goes out, and callbacks and outcome are those of the events consumed. |
| Bridge.DecidedByMessage | internal/agent/dispatch.go:97-137 | A terminal message or closure after any quiet prefix ends the wait with its outcome after the callbacks of the prefix. |
| Bridge.DecidedByCancel | internal/agent/dispatch.go:101-130 | A cancellation after any quiet prefix sends one cancel if the agent is reachable, then takes the next message, closure or the end of the grace. |
| Bridge.StillWaiting | internal/agent/dispatch.go:97-137 | Without a terminal event or a cancellation there is no outcome yet. |
| Bridge.AgentDecides | internal/agent/dispatch.go:139-174 | A result, an agent error or a closed channel ends the dispatch with that result, that error or the reason, after anything that is none of these; the caller has been told exactly the progress and frames before it, in order. |
| Bridge.AgentUndecided | internal/agent/dispatch.go:139-174 | No other message ends it. |
| Bridge.AgentCancelled | internal/agent/dispatch.go:101-130 | A cancellation sends one cancel if the device has a connection; the next event still counts as an answer or a report, and without an answer the outcome is the error of the context. |
| Bridge.WaitForResult | internal/agent/dispatch.go:97-137 | The loop computes the trace of these theorems, for any decoder of messages. |
| Bridge.WaitOutCancel | internal/agent/dispatch.go:120-130 | The select after a cancellation computes the specified trace. |
| Relay.RelayRefines | internal/agent/relay.go:224-270 | Once a message has arrived, or if the first-message timer is not first, the relayed wait has the same callbacks, cancels and outcome as the local wait loop. |
| Relay.RelayAfterCancelRefines | internal/agent/relay.go:245-259 | The same after a cancellation. |
| Relay.TimeoutOnlyBeforeFirstMessage | internal/agent/relay.go:224-270 | The no-response error occurs exactly if the timer fires before any message and before a cancellation. |
| Relay.HearsAll | internal/agent/relay.go:280-302 | From what the owner publishes, whatever ignored events come between, the requester recovers its callbacks in order and its outcome. |
| Relay.OutcomeHasText | internal/agent/relay.go:372-408 | Every error outcome of a local dispatch has a non-empty text, so its message reads as an error. |
| Relay.Transparent | internal/agent/relay.go:195-302 | If no message is lost and neither timer nor cancellation comes first, callbacks and outcome of a relayed dispatch are those of the local dispatch of the owner, errors up to their text. |
| Relay.RelayedDecides | internal/agent/relay.go:260-302 | A published error text or result, in this order of precedence, or a closed subscription ends the relayed dispatch; progress and frames before it are reported in order and garbage is skipped. |
| Relay.RelayedCancelled | internal/agent/relay.go:245-259 | A cancellation sends one cancel to the owner; the next message still counts, and without an answer the outcome is the error of the context. |
| Relay.RelayedAnswer | internal/agent/relay.go:372-408 | Whatever ends a dispatch on the device of the owner ends it at the requester, after the same reports: a result as it is, an error by its text. |
| Relay.RelayedRefusal | internal/agent/relay.go:372-408 | A dispatch that the owner cannot start comes back as the reason why. |
| Relay.TimesOutIff | internal/agent/relay.go:224-244 | The first-message timer decides exactly if only ignored events come before it. |
| Relay.WaitForRelayResult | internal/agent/relay.go:224-270 | The loop computes the specified trace. |
| Relay.RelayWaitOutCancel | internal/agent/relay.go:251-259 | The select after a cancellation computes the specified trace. |
| Locations.RecordNamesOwner | internal/agent/relay.go:48-79 | Over every run a present record names the replica that last marked the device online. |
| Locations.OnlyTheOwnerRemoves | internal/agent/relay.go:57-65 | MarkOffline ends a record exactly if it is the record of that device and names the caller. |
| Locations.NeverRelaysToItself | internal/agent/relay.go:175-195 | Over every run a relayed dispatch goes to the replica that last marked the device online; that this is another replica, and the device not connected here, is the guard of the choice. |
| Locations.RouteIff | internal/agent/relay.go:175-195 | Over every run a dispatch stays local exactly if the device is connected here; it is relayed to a replica exactly if the device is not, its record is alive and names that replica, and that is not this one; otherwise the device is offline. |
| Locations.OwnedIsRelayedTo | internal/agent/relay.go:48-55 | For three heartbeat intervals after a replica marks a device online, unless the record is moved or given up, every other replica not connected to it relays to that replica. |
| Locations.BeatingIsRelayedTo | internal/agent/relay.go:410-428 | The same for as long as the heartbeat never misses three beats in a row. |
| Locations.UnrefreshedEnds | internal/redisclient/fake.go:45-62 | A record that is neither refreshed nor marked again has no owner once more than its ttl has passed. |
| Locations.ReplicaBridge.Choose | internal/agent/relay.go:178-195 | The hub is asked before the location record, and the choice is as above. |
| Locations.HeartbeatKeepsRecord | internal/agent/relay.go:410-428 | A record refreshed every third of its ttl stays live at every moment of every run that never misses three beats in a row and in which its owner does not give it up. |
| Locations.MarkOnlineStarts | internal/agent/relay.go:48-55 | Marking a device online gives its record three heartbeat intervals. |
| Locations.KeyInjective | internal/agent/relay.go:34 | Different devices have different keys. |
| Locations.Fake.Get | internal/redisclient/fake.go:45-62 | A key past its time is dropped and not found. |
| Locations.Fake.Set | internal/redisclient/fake.go:64-74 | Sets the value, and a deadline or none. |
| Locations.Fake.Expire | internal/redisclient/fake.go:76-88 | Moves the deadline of a key that is present. |
| Locations.Fake.Del | internal/redisclient/fake.go:90-98 | Removes value and deadline. |
| Locations.LocationTracker.MarkOnline | internal/agent/relay.go:48-55 | Writes the record with the full ttl. |
| Locations.LocationTracker.MarkOffline | internal/agent/relay.go:57-65 | Deletes the record only if it names this replica. |
| Locations.LocationTracker.Refresh | internal/agent/relay.go:81-85 | Extends the record of every listed device. |
| Replay.RefusedIffEvicted | internal/session/replay.go:58-93 | Replay is refused exactly if an event with a later id is no longer retained, or the id asked for is negative and nothing was evicted. |
| Replay.ReplayIsTheRest | internal/session/replay.go:58-93 | A granted replay is exactly the events of the unbounded log with a later id, consecutive and all retained. |
| Replay.ReplayBuffer.constructor | internal/session/replay.go:28-36 | A capacity below one becomes one. |
| Replay.ReplayBuffer.Append | internal/session/replay.go:38-56 | The buffer keeps exactly the newest min(n, capacity) of all events appended, under consecutive ids. |
| Replay.ReplayBuffer.Since | internal/session/replay.go:58-93 | Succeeds exactly if the id is at least nextID - 1 - len, and then returns the specified part of the log. |
| SseWire.FrameRoundTrip | internal/transport/sse.go:86-99 | A reader that follows sections 9.2.5 and 9.2.6 of the WHATWG HTML standard, between events, dispatches exactly the event written, for multi-line, empty and newline-terminated data. |
| SseWire.FrameRoundTripIff | internal/transport/sse.go:86-99 | It does so if and only if the event name has no CR or LF and the data no CR. |
| SseWire.NoticeMeansNothing | internal/transport/sse.go:62-84 | Heartbeat and end-of-session lines are comments or unknown fields. |
| SseWire.ReadNotice | internal/transport/sse.go:62-84 | Such a line with its blank line leaves the reader as it was. |
| SseWire.StreamRoundTrip | internal/transport/sse.go:56-99 | A whole stream reads back as the events written, and a stream cut anywhere as a prefix of them. |
| SseWire.SplitJoined | internal/transport/sse.go:95-97 | Splitting data into lines and joining them again gives it back. |
| SseWire.IdRoundTrip | internal/transport/sse.go:90 | The id that a client sends back as a header, trimmed and parsed, is the id that was written; its text breaks no line. |
| SseWire.WriteFrame | internal/transport/sse.go:86-99 | The writer produces the specified text. |
| Numbers.ParseDecimal | internal/transport/sse.go:30-34 | Parsing the decimal text of a 64-bit integer gives it back. |
| SseStream.ServeSse | internal/transport/sse.go:23-84 | 400 with the error text exactly for a malformed header, 204 exactly if something after the id was evicted or the id is negative; otherwise the log grows by the events emitted before the end and the body reads back as everything after the id. |
| SseStream.LiveLogs | internal/transport/sse.go:56-84 | The live loop logs exactly the events emitted before the channel closes, the session ends or the client goes, in order. |
| SseStream.LiveWrites | internal/transport/sse.go:56-84 | It writes one chunk for each signal up to then: an event under the id it is logged under, a heartbeat, or the closing notice. |
| SseStream.LiveParses | internal/transport/sse.go:56-99 | The client of a live stream sees exactly those events under the ids that follow the log. |
| SseStream.HeartbeatIsInvisible | internal/transport/sse.go:73-75 | A heartbeat anywhere before the end changes neither the log nor the events that the client sees. |
| SseStream.RunLive | internal/transport/sse.go:56-84 | The log grows by exactly the events emitted before the end, and the text written reads back as exactly these. |
| SseStream.LiveCarries | internal/transport/sse.go:56-84 | The live part of a response carries exactly the events it appends to the log. |
| SseStream.ReplayThenLive | internal/transport/sse.go:30-84 | Replay from an id followed by live events carries everything from there to the end of the log. |
| SseStream.ConsecutiveIds | internal/transport/sse.go:23-84 | Over every run of connections, each cut anywhere, a client that reconnects with its last id receives consecutive ids with no gap and no duplicate, each with the event emitted under it. |
| SseStream.ConnectKeepsGapFree | internal/transport/sse.go:23-84 | One more connection keeps what the client has a contiguous part of the log. |
| SseStream.NoContentIffEvicted | internal/transport/sse.go:30-40 | A client that has received something and reconnects gets 204 exactly if an event later than the last one it received was evicted, otherwise 200; events skipped before its first one do not count. |
| SseStream.SkippedIsNotMissed | internal/transport/sse.go:30-40 | A client that was skipped by one event and has received the next is answered with 200 although the skipped one has been evicted unseen. |
| SseStream.CaughtUp | internal/transport/sse.go:23-84 | A connection answered with 200 and read to its end leaves the client with every event from the start of the connection that brought its first event; that is everything logged since its first connection exactly if that start is where the first connection found the log. |
| SseStream.NothingSkippedIff | internal/transport/sse.go:30-59 | Nothing logged since the first connection of a client is skipped exactly if none of its connections starts, with nothing received yet, after events have been logged. |
| SseStream.SkippedIsLost | internal/transport/sse.go:30-59 | What was skipped is lost for good: once a client has an event, no later run of connections brings it an earlier one. |
| SseStream.FirstEventSkipped | internal/transport/sse.go:42-67 | A run in which it happens: an event written to the first connection that never reaches the client is skipped by the next one, both answered with 200. |
| RateLimit.NeverExceeded | internal/transport/ratelimit.go:77-99 | Over every run with a non-decreasing clock, for each session and kind and at every instant t, at most the limit of accepted calls lie in (t - 60s, t]. |
| RateLimit.RefusedIffFull | internal/transport/ratelimit.go:77-99 | A call is refused exactly if the full history has the limit of accepted calls in its window. |
| RateLimit.CutIsFilter | internal/transport/ratelimit.go:130-140 | On the sorted list the prefix cut keeps exactly the times inside the window. |
| RateLimit.PrunedCounts | internal/transport/ratelimit.go:130-140 | The pruned list is as long as the number of accepted calls in the window. |
| RateLimit.AcceptKeepsBounded | internal/transport/ratelimit.go:77-99 | Accepting below the limit keeps the bound at every instant. |
| RateLimit.SlotsAreCounted | internal/transport/ratelimit.go:101-128 | Over every run the slot counter is the number of grants in the history less the number of returns made while the session held a slot, within the limit; without surplus returns it is grants less returns. |
| RateLimit.Prune | internal/transport/ratelimit.go:130-140 | The cut loop returns the list without its expired prefix. |
| RateLimit.RateLimiter.constructor | internal/transport/ratelimit.go:36-54 | Non-positive limits become 120, 60 and 10. |
| RateLimit.RateLimiter.Allow | internal/transport/ratelimit.go:77-99 | Grants a call exactly if fewer than the limit of its kind were accepted in the last minute, and records it. |
| RateLimit.RateLimiter.AcquireDispatchSlot | internal/transport/ratelimit.go:101-115 | Grants a slot exactly below the limit. |
| RateLimit.RateLimiter.ReleaseDispatchSlot | internal/transport/ratelimit.go:117-128 | Returns a slot; an extra release changes nothing. |
| Schema.ValidateDocument | internal/mcp/schema/schema.go:33-48 | No errors exactly if both documents decode and the arguments conform; every error and no other is located in the document. |
| Schema.Validate | internal/mcp/schema/schema.go:50-94 | Returns exactly the violations of the schema at the value, at any depth, terminating on the structure of the value. |
| Schema.ValidateAdditional | internal/mcp/schema/schema.go:96-111 | A key without a property schema is an error under false, validated under a sub-schema and free otherwise. |
| Schema.ConformsIffNothingReported | internal/mcp/schema/schema.go:50-94 | A value conforms to the schema if and only if no violation is reported. |
| Schema.NonconformingIsReported | internal/mcp/schema/schema.go:50-94 | For a value that does not conform a reported violation is constructed. |
| Schema.ReportedIffLocated | internal/mcp/schema/schema.go:50-94 | An error is reported exactly if a way of keys and indices into the document leads to a failed constraint, and its path is the path passed in extended by that way. |
| Schema.ValidateScalar | internal/mcp/schema/schema.go:57-68 | Exactly the enum and range violations of the value itself. |
| Schema.TypesByName | internal/mcp/schema/schema.go:113-157 | A value has the type it is named by and no other, an integral number within 64 bits is also an integer, and an unknown name constrains nothing. |
| Schema.ValidateRequired | internal/mcp/schema/schema.go:70-75 | Exactly the required fields that are absent or null. |
| Registry.AcknowledgedSurvives | internal/devices/registry.go:103-148 | After an acknowledged operation and any run of refused operations, failed saves, crashes and restarts, starting up again gives exactly the acknowledged state, until another change is saved. |
| Registry.CodesAreSingleUse | internal/devices/registry.go:185-254 | Across every run of operations, failed saves, crashes and restarts, each code is approved or rejected with an acknowledgement at most once, and from then on disk and memory have it used. |
| Registry.DiskNeverForgets | internal/devices/registry.go:78-148 | Across every run the disk forgets no code, alters none and forgets no use of one. |
| Registry.OneDevicePerCode | internal/devices/registry.go:185-238 | Across every run a code yields at most one acknowledged device. |
| Registry.PairedInTime | internal/devices/registry.go:185-238 | Across every run an acknowledged approval was judged before its code expired, and the disk still has that code as used; a device nobody tried to revoke bears the name its code was created for and is stamped no earlier than it was judged. |
| Registry.StampedInTimeIff | internal/devices/registry.go:198-228 | The pairing time comes from a second clock reading: for an approval judged in time it is within the time of the code exactly if that reading is. |
| Registry.StampedLate | internal/devices/registry.go:198-228 | A run in which an acknowledged device has a pairing time after the expiry of its code. |
| Registry.PairedDevicesLast | internal/devices/registry.go:185-268 | Across every run an acknowledged device stays in memory and on disk and its token authenticates it until somebody tries to revoke it. |
| Registry.RevokedTokensFail | internal/devices/registry.go:323-333 | After an acknowledged revocation the token authenticates nobody, even after a restart. |
| Registry.UnsavedRevocationReturns | internal/devices/registry.go:323-333 | Counterexample for unacknowledged ones: after a revocation that failed to save, asking again gives not found, yet a restart brings the device back. |
| Registry.RevocationUndoneIff | internal/devices/registry.go:323-333 | A revocation followed by a restart is undone exactly if its save failed or the process died before it. |
| Registry.UnsavedRevocationReturnsIff | internal/devices/registry.go:103-148 | After an unsaved revocation and any run of one process, a restart brings the device back exactly if nothing at all was saved in between. |
| Registry.StepKeepsInv | internal/devices/registry.go:150-333 | Every operation keeps the code, token, device and pairing invariants. |
| Registry.FileRegistry.constructor | internal/devices/registry.go:57-101 | Memory starts as what the file holds. |
| Registry.FileRegistry.LoadDevices | internal/devices/registry.go:95-97 | Loading yields the map of the list. |
| Registry.LastDeviceWins | internal/devices/registry.go:95-97 | In that map an id is known exactly if it is in the list, and its last record wins. |
| Registry.LastCodeWins | internal/devices/registry.go:98-100 | The same for pairing codes. |
| Registry.FileRegistry.Save | internal/devices/registry.go:103-148 | A save that succeeds makes a restart load exactly what is in memory; one that fails leaves the file alone. |
| Registry.FileRegistry.Generate | internal/devices/registry.go:156-168 | The first free code of at most ten, or an error. |
| Registry.FileRegistry.CreatePairingCode | internal/devices/registry.go:150-183 | The first free of at most ten generated codes is entered unused, for the given name and ttl, in memory even if the save fails, and acknowledged only if it succeeds; without one nothing changes. |
| Registry.FileRegistry.ApprovePairing | internal/devices/registry.go:185-238 | Approved exactly if the code is known, unused, by the first clock reading not expired, generation works and the save succeeds; then the code is used and the device added under the name of the code in one save; each refusal has its own condition and changes nothing. |
| Registry.FileRegistry.RejectPairing | internal/devices/registry.go:240-254 | Done exactly if the code is known and unused and the save succeeds; a known unused code is used afterwards, expired or not, nothing else changes, and the file follows exactly if the save succeeds. |
| Registry.FileRegistry.AuthenticateToken | internal/devices/registry.go:256-268 | A device that accepts the token, or a refusal exactly if there is none. |
| Registry.FileRegistry.SetDeviceOnline | internal/devices/registry.go:296-308 | Sets flag and last-seen time of one known device and nothing else; acknowledged and on disk exactly if the save succeeds. |
| Registry.FileRegistry.SetCapabilities | internal/devices/registry.go:310-321 | Sets the capabilities of one known device and nothing else; acknowledged and on disk exactly if the save succeeds. |
| Registry.FileRegistry.RevokeDevice | internal/devices/registry.go:323-333 | Removes one known device and nothing else, from memory in any case; acknowledged and gone from disk exactly if the save succeeds. |
| Jobs.FindIsLatest | internal/jobs/memory_store.go:188-200 | In every reachable state the idempotency index gives exactly the most recently created job with the key, as it is now. |
| Jobs.ListingIsNewestOfSession | internal/jobs/memory_store.go:168-186 | In every reachable state a listing has only jobs of the session, none twice, newest first, and omits one only when the limit is reached with jobs at least as new. |
| Jobs.SessionJobs | internal/jobs/memory_store.go:168-177 | The session index is the filter of all jobs by session, each once. |
| Jobs.TimersOfLiveJobs | internal/jobs/memory_store.go:87-166 | In every reachable state a timer is registered exactly for the jobs that never ended, with the deadline of its creation; none belongs to an ended job. |
| Jobs.SecondCreateIff | internal/jobs/memory_store.go:62-69 | In every reachable state a job is accepted under a key exactly if no job has it or the most recently created one is failed at that moment. |
| Jobs.KeptUnlessRevived | internal/jobs/memory_store.go:135-166 | At most one job per key is not failed: a step keeps this if and only if it does not take a replaced job out of its failed state. |
| Jobs.OneLiveJobPerKey | internal/jobs/memory_store.go:55-97 | Over every run without such an update two jobs under one key are never both live. |
| Jobs.RevivedJobsCollide | internal/jobs/memory_store.go:135-166 | A run with such an update, in which two jobs under one key are live. |
| Jobs.MemoryStore.constructor | internal/jobs/memory_store.go:37-53 | A non-positive default timeout becomes 300 seconds. |
| Jobs.MemoryStore.CreateJob | internal/jobs/memory_store.go:55-97 | Refuses a missing or unnamed job and a key held by a job that has not failed; otherwise enters the completed record in every table, and leaves it with the caller. |
| Jobs.MemoryStore.OnTimeout | internal/jobs/memory_store.go:99-123 | A job that has not ended fails with the reason timeout and its agent work is cancelled; otherwise nothing happens. |
| Jobs.MemoryStore.UpdateStatus | internal/jobs/memory_store.go:135-166 | Status and time change; result and error only if given, the completion time and the timer only if the new status is terminal; nothing else changes. |
| Jobs.MemoryStore.FindByIdempotencyKey | internal/jobs/memory_store.go:188-200 | The current record of the holder of the key. |
| Jobs.MemoryStore.ListBySession | internal/jobs/memory_store.go:168-186 | The front of some newest-first arrangement of the jobs of the session. |
| Backoff.BaseIsCappedDoubling | agent/client/ws.go:50-57 | For every attempt the base is min(10^9 * 2^(attempt-1), 30 * 10^9) ns although the 64-bit shift wraps. |
| Backoff.OverflowIsCapped | agent/client/ws.go:54-57 | Every shift that leaves 64 bits ends at the cap: a wrapped positive value is a multiple of a power of two already above it. |
| Backoff.WrappedMultipleIsCapped | agent/client/ws.go:54 | A multiple of 2^43 is still one after wrapping to 64 bits, so it is not positive or above the cap. |
| Backoff.BaseMonotone | agent/client/ws.go:50-57 | The base is positive, monotone in the attempt and at most 30 seconds. |
| Backoff.JitterBounded | agent/client/ws.go:59-65 | The jittered delay is within 20% of the base for every random number in [0, 1). |
| Backoff.JitterSpreads | agent/client/ws.go:59-65 | It grows with the random number, from 20% below the base at 0 through the base at one half. |
| Backoff.DelayRange | agent/client/ws.go:48-65 | Every delay is between 0.8 and 36 seconds. |
| Binary.HeaderRoundTrip | internal/protocol/binary.go:36-52 | Decoding an encoded header followed by any payload gives the header back. |
| Binary.HeaderBytesRoundTrip | internal/protocol/binary.go:36-52 | Encoding a decoded header gives its bytes back. |
| Binary.EncodeHeaderInto | internal/protocol/binary.go:36-42 | Writes prefix, big-endian sequence number and type in place and leaves the rest of the buffer alone. |
| Binary.PrefixOfUuid | internal/protocol/binary.go:54-70 | The correlation prefix of a canonical UUID is its first four bytes. |
| Binary.PrefixIff | internal/protocol/binary.go:54-70 | An id has a prefix exactly if, hyphens aside, it starts with eight hexadecimal digits. |
| Binary.PrefixIgnoresCase | internal/protocol/binary.go:54-70 | Upper-case digits give the same prefix. |
| Binary.RoutedIff | internal/agent/connection.go:102-121 | A frame is passed on exactly if it has a whole header with the prefix, and its payload is the rest. |
| Binary.OtherTypesAreSkipped | internal/mcp/tools/fs.go:224-258 | Frames of other types under the prefix are not part of the file. |
| Binary.StreamFileContent | agent/client/dispatch.go:506-531 | Sends exactly the specified frames, or none for an id without a prefix. |
| Binary.StreamChunks | agent/client/dispatch.go:506-531 | The offset and sequence loop sends 64 KiB chunks in order. |
| Binary.Reassemble | internal/mcp/tools/fs.go:224-258 | Appending payloads in order of arrival. |
| Binary.FileArrives | agent/client/dispatch.go:506-531 | Splitting, encoding, demuxing and appending give back any byte string: ceiling(length / 65536) frames with one prefix, each with its own 64 KiB of the data, numbered 0, 1, 2 and so on modulo 2^32. |
| Binary.FileRoundTrip | internal/agent/connection.go:102-121 | The same when frames with other prefixes are interleaved in any way. |
| Binary.ConcurrentReads | internal/agent/connection.go:102-121 | Two concurrent reads with different prefixes each get their own bytes. |

## Assumptions

- One operation is one step in `Outbox`, `Lifecycle`, `Hub`, `Locations`, `Registry` and `Jobs`. The Go code releases
  its locks inside `Attach`, the sends, `unregisterOnline`, `Dispatch` and `MarkOffline`, and a timer can fire while
  `resume` holds the lock; the grace, order and ownership facts are claimed for atomic operations only.
  `DeviceState` is at the granularity of critical sections, closings and the sends that follow a lookup.
- A connection is a number of writes that succeed before the first failure, which is final.
- Clock readings, random numbers, generated ids, codes and tokens, and the success of a save are parameters.
  Generated ids and tokens are new; the limiter's clock never goes back. An approval reads the clock twice, once to
  judge the code and once to stamp the device, and the second reading is not earlier.
- A token stands for its bcrypt hash; JSON encoding is taken to be lossless.
- Go maps are iterated in an arbitrary order; the proofs hold for each.

## Where the code and its description differ

- `; session expired` in `serveSSE` is not an event-stream comment. A standard reader takes it for a field with an
  unknown name, so it dispatches nothing all the same (`SseWire.NoticeMeansNothing`).
- A negative `Last-Event-ID` gets 204 although nothing was evicted (`Replay.RefusedIffEvicted`).
- A revocation whose save fails answers an error and then "not found", and yet the device is back after a restart
  (`Registry.UnsavedRevocationReturns`).
- A dispatch that unregisters after an expiry can remove the prefix entry of a newer dispatch
  (`DeviceState.LateUnregisterLosesEntry`).
- A client of `serveSSE` that has not received anything has no id to send, so it starts over at the end of the log:
  an event written to a connection that breaks before it arrives is skipped silently
  (`SseStream.FirstEventSkipped`; exactly when, `SseStream.NothingSkippedIff`).
- A revoked device stays in the online map until its connection is torn down, and is dispatched to until then
  (`Hub.RevocationLeavesWindow`).
- The channel of a dispatch is looked up under the lock and sent on after it: an expiry or a revocation in between
  closes it, and the send panics (`DeviceState.LateSendPanics`; exactly when, `DeviceState.DeliveryPanicsIff`).
- A code approved just before it expires can give a device whose pairing time is after the expiry, because the time is
  read again once the token has been hashed (`Registry.StampedLate`; exactly when, `Registry.StampedInTimeIff`).
- Nothing guards a job's status: an update can revive a failed job after another has taken its idempotency key
  (`Jobs.RevivedJobsCollide`). Terminal statuses are not claimed to be final.
- The location heartbeat tolerates two missed beats in a row, although the code promises one (`Locations.HeartbeatKeepsRecord`).

## Left out

- Relay.Transparent: takes it as given that no message is lost, because subscriptions and bridge channels drop when full.
- Relay.OutcomeHasText: the variable tail of an error text (decoder detail, cause of a cancellation) is a fixed text.
- SseStream.ConsecutiveIds: one SSE writer at a time, events that the writer can carry, and ids below 2^63.
- SseWire.FrameRoundTrip: the reader has no `retry` field and reports the id of each dispatched event, which is what the client sends back.
- Schema.Validate: enum members are scalars, because comparing arrays or objects panics in Go; numbers are reals, and integer means integral within 64 bits.
- Backoff.JitterBounded: the jitter is computed over reals, not in floating point.
- Hub.NothingWaitsForever: device states are values in a map, not shared pointers, and the timer is claimed to be due, not to be scheduled.
- Jobs.FindIsLatest: assumes new job ids and jobs that are created before they have ended.
- Jobs.ListingIsNewestOfSession: ties in creation time may come in any order, because the Go sort is not stable.
- Jobs.TimersOfLiveJobs: a timeout of more than 2^63 nanoseconds does not overflow in the model.
- Registry.FileRegistry.constructor: a file that cannot be read or parsed, which makes start-up fail, is not modelled.
- The contents and 64-message capacity of dispatch channels; a channel is an identity with a log of closings.
- Failures of the publish, subscribe and encoding calls around a relayed dispatch, and the table of relayed dispatches that a cancel looks up.
- Pairing approval channels, `Get`, `List` and `PendingPairingCodes`: each is one map access or one filter.
- The registry's online flag as a view of the live connection: tear-down clears it even for a superseded connection.
- The Redis registry, whose approval is not atomic across replicas.
- WebSocket, HTTP, Redis, PTY, display, process and service-manager code; JSON, hashing and id generation.
- Tool definitions, prompts, completions, configuration, updates, and the file-system and shell policies.
