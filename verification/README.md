# Ingest farm: the control plane and its companions, modelled and proved

The API's scheduler commits an intent to a channel row and publishes a job; a
single-threaded worker takes jobs from separate Redis lists that have no order
between them, holds sessions that die whenever they like, and crashes whenever it
likes. This project models that protocol, the handlers that implement it, and four
neighbours: the SRT parent/child handshake, the ETR 290 monitor (ETSI TR 101 290,
sections 5.2.1 and 5.2.2), the post-processing of a finished recording (HLS
playlists as in sections 4.3.2.1, 4.3.3.4 and 4.3.3.5 of RFC 8216), and its
cataloguing.

## How it is laid out

- `Common`: options and sequences without repetition.
- `ControlPlane`, `Handlers`: the tables, a lens from the tables to the slice of
  one channel, and each handler as a function on that slice with what it keeps.
- `Protocol`: heartbeat, drain and the whole protocol as a state machine. `Books`: the
  part of its invariant no crash can break; `Steps`: the whole inductive invariant.
  `Runs`: what every crash-free run guarantees; `Lifecycle`: what holds over runs with
  crashes and startups anywhere; `Intents`: which of two conflicting jobs wins;
  `Recovery`: crash and startup, and why each assumption is needed; `Strays`: what
  becomes of the recordings a crash leaves behind; `Resets`: the fifth list, whose jobs
  end a tick.
- `Worker`, `Scheduler`: the two classes as they are written, over shared `Database`
  and `Broker` objects, every method proved equal to its step of the protocol.
  `Tables` holds the same handlers on the flat tables, the form the methods update.
- `CommandFile`, `Handshake`, `Timeouts`: the command file's text, the record/stop
  handshake, and what it still promises after a command was given up on.
- `RateWindow`, `Freshness`: the child's receive rate and the snapshots it publishes.
- `Influx`, `CounterNames`, `InfluxLine`, `InfluxBody`, `Separators`: escaping, one
  row, a body, and what separators in tag values do.
- `Etr290`, `Sidecar`: roll-up, accumulation and the shared session.
- `Text`, `VodLines`, `Playlist`, `Duration`: strings and HLS playlists.
- `Segments`, `Catalog`: the master file and exactly-once cataloguing.

## Assumptions

What a run may do is stated by the guards of `Protocol.Enabled`; the rest is in the
shape of the steps.

- Callbacks of the main loop are atomic: a tick, a connect job and a startup are
  each one step.
- A scheduler's guard check and its commit are one step; a successful publish may
  come any time later; a failed publish and its revert are one step, which changes
  nothing. `Recovery.LateRevertStrands` shows a stranded channel without this.
- Calls the worker makes to the database and to Redis succeed. A session can outlive
  its deleted channel, and a start on it then inserts a row for no channel; a
  database that enforces the foreign key refuses it.
- A dead session is reaped by a heartbeat before a connect job for its channel runs.
  `Recovery.ConnectOverDeadIff` says exactly when the agreement survives otherwise.
- A uuid is a number no row, queue or event has used before.
- Equal start times, which the newest-recording query leaves open, are told apart by
  identifier.

## Where the code and its description part

- The drain is described as applying the last accepted intent. A start asked last
  always wins. A stop asked last wins exactly when the tick still finds the row
  stopping and the session not dead (`Intents.LastIntentWinsIff`), so it can lose to
  a handler that ran in between (`Intents.StaleStartBeatsStop`).
- Startup is described as recovering from a previous run. It restores the protocol's
  invariant exactly when the crash hits no channel between its connect and the next
  heartbeat and no connect job the main loop had taken (`Recovery.CrashKeepsIff`);
  exactly the recordings of unclaimed or deleted channels stay in progress, unknown to
  the worker (`Strays.LeftBehindIff`). Such a row is closed by a stop that finds no
  session, but a disconnect leaves its channel idle over it (`Strays.StopCloses`,
  `Strays.DisconnectLeaves`); what else ends it over the rest of the worker's life is
  `Strays.StrayUntilClosed`.
- Tag values are unescaped after the line has been cut at spaces and commas. The tags
  of a row come back exactly when no value holds either and the writer's escaping
  keeps every backslash (`Separators.TagsReadBackIff`); the row itself is lost
  exactly when a value holds a space, unless the only one ends the last value
  (`Separators.SpacesLoseRowIff`).
- Segments are listed in capture order exactly up to 100000 of them
  (`Segments.ListedInCaptureOrder`). All recordings of a session share one
  directory, so a later one's master holds the earlier ones' bytes too
  (`Segments.BuildMaster`).
- Rewriting after finalising equals rewriting, except for an empty playlist
  (`Playlist.RewriteAfterFinalize`).
- A monitor that reported its own failure is shown available again when its file
  then becomes unreadable within the snapshot's lifetime
  (`Freshness.FailureThenUnreadable`).
- After a timeout an acknowledged record need not have been executed. It is sure to
  have been exactly when, at its sending, the status did not say recording and, while
  the child polls, neither the capture nor what the commands left behind can make of it
  did (`Timeouts.RecordHonestIff`). For a stop: exactly when the status said recording
  and, while the child polls, so did the capture, with no stop already taken
  (`Timeouts.StopHonestIff`). A stop given up on is enough to spoil the next record
  (`Timeouts.StaleStatusMisleads`).
- The session's counters do not depend on the order of the intervals exactly when all
  intervals report one severity per counter (`Sidecar.OrderFreeIff`); the parser does
  not check that a row's severity is its counter's own.

## Model

| member | source | states |
|---|---|---|
| Worker.IngestWorker.FailActiveRecording | ingest_farm/worker/main.py:193-210 | the newest row in progress, and only it, becomes failed; reports whether there was one |
| Worker.IngestWorker.FinalizeRecording | ingest_farm/worker/main.py:431-471 | the remembered row, else the newest in progress, is completed and published once on both event queues; nothing happens to a session that neither records nor is remembered |
| Worker.IngestWorker.HandleRecordStart | ingest_farm/worker/main.py:367-408 | a record start on the tables: held without a live session, a no-op while recording, else a new row in progress or, refused, a failed one |
| Worker.IngestWorker.HandleRecordStop | ingest_farm/worker/main.py:410-429 | a record stop on the tables, with and without a session |
| Worker.IngestWorker.HandleDisconnectJob | ingest_farm/worker/main.py:351-365 | teardown on the tables, finalising a recording session first |
| Worker.IngestWorker.HandleConnectJob | ingest_farm/worker/main.py:287-338 | all outcomes of a connect: already up, at capacity, unknown channel, failure, and success with a nested record start |
| Worker.IngestWorker.IdleConnect | ingest_farm/worker/main.py:93-98 | a connect job on the main loop is the protocol's connect step |
| Worker.IngestWorker.HeartbeatTick | ingest_farm/worker/main.py:254-285 | claiming, then reaping every dead session, channel by channel, is the protocol's heartbeat |
| Worker.IngestWorker.ResolveOps | ingest_farm/worker/main.py:164-181 | one op per channel: disconnect over all, stop over start exactly when the row says stopping |
| Worker.IngestWorker.CollectAll | ingest_farm/worker/main.py:121-136 | three lists read to their end give the channels in first-seen order and each channel's ops without repetition |
| Worker.IngestWorker.CollectResets | ingest_farm/worker/main.py:138-145 | the reset list read to its end, payloads without a channel discarded |
| Worker.IngestWorker.DrainControlQueues | ingest_farm/worker/main.py:112-162 | the drain loops are the protocol's drain of what was queued, and forward the resets read before the handlers ran |
| Worker.IngestWorker.GlibTick | ingest_farm/worker/main.py:100-110 | a tick is the drain of the heartbeat's state; a reset is forwarded exactly to the channels with a queued one, a session that was alive and no disconnect in the tick |
| Worker.IngestWorker.ReconcileOrphanedChannels | ingest_farm/worker/main.py:212-245 | exactly the claimed, active channels without a session are reset, each with its newest recording failed |
| Worker.IngestWorker.StartUp | ingest_farm/worker/main.py:84-91 | reconciliation reads the claim before it is overwritten |
| Worker.IngestWorker.Shutdown | ingest_farm/worker/main.py:489-497 | every session is torn down as by its disconnect handler |
| Worker.Broker.TryPop | ingest_farm/common/events.py:98-102 | oldest job first; the other lists are untouched |
| Scheduler.Scheduler.CommitThenPublish | ingest_farm/orchestrator/scheduler.py:33-58 | intent and job together, or neither |
| Scheduler.Scheduler.ConnectChannel | ingest_farm/orchestrator/scheduler.py:60-79 | the guarded connect request |
| Scheduler.Scheduler.DisconnectChannel | ingest_farm/orchestrator/scheduler.py:81-102 | the guarded disconnect request |
| Scheduler.Scheduler.StartRecording | ingest_farm/orchestrator/scheduler.py:104-126 | the guarded start request, connecting an idle channel first and reading the status again |
| Scheduler.Scheduler.StopRecording | ingest_farm/orchestrator/scheduler.py:128-142 | the guarded stop request |
| Scheduler.Scheduler.ResetEtr290 | ingest_farm/orchestrator/scheduler.py:144-166 | a reset is queued exactly for a live SRT channel and changes no status |
| Scheduler.Scheduler.RemoveRecording | ingest_farm/api/main.py:201-206 | the recording row and its asset row go |
| Scheduler.Scheduler.DeleteChannel | ingest_farm/api/main.py:352-364 | refused unless idle or error; else every recording row of the channel with its asset row, and the channel, go, nothing else |
| Scheduler.Scheduler.DeleteRecording | ingest_farm/api/main.py:498-507 | refused while in progress; else that row and its asset row go |
| Scheduler.EffectIsProtocol | ingest_farm/orchestrator/scheduler.py:33-58 | an accepted request is an enabled accept and publish of the protocol, a refused or unpublished one no step at all |
| Scheduler.StartAccepted | ingest_farm/orchestrator/scheduler.py:104-126 | what an accepted start leaves, for each status it can be accepted in |
| Handlers.HeartbeatKeeps | ingest_farm/worker/main.py:254-285 | a heartbeat keeps the agreement of rows, maps and status, strands no intent, and leaves only live sessions |
| Handlers.DisconnectKeeps | ingest_farm/worker/main.py:351-365 | a disconnect keeps the agreement and leaves no session, no held start, no working status and nothing in progress |
| Handlers.StopKeeps | ingest_farm/worker/main.py:410-429 | a stop keeps the agreement, leaves nothing in progress and no stopping or starting status |
| Handlers.StartKeeps | ingest_farm/worker/main.py:367-408 | a start keeps the agreement; what stays starting is held by a dead session |
| Handlers.ConnectKeeps | ingest_farm/worker/main.py:287-338 | a connect keeps the agreement, never leaves connecting, adds no session at capacity |
| Handlers.ApplyBacked | ingest_farm/worker/main.py:164-181 | the op chosen for a tick strands no intent although it consumes all of the channel's jobs |
| Handlers.FinalizeKnown | ingest_farm/worker/main.py:431-471 | under the agreement the fallback query of finalising is never needed |
| Protocol.RunOpsAt | ingest_farm/worker/main.py:147-157 | handlers of distinct channels do not see each other: each ends as its own handler alone would leave it |
| Protocol.DrainConfluent | ingest_farm/worker/main.py:112-181 | from any state, the tables after a drain and the bag of events depend only on which channel has which kind of job, not on order, repetition or malformed payloads |
| Books.ReapLedger | ingest_farm/worker/main.py:254-285 | the heartbeat over all sessions keeps the books, and finished rows last |
| Books.StepBooks | ingest_farm/worker/main.py:84-429 | every step keeps what survives crashes: events match completed rows, the remembered row is in progress, sessions within capacity; finished rows last |
| Steps.StepKeeps | ingest_farm/worker/main.py:84-429 | every step, of scheduler, worker, sessions and unrestricted API deletions, keeps the protocol's invariant |
| Runs.RecordingAgreement | ingest_farm/worker/main.py:193-210 | in every reachable state a row in progress is the one the worker remembers for its channel, whose session records and whose status, if the channel is still there, says so; sessions stay within capacity |
| Runs.DeleteIsSafe | ingest_farm/api/main.py:193-206 | the API's status guard never deletes a recording in progress |
| Runs.NoStrandedIntent | ingest_farm/orchestrator/scheduler.py:33-142 | in every reachable state a transitional status has its job on the way, or is a start held by a dead session |
| Runs.QuiescenceSettles | ingest_farm/worker/main.py:100-181 | once jobs are published and connects handled, one tick leaves at most starts held by dead sessions and the next leaves nothing transitional |
| Lifecycle.TerminalAbsorbing | ingest_farm/worker/main.py:193-210 | over the rest of any run, crashes and startups included, completed and failed rows keep their status until deleted, and identifiers are never reused |
| Lifecycle.PublishedOnce | ingest_farm/worker/main.py:458-471 | over any run, crashes and startups included, a row is completed exactly when its post-processing event was published, and no event is published twice |
| Lifecycle.WithinCapacity | ingest_farm/worker/main.py:300-307 | the same runs never hold more sessions than the capacity |
| Runs.TickDisconnects | ingest_farm/worker/main.py:351-365 | a tick that finds a disconnect job leaves the channel idle, or error if its session had died, with no session, held start or row in progress |
| Runs.DisconnectRecovers | ingest_farm/orchestrator/scheduler.py:81-102 | from any state of the invariant with an active status, disconnect, publish and one tick bring the channel down |
| Runs.AutoConnectRequest | ingest_farm/orchestrator/scheduler.py:104-126 | whatever is queued already, a start request on an idle channel adds a connect and a start and leaves connecting |
| Runs.AutoConnectConfluent | ingest_farm/worker/main.py:287-408 | the two jobs, handled in either order and whatever other jobs wait, end in the same slice: one live recording session, one new row, status recording, nothing held |
| Intents.NeverStops | ingest_farm/worker/main.py:254-429 | no step but an accepted stop makes a channel stopping |
| Intents.LastIntentWinsIff | ingest_farm/worker/main.py:112-181 | over any run without another request for the channel, a tick that finds start and stop together runs what was asked last, if and only if that was a start, or the row still says stopping over a session that is not dead |
| Intents.UndisturbedIntentWinsIff | ingest_farm/worker/main.py:112-181 | with no handler of the channel in between, if and only if that was a start or the session is not dead |
| Intents.StaleStartBeatsStop | ingest_farm/worker/main.py:164-181 | a reachable race in which the last accepted stop is dropped and the channel goes on recording |
| Intents.StopLastReachable | ingest_farm/orchestrator/scheduler.py:104-142 | accepted requests alone lead to that race's start |
| Recovery.CrashRecovery | ingest_farm/worker/main.py:84-91 | after crash and startup from any reachable state rows in progress belong to unclaimed or deleted channels, claimed channels are inactive, unclaimed ones unchanged, finished rows untouched, and a second startup changes nothing |
| Recovery.ClaimedAtLastHeartbeat | ingest_farm/worker/main.py:254-259 | in any run the claim is the session set at the start of the last tick |
| Recovery.CrashKeepsIff | ingest_farm/worker/main.py:84-91 | the restarted worker is back in the invariant if and only if the crash spared every channel |
| Strays.LeftBehindIff | ingest_farm/worker/main.py:212-245 | after crash and startup a row is in progress if and only if the worker was recording it and its channel was not claimed or is gone; its channel then has no session and no other row in progress |
| Strays.HeldStartLeftBehind | ingest_farm/worker/main.py:287-338 | a held start served by its connect job before the next heartbeat is such a recording |
| Strays.StrayUntilClosed | ingest_farm/worker/main.py:84-471 | over any life, crashes and startups included, a row in progress that the worker does not remember stays so exactly until a tick that reaps a dead session or stops without one while it is the newest, a startup that finds its channel orphaned while it is the newest, or the deletion of its channel; it is then failed or gone, never completed |
| Strays.StopCloses | ingest_farm/worker/main.py:410-429 | a tick that runs a stop on a channel left behind fails the row and leaves nothing in progress |
| Strays.DisconnectLeaves | ingest_farm/worker/main.py:351-365 | a tick that finds a disconnect leaves the channel idle with the row still in progress; then of all requests only a connect is allowed, or the deletion of the channel |
| Recovery.ConnectOverDeadIff | ingest_farm/worker/main.py:287-338 | a connect over a dead session keeps the agreement if and only if that session had no recording, the worker is full or the channel is gone |
| Recovery.LateRevertStrands | ingest_farm/orchestrator/scheduler.py:33-58 | a revert in a later step than its failed publish can strand a channel in connecting |
| Recovery.DisconnectUnpublishedReachable | ingest_farm/orchestrator/scheduler.py:60-102 | accepted requests lead to the state where that happens |
| Recovery.CrashLosesTakenConnect | ingest_farm/worker/main.py:74-78 | a connect job taken before a crash is lost and its channel stays connecting |
| Resets.ForwardResets | ingest_farm/worker/main.py:159-162 | the reset loop forwards to the queued channels with a session that the tick did not disconnect, in order |
| Resets.ResetReaches | ingest_farm/worker/main.py:112-162 | a queued reset reaches its channel if and only if it had a session before the handlers and no disconnect in the tick; the set of disconnected channels decides nothing |
| CommandFile.FileRoundTrip | ingest_farm/worker/srt_session_proc.py:500-537 | the lines the child reads are the commands the session appended, in order |
| Handshake.AcknowledgedMeansExecuted | ingest_farm/worker/recorder.py:367-433 | up to the first timeout, whatever is lost and however polls interleave, seeing the wanted flag means the child has executed that very command, with that directory, and nothing that could undo it is left |
| Handshake.SettledAgrees | ingest_farm/worker/recorder.py:384-460 | up to the first timeout, between requests session and child agree on whether the channel records |
| Handshake.StepSound | ingest_farm/worker/srt_session_proc.py:433-542 | every step of session and child but a timeout keeps the handshake's invariant |
| Handshake.CommandsAreLost | ingest_farm/worker/srt_session_proc.py:504-508 | a command sent between the child's read and truncate is lost |
| Handshake.SrtChild.DrainCmds | ingest_farm/worker/srt_session_proc.py:500-538 | the poll obeys the file's lines in order up to a quit and empties the file, or leaves both alone |
| Handshake.PollIsDrain | ingest_farm/worker/srt_session_proc.py:509-537 | the handshake's execution steps are that loop |
| Handshake.ChannelSession.WaitSrtRecording | ingest_farm/worker/recorder.py:367-382 | succeeds if and only if some look before the deadline shows the flag and none before it found the child dead |
| Handshake.ChannelSession.StartRecording | ingest_farm/worker/recorder.py:384-401 | each outcome with what was sent and whether the session records |
| Handshake.ChannelSession.StopRecording | ingest_farm/worker/recorder.py:419-440 | the session records no more, acknowledged or not |
| Timeouts.RecordHonestIff | ingest_farm/worker/recorder.py:384-401 | after any run, timeouts included, every acknowledgement of a record means its execution if and only if at its sending the status does not say recording and, while the child polls, nor does the capture, and no record in the file or among the commands taken would leave it so |
| Timeouts.StopHonestIff | ingest_farm/worker/recorder.py:419-445 | the same for a stop, if and only if the status says recording and, while the child polls, so does the capture and no stop has been taken; a stop still in the file does no harm |
| Timeouts.CleanIsHonest | ingest_farm/worker/recorder.py:384-401 | in particular a record is safe where nothing says recording and no record is left over |
| Timeouts.LateExecutionMisleads | ingest_farm/worker/recorder.py:384-401 | a run in which a record given up on can be taken for the next, whatever the directories |
| Timeouts.StaleStatusMisleads | ingest_farm/worker/recorder.py:419-445 | a run in which a stop given up on makes the next record acknowledged at the first look, unexecuted |
| RateWindow.RatesAreExact | ingest_farm/worker/srt_session_proc.py:350-375 | every published rate is the byte count of one window over its time of at least one and less than three seconds with no gap over two; windows do not overlap; closed, discarded and current bytes add up to the total |
| RateWindow.PadProbe.OnBuf | ingest_farm/worker/srt_session_proc.py:353-375 | the probe's updates are the window's step |
| Freshness.AnnouncedIsFresh | ingest_farm/worker/srt_session_proc.py:117-150 | what is published as available is published while receiving, within its lifetime, and was read from the file since the last reset |
| Freshness.UnreadablePoll | ingest_farm/worker/srt_session_proc.py:138-145 | exactly when a poll without a readable file announces the held snapshot, and exactly when it publishes stale |
| Freshness.ExpiredStaysExpired | ingest_farm/worker/srt_session_proc.py:138-145 | with the file unreadable and a clock that does not go back, an expired snapshot is never available again, resets or not |
| Freshness.FailureThenUnreadable | ingest_farm/worker/srt_session_proc.py:138-150 | a held snapshot outlives a report of failure |
| Freshness.SrtChild.WriteStatus | ingest_farm/worker/srt_session_proc.py:464-473 | publication and holding of a snapshot are one step of the polls |
| Influx.UnescapeInfluxTag | ingest_farm/worker/etr290.py:51-61 | the loop computes the recursive unescaping |
| Influx.EscapeRoundTrip | ingest_farm/worker/etr290.py:51-61 | unescaping undoes escaping for every string |
| Influx.PlainEscapeRoundTrip | ingest_farm/worker/etr290.py:51-61 | with a writer that leaves backslashes alone, a value comes back if and only if each backslash is last or before a separator |
| CounterNames.NamesDiffer | ingest_farm/worker/etr290.py:10-38 | no two counters share a name |
| InfluxLine.FieldNumeric | ingest_farm/worker/etr290.py:82-95 | the number of the first field called value |
| InfluxLine.ParseTags | ingest_farm/worker/etr290.py:106-113 | the last tag of a key wins, unescaped |
| InfluxLine.ParseInfluxLine | ingest_farm/worker/etr290.py:98-142 | one line's row, by scope, measurement, severity and name |
| InfluxLine.LineReadsBack | ingest_farm/worker/etr290.py:64-142 | any row written with sound tags is read as what its tags and number mean, with or without timestamp and integer suffix |
| InfluxBody.RowReadsBack | ingest_farm/worker/etr290.py:98-142 | every priority 1 or 2 counter, informational counter and bitrate row comes back as itself |
| Separators.SpacesLoseRowIff | ingest_farm/worker/etr290.py:64-79 | a written row is skipped, its number lost, if and only if a tag value holds a space and it is not the case that the only one ends the last value, up to other white space |
| Separators.TagsReadBackIff | ingest_farm/worker/etr290.py:98-113 | the tags of a written row are read as they were if and only if no value holds a space or a comma and the escaping keeps every backslash |
| InfluxBody.ParseInfluxBody | ingest_farm/worker/etr290.py:145-169 | the loop over a body's lines |
| InfluxBody.BodyConcat | ingest_farm/worker/etr290.py:145-169 | reading is a homomorphism over lines: counters in order, informational fields by the later body |
| InfluxBody.BodyReadsBack | ingest_farm/worker/etr290.py:145-169 | a whole written body reads back, row by row |
| Etr290.Worst | ingest_farm/worker/etr290.py:201-208 | the loop finds the worst severity in any iteration order |
| Etr290.RollupSnapshot | ingest_farm/worker/etr290.py:172-223 | the last row of each counter, zero at its own priority without one, and the info fields |
| Etr290.AccumulateSnapshot | ingest_farm/worker/etr290.py:259-320 | one interval added to a session |
| Sidecar.TotalsAreSums | ingest_farm/worker/etr290_sidecar.py:42-66 | under any interleaving of posts, resets, refreshes and publications, counters and errors are sums over the accepted intervals since the last reset, packets and bitrate the last reported, the structure the last read |
| Sidecar.WorstNeverImproves | ingest_farm/worker/etr290.py:259-320 | with canonical severities and nonnegative counts the worst severity never improves before a reset |
| Sidecar.OrderFreeIff | ingest_farm/worker/etr290.py:259-320 | the counters are the same for all orders of the same intervals if and only if all intervals report one severity per counter |
| Sidecar.OneSeverityAnyOrder | ingest_farm/worker/etr290.py:259-320 | then errors and worst severity are the same too |
| Sidecar.OrderDoesNotMatter | ingest_farm/worker/etr290.py:259-320 | in particular with canonical severities |
| Sidecar.PublishedIsASession | ingest_farm/worker/etr290_sidecar.py:161-188 | what readers see is always the totals of some moment of the session, or the report that the monitor exited |
| Sidecar.Monitor.DoPost | ingest_farm/worker/etr290_sidecar.py:42-66 | each answer, and that only an answered write changes the session |
| Sidecar.Monitor.Poll | ingest_farm/worker/etr290_sidecar.py:161-188 | a turn of the poll loop is the report of an exit, which ends it, or a reset if asked for, a refresh and a publication |
| Playlist.FinalizeVodPlaylistText | ingest_farm/postprocess/proxy.py:35-55 | the line loop closes the list of lines as VOD |
| Playlist.RewriteProxyPlaylist | ingest_farm/postprocess/proxy.py:65-74 | the line loop rewrites relative URIs, then closes |
| Playlist.FinalizeTwice | ingest_farm/postprocess/proxy.py:35-55 | finalising is idempotent, for every text |
| Playlist.RewriteAfterFinalize | ingest_farm/postprocess/proxy.py:65-74 | rewriting a finalised text equals rewriting the text if and only if it is not empty |
| Playlist.FinalizedPlaylist | ingest_farm/postprocess/proxy.py:35-55 | the only ENDLIST is last, a type is there and every type is VOD, every other line is kept in order |
| Playlist.ServedPlaylist | ingest_farm/postprocess/proxy.py:65-74 | the only ENDLIST is last, a type is there and every type is VOD; every other line is kept in order, its relative URI rewritten; every relative URI is recoverable in order |
| Duration.PlaylistDurationMs | ingest_farm/postprocess/proxy.py:14-32 | the sum of the EXTINF fields that parse |
| Duration.DurationInvariant | ingest_farm/postprocess/proxy.py:14-74 | neither transformation changes the duration of any playlist |
| Segments.NameOrder | ingest_farm/worker/recorder.py:410 | below 100000 the order of names is the order of numbers |
| Segments.CapturedSorted | ingest_farm/worker/recorder.py:410 | the names of the first n segments are sorted if and only if n is at most 100000 |
| Segments.ListedInCaptureOrder | ingest_farm/common/storage.py:18-19 | whatever else the directory holds, n segments are listed in capture order if and only if n is at most 100000 |
| Segments.ConcatMpegtsSegments | ingest_farm/postprocess/main.py:50-65 | the chunked copy writes the concatenation, whatever the chunk sizes |
| Segments.BuildMaster | ingest_farm/postprocess/main.py:280-284 | the master's bytes are the capture of its directory, which all recordings of a session share; where segment numbers go on from one recording to the next it is a recording's own bytes if and only if nothing was captured before it |
| Segments.RerunLists | ingest_farm/postprocess/main.py:259-284 | a master beside the segments changes no listing, so a rerun builds the same |
| Catalog.CreateOnce | ingest_farm/postprocess/main.py:230-244 | creation adds at most the asset of its recording and keeps one asset per recording |
| Catalog.PostProcessWorker.CatalogPass | ingest_farm/postprocess/main.py:126-152 | a pass picks the latest uncatalogued recordings up to its limit and catalogues those whose processing works: k becomes max(0, k - limit) when all do |
| Catalog.ProcessIsSteps | ingest_farm/postprocess/main.py:246-324 | processing by one undisturbed worker is a look and then an insert, or nothing where the work fails |
| Catalog.CatalogedExactlyOnce | ingest_farm/postprocess/main.py:209-324 | over any run of repeated and concurrent jobs, failures and deletions a recording has exactly one asset if some worker finished it, and none otherwise |

## Left out

- GStreamer: pipelines, pad probes, valve relinking, preview, proxy and thumbnail transcoding; a session is its connected and recording flags, with death and refusal at any moment.
- SQLAlchemy, Redis and FastAPI mechanics: maps and sequences instead; a job is a nonempty object.
- Interleavings the assumptions exclude: a guard check apart from its commit, a signal inside a handler, a database or Redis call of the worker that fails.
- Media files on disk that a deletion removes, and the foreign key from recordings to channels.
- Segments.BuildMaster: that the capture element goes on numbering after a change of location is its own affair and taken as given there.
- Stored figures: segment count, byte size, end time, session statistics and their expiry.
- Agreement of status and session in both directions: false by design, since a connect job handled after its disconnect leaves a session on an idle channel.
- Several workers, `worker_hint` and worker choice: unused by the deployment described.
- The local (not SRT) capture path of a session, and the child's process supervision.
- The agreement of rows and maps and the backing of intents over runs with crashes: a crash breaks them; `Recovery.CrashKeepsIff` says exactly when it does not. `Lifecycle` has what survives.
- InfluxLine.ParseInfluxLine: digits of a timestamp are the ASCII ones; `float` and `int` are parameters, exact on decimals where a round trip needs it.
- Influx bodies: bytes are characters already; truncation by the content length is not modelled.
- PID structure extraction and the command line of the monitor: one pass over fields each.
- Rounding of the published rate, and floating point in the duration's sum: the sum is whatever adding the parsed fields in order gives.
- Duration resolution, title, discovery and media backfill of an asset: independent branches.
- Playlist.RewriteProxyPlaylist: an asset identifier is text without line breaks, as uuids are.
- URI validation, encoder registry, settings, migrations, the web interface and path checks.
