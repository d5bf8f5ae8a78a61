# Asterisk AI gateway: a verified model

The gateway connects Asterisk calls to partner applications. This project models
its five hard parts in Dafny and proves what they are for, over every input, every
run and every interleaving the code allows.

- **Call lifecycle** (modules named `Call...` but for the history's, and
  `CompletedCalls`). `CallSignals.ActiveCall` updates the fields of one call in place.
  `CallMachine` splits the four coroutines of an outbound call (originate, the ARI
  listener, the drain of queued events, the deferred cleanup) at their awaits. The
  code between two awaits is one step, any enabled coroutine may take the next step,
  and every awaited request may fail. `CallSafety` is the inductive invariant and
  `CallTheorems` what a partner may rely on. `CallStory` shows that a call is a function
  of the events handled, `CallActivation` when exactly media setup begins, `CallExits`
  when exactly a call ends and what it then says, `CallEndings` and `CallProgress` that
  what must happen does, `CallPublishing` that what is published is stored,
  sent and remembered, `CallOrphans` which channels are deleted or left alone,
  `CallLosses` when exactly an event is lost, `CallClaims` when an activation finds its
  call still registered, `CallEvidence` that no status is published without cause, and
  `CallResults` the call together with its connection's dictionary of finished calls.
- **Durable history** (`CallHistory`, `CallHistoryRuns`, `CallHistoryWrites`, `CallWrites`,
  `CallRecords`). Tables are maps. A database attempt may fail before or after its
  commit, is retried, and then waits in a bounded queue. The tables are proved to agree
  with the log of published snapshots; `CallHistoryWrites` says what one write, retry or
  flush does, `CallWrites` that a call hands each of its snapshots to the store once,
  and `CallRecords` joins the two.
- **Media** (`AudioSocket`, `SocketReader`, `ReaderFailures`, `Ulaw`, `Rtp`). Framing, the
  server's read loop and chunking sender, the repaired nonblocking C reader under every schedule of
  read and poll results, the µ-law codec with its error bound (section 3 of ITU-T
  G.711) and RTP headers (section 5.1 and section 5.3.1 of RFC 3550).
- **FreePBX bridge** (`Dialplan`, `RouteProvisioning`, `Cidr`). A save that touches two
  files, the DID table and the route state, with compensation on failure; and the
  source filter.
- **History queries and SDKs** (`Pagination`, `SdkReconnect`). A cursor walk over a
  table that changes while it is walked; the Python and Node reconnect machines on the
  same script of outcomes.

I/O is a step that may succeed or fail. Clock readings, random choices, database and
HTTP results are inputs. A class method is proved equal to a specification function
of its old state, and the theorems are about that function. `Basics` holds shared
small types. Nothing was executed.

## What the proofs found

- `call_events.py`: an event that arrives after the drain's last test of its queue but
  before its task ends is dropped, even for a live call. `ArrivalIsSafeIff` is the exact
  condition, for every run before and after: an event of a registered call is safe exactly
  if it does not arrive while the drain's task is ending. `DestroyedCanBeLost` is a run in
  which the call stays registered and its ChannelDestroyed is lost.
- `call_lifecycle.py`: a claim that resumes after the deferred cleanup starts to activate a
  call that has ended (`ClaimCanOutliveTheCall`); an activation finds its call registered
  exactly if the deferred cleanup has not begun (`ActivationFindsTheCallIff`).
- `audiosocket_server.py`: an empty payload is sent as one frame of length 0, on which
  the C reader gives up (`SentSilenceIsFatal`). All other payloads arrive.
- `dids.php`: a listed number whose DID was deleted in FreePBX can be saved again under
  another route id. The save succeeds and the route state never loads again
  (`DriftedDidIsSavedTwice`); `SavedStateLoadsIff` is the exact condition.
- `dids.php`: if only the final `markReload` fails, the files and the DID table go back
  but a new route stays in the state (`MarkFailureLeavesAsFoundIff`,
  `MarkFailureKeepsARoute`).
- `call_history_store.py`: recovery clears `history_complete` on the records it closes
  although the row it adds leaves no gap, so "no gap implies complete" survives recovery
  exactly if none of the closed records was complete (`RecoveryKeepsExactnessIff`); a
  restart just after a call has started breaks it (`RestartUnmarksAnOpenCall`).
- `client.py`: a successful token reply that is not JSON, or holds no token, raises outside
  the list of caught exceptions and ends the Python stream, where the Node client reconnects
  or tries an undefined token (`BothClients` is the exact condition for the two to agree,
  `PartAtMalformed` what happens otherwise).
- A comment disagrees with the code: `audiosocket_server.py:82-83` speaks of a type
  that declares 16 kHz, but `GATEWAY_AUDIO_TYPE` is 0x10 (`audiosocket.py:36`). The
  model follows the code.

## Model

| member | source | states |
|---|---|---|
| CallSignals.ActiveCall.constructor | apps/control-api/app/realtime_registry.py:74-117 | A reserved call is dialing at sequence 0 with no evidence. |
| CallSignals.ActiveCall.PublishStatus | apps/control-api/app/call_signals.py:36-58 | A repeat, anything after the end, and a fall-back from answered change nothing and publish nothing; every other status is published with the next sequence and never unsets the answered flag. |
| CallSignals.ActiveCall.Terminate | apps/control-api/app/call_lifecycle.py:247-262 | A live call always ends in exactly one terminal snapshot; a caller's reason overrides the evidence. |
| CallSignals.ActiveCall.FailOriginate | apps/control-api/app/outbound_calls.py:107-122 | The failure path ends the call with one more sequence, whatever was published before. |
| CallSignals.ActiveCall.NoteDial | apps/control-api/app/call_events.py:46-57 | A recognised dial status replaces the old one, an unrecognised one does not. |
| CallSignals.ActiveCall.NoteDestroyed | apps/control-api/app/call_events.py:62-67 | A zero cause never overwrites a recorded one. |
| CallSignals.EvidenceIsRanked | apps/control-api/app/call_signals.py:86-113 | A requested end outranks an answer, an answer the hangup cause, a precise cause the dial status; without a request, completed means answered; the deadline decides only when nothing else does. |
| CallSignals.EndingInferredIff | apps/control-api/app/call_signals.py:92-113 | For a call neither answered nor asked to end: the exact causes and dial statuses behind each final status and reason. |
| CallSignals.EndingAskedOrAnswered | apps/control-api/app/call_signals.py:86-91 | A request ends the call as asked; otherwise an answered call is completed with normal_hangup. |
| CallSafety.NextKeeps | apps/control-api/app/call_events.py:23-131 | Every step of every coroutine keeps the invariant: one activation, one end, rising log, exclusive event handling, arrival order, explained losses. |
| CallSafety.RunKeeps | apps/control-api/app/call_events.py:101-131 | The invariant holds after every run of any interleaving. |
| CallTheorems.ActivatesAtMostOnce | apps/control-api/app/call_lifecycle.py:57-110 | Media setup begins at most once, and only when the call is answered and in Stasis, although `_start_outbound` awaits between its check and its claim. |
| CallActivation.ActivationBeginsIff | apps/control-api/app/call_lifecycle.py:57-110 | After every run and for every next step, media setup begins exactly when the answer has just been told for a channel that went up or entered Stasis, or such an event finds the call answered already; the call being in Stasis and unclaimed, and the partner there. |
| CallProgress.ActivationCompletes | apps/control-api/app/call_lifecycle.py:105-110 | An activation whose requests succeed leaves the call bridged with its media channel known. |
| CallClaims.ActivationFindsTheCallIff | apps/control-api/app/call_lifecycle.py:83-110 | The one activation of a run starts on a call that is still registered exactly if the deferred cleanup has not begun. |
| CallClaims.ClaimCanOutliveTheCall | apps/control-api/app/call_lifecycle.py:108-110 | A concrete run in which activation starts on a call that has ended. |
| CallTheorems.StatusLogRises | apps/control-api/app/call_signals.py:36-83 | Snapshots of a call carry 1, 2, 3, ... without a gap, their statuses strictly rise, there are at most four, only the last can be terminal, answered never goes back. |
| CallTheorems.LogOnlyGrows | apps/control-api/app/call_signals.py:49-58 | No later step removes or changes a published snapshot or the answered flag. |
| CallTheorems.EventsWaitForAcceptance | apps/control-api/app/call_events.py:34-45 | No event of the call is acted on before originate has published acceptance and dialing; and when originate has failed or is failing, even while it was sending dialing, no event has been handled, nothing activated and nothing cleaned up. |
| CallTheorems.FailureIsForGood | apps/control-api/app/outbound_calls.py:107-138 | After a failed originate no later step handles an event of the call. |
| CallTheorems.CleanupNeedsEvents | apps/control-api/app/call_lifecycle.py:247-290 | Activation and cleanup only follow a handled event. |
| CallLosses.EventsAreHandledInOrder | apps/control-api/app/call_events.py:101-119 | Events are handled in arrival order, each at most once; one that is neither handled nor queued was overtaken by the end of its call, or arrived while the drain's task was ending; and none that arrived then is handled. |
| CallProgress.QueueIsServed | apps/control-api/app/call_events.py:101-119 | Once a call is accepted, the drain's own steps, their requests succeeding, empty the queue within a bound and end the task; if the call is still registered, every event that was waiting has been handled. |
| CallProgress.HandlersFinish | apps/control-api/app/call_events.py:23-99 | While its requests succeed, the listener is done with any event after at most twelve awaits. |
| CallProgress.OriginateFinishes | apps/control-api/app/outbound_calls.py:59-106 | While its requests succeed, originate accepts the call within five awaits, with dialing published and nothing else. |
| CallProgress.FailureFinishes | apps/control-api/app/outbound_calls.py:107-138 | A failed originate gives its failure snapshot to the store and is then done, changing nothing else. |
| CallLosses.OutsideTheWindowNothingIsLost | apps/control-api/app/call_events.py:34-45 | An event of a registered call that arrives at any other moment is never lost while its call lives, whatever follows. |
| CallLosses.ExitWindowLosesArrivals | apps/control-api/app/call_events.py:109-119 | One that arrives while the drain's task is ending is never handled, whatever follows; it is lost once that task has ended, and lost for a live call if the call is registered then. |
| CallLosses.ArrivalIsSafeIff | apps/control-api/app/call_events.py:101-119 | No continuation loses an event of a registered call for a live call exactly if the drain's task is not ending when it arrives. |
| CallLosses.LossesArrivedInTheWindow | apps/control-api/app/call_events.py:101-119 | Traced back: every event a run lost for a live call came from a move of that run that found the drain's task ending. |
| CallTheorems.DrainEndDropsArrival | apps/control-api/app/call_events.py:117-119 | The very next end of the drain's task drops what was queued while it was ending. |
| CallTheorems.DestroyedCanBeLost | apps/control-api/app/call_events.py:101-119 | A concrete run in which a live call never sees its ChannelDestroyed. |
| CallTheorems.EndsExactlyOnce | apps/control-api/app/call_lifecycle.py:247-290 | A registered call is never terminal; cleanup takes effect at most once whoever triggers it; a call that left the registry has exactly one terminal snapshot, its last, unless its durable start failed. |
| CallEndings.EndIsReached | apps/control-api/app/call_events.py:62-71 | A call does end: when word that its own or its media channel was destroyed has been handled, directly or out of the queue, or the deferred cleanup has begun, it has left the registry and its log ends in a terminal snapshot. |
| CallExits.LeavesIff | apps/control-api/app/call_lifecycle.py:247-262 | A registered call leaves the registry exactly when its channel or media channel is reported destroyed, a request of its media setup fails, a queued event's handler fails, the deferred cleanup runs, or originate fails; its last snapshot carries the verdict on the evidence, or media_failed, event_failed or originate_failed. |
| CallTheorems.TerminalIsQueryableOnceSent | apps/control-api/app/call_signals.py:77-83 | A terminal snapshot that was sent is the last one of the log and the one last given to `remember_completed`. |
| CallResults.SentResultStaysAvailable | apps/control-api/app/call_signals.py:77-83 | With this call's steps and other remembrances on the connection interleaved in any way, and each call remembered any number of times: looking the call up after its terminal snapshot was sent gives that snapshot exactly until 256 other calls have entered since its own last entry. |
| CallResults.OneRemembranceAStep | apps/control-api/app/call_signals.py:116-123 | No step remembers a result twice. |
| CallEvidence.StatusesHaveCauses | apps/control-api/app/call_events.py:46-99 | In every run, with events queued, replayed or handled directly, a ringing snapshot follows a ringing event on the call's own channel, an answered one an answer, channel up or Stasis entry, and a completed one is of an answered call, whoever asked for the end (completed is asked for only then, apps/control-api/app/realtime_control.py:47-54). |
| CallEvidence.HeardWasSaid | apps/control-api/app/call_lifecycle.py:57-110 | Each of these causes is an event among the moves of the run. |
| CallEvidence.NextCaused | apps/control-api/app/call_lifecycle.py:57-110 | No step of any coroutine publishes a status without such a cause. |
| CallStory.CallIsWhatWasHeard | apps/control-api/app/call_events.py:46-99 | In every run the answered flag, the Stasis flag, the hangup cause, the dial status and the published statuses are a function of the handled events in their order; behind those comes at most the end. |
| CallPublishing.PublishedAsShown | apps/control-api/app/call_signals.py:49-83 | A step publishes at most one snapshot, with everything the call then shows; what is given to the store is sent to the partner if there is one, in the same order, except originate's failure. |
| CallPublishing.RemembersIff | apps/control-api/app/call_signals.py:77-83 | With the partner there, the result is remembered when a terminal snapshot has been stored, just before it is sent, and again behind that at the end of the cleanup; at no other step. |
| CallPublishing.NothingAfterLeaving | apps/control-api/app/call_signals.py:77-83 | Once the partner has left, nothing more is sent or remembered, whatever follows. |
| CallPublishing.RequestIsTheLastAsked | apps/control-api/app/realtime_control.py:47-55 | A call remembers the end its partner asked for last, completed only if it was answered then. |
| CallOrphans.OrphansAreDeletedIff | apps/control-api/app/call_lifecycle.py:72-94 | A handler goes on to delete a channel exactly when it enters Stasis without a call or partner, or went up unclaimed in Stasis and no partner is left. |
| CallOrphans.StrangersChangeNothing | apps/control-api/app/call_events.py:31-99 | An event of a channel that is none of a registered call's changes nothing of the call, its queue and its tasks. |
| CompletedCalls.Connection.RememberCompleted | apps/control-api/app/call_signals.py:116-123 | A known call keeps its place in the order; a new one evicts the oldest of 256. |
| CompletedCalls.KeptUntil256OthersComplete | apps/control-api/app/call_signals.py:116-123 | From its first remembrance on, the snapshot stays available, unchanged, while fewer than 256 other calls newly enter; overwriting a call that is present does not count. |
| CompletedCalls.GoneExactlyAfter256Others | apps/control-api/app/call_signals.py:119-122 | Whatever is remembered and however often, a call is found, with the snapshot given for it last, exactly while fewer than 256 different other calls have entered since its own last entry. |
| CompletedCalls.FirstInFirstOut | apps/control-api/app/realtime_registry.py:33 | For any sequence of remembrances, repeats included, the map holds exactly the newest 256 entries in order, each call with the snapshot given for it last; a call enters again only after 256 others have. |
| CallHistory.CallHistoryStore.constructor | apps/control-api/app/call_history_store.py:130-141 | A new store is empty and its two limits are at least one. |
| CallHistory.CallHistoryStore.StartSync | apps/control-api/app/call_history_store.py:229-243 | Starting a known call writes nothing and is refused unless owner columns match a gateway row; a new one is inserted. |
| CallHistory.CallHistoryStore.RecordSync | apps/control-api/app/call_history_store.py:245-280 | A late snapshot is kept as a signal without moving the record back; a repeat adds no row; another owner is refused; the completeness mark is recomputed. |
| CallHistory.CallHistoryStore.RefreshHistoryComplete | apps/control-api/app/call_history_store.py:337-350 | The mark of a gateway record becomes "count equals sequence"; imported records are left alone. |
| CallHistory.CallHistoryStore.Attempt | apps/control-api/app/call_history_store.py:201-215 | An attempt lost before its commit leaves the tables alone; one lost after it has written all the same but is not reported stored. |
| CallHistory.CallHistoryStore.Retry | apps/control-api/app/call_history_store.py:201-215 | The attempts of one write, each possibly lost before or after its commit, end as the specification says. |
| CallHistory.CallHistoryStore.Start | apps/control-api/app/call_history_store.py:143-150 | A start is reported exactly when it is stored, and never queued. |
| CallHistory.CallHistoryStore.Record | apps/control-api/app/call_history_store.py:152-172 | A publication is durable exactly when stored; one the database did not take is queued; one it refuses is not. |
| CallHistory.CallHistoryStore.QueuePending | apps/control-api/app/call_history_store.py:217-227 | A re-queued key moves to the end; over the limit the oldest is dropped and reported. |
| CallHistory.CallHistoryStore.FlushPending | apps/control-api/app/call_history_store.py:183-199 | A flush stores a prefix of the queue in order and stops at the first failure with the rest intact. |
| CallHistory.CallHistoryStore.RecoverSync | apps/control-api/app/call_history_store.py:352-383 | The loop over open records, in any order, equals closing them all at once. |
| CallHistory.CallHistoryStore.CloseInterrupted | apps/control-api/app/call_history_store.py:361-381 | One open record is closed under the next sequence, with the signal that shows it. |
| CallHistory.RecoveryRestarts | apps/control-api/app/call_history_store.py:352-383 | Field by field: every open gateway record becomes failed, terminal, gateway_restarted, one sequence higher and unmarked, keeps its evidence, times, owner and origin, and gets a signal showing just that; nothing else moves. |
| CallHistoryWrites.WriteIsRefusedIff | apps/control-api/app/call_history_store.py:229-258 | A write is refused exactly if the call is known with another organization, partner, number or context, or is an import being started; what is not stored changes nothing. |
| CallHistoryWrites.ForeignWritesChangeNothing | apps/control-api/app/call_history_store.py:245-258 | However it is retried, another owner's write changes neither table. |
| CallHistoryWrites.StoredWritesAreThere | apps/control-api/app/call_history_store.py:229-335 | A stored start leaves its record, a stored snapshot its row, and a new record shows what its first write carried. |
| CallHistoryWrites.RetrySucceedsIff | apps/control-api/app/call_history_store.py:201-215 | A write that is not refused is reported stored exactly if one of its attempts meets no fault. |
| CallHistoryWrites.HistoryIsAppendOnly | apps/control-api/app/call_history_store.py:229-383 | Whatever follows, restarts included, no signal is changed or removed, and no record is removed, moved back or given to another owner. |
| CallHistoryWrites.QueueKeepsTheNewest | apps/control-api/app/call_history_store.py:217-227 | A refused payload goes to the end of the queue, in place of one under its key; otherwise a full queue gives up its oldest. |
| CallHistoryWrites.PublicationWaitsIff | apps/control-api/app/call_history_store.py:152-170 | A publication waits exactly if none of its attempts went through; a start never waits. |
| CallHistoryWrites.FlushStopsAt | apps/control-api/app/call_history_store.py:183-199 | After any run, a flush stores what waits up to the first write none of whose attempts goes through; from there on everything waits, in order, and nothing is dropped. |
| CallHistoryWrites.FlushEmptiesTheQueue | apps/control-api/app/call_history_store.py:181-199 | After any run, a flush whose writes get through leaves nothing waiting and drops nothing. |
| CallHistoryRuns.CountIsCompleteness | apps/control-api/app/call_history_store.py:337-350 | Rows 1..n number n exactly when none of them is missing. |
| CallHistoryRuns.SignalWriteShows | apps/control-api/app/call_history_store.py:245-280 | A write of a payload, early, late or repeated, makes the tables show exactly the log with it. |
| CallHistoryRuns.StartWriteShows | apps/control-api/app/call_history_store.py:229-243 | A start changes nothing or shows exactly the log with it. |
| CallHistoryRuns.RetryShows | apps/control-api/app/call_history_store.py:201-215 | After any faults the tables show the log with or without the write, never something between, and with it if it was reported stored. |
| CallHistoryRuns.ShowsDetermines | apps/control-api/app/call_history_store.py:245-321 | A log has one set of tables that shows it. |
| CallHistoryRuns.RunAccounts | apps/control-api/app/call_history_store.py:152-227 | Conservation: after any run every published snapshot is stored, waiting or reported dropped, and nothing else is stored. |
| CallHistoryRuns.HistoryConverges | apps/control-api/app/call_history_store.py:152-280 | Once nothing waits and nothing was dropped, signal rows equal the published snapshots, each record the highest-sequence one, and gap-free gateway histories are marked complete. |
| CallHistoryRuns.OrderAndRepetitionDoNotMatter | apps/control-api/app/call_history_store.py:245-280 | The tables depend only on the set of payloads written. |
| CallHistoryRuns.ReachableTablesAreSound | apps/control-api/app/call_history_store.py:245-383 | In every reachable state, recovery included, no signal lies above its record's sequence, and a complete gateway history has all of 1..sequence stored. |
| CallHistoryRuns.RecoveryIsSound | apps/control-api/app/call_history_store.py:352-383 | Recovery keeps that, and its new signal keys are always fresh. |
| CallHistoryRuns.RecoveryClosesOnlyOpenCalls | apps/control-api/app/call_history_store.py:352-383 | Recovery leaves no open gateway record, touches no other record, and a second one changes nothing. |
| CallHistoryRuns.RecoveryAddsFreshSignals | apps/control-api/app/call_history_store.py:366-381 | It adds exactly one signal per open call, under a fresh key, showing the closed record, and keeps every old one. |
| CallHistoryRuns.RecoveryKeepsExactnessIff | apps/control-api/app/call_history_store.py:352-383 | "No gap implies marked complete" survives recovery exactly if no open record was marked complete. |
| CallHistoryRuns.RestartUnmarksAnOpenCall | apps/control-api/app/call_history_store.py:352-383 | It fails in a reachable state: a restart just after any gateway call has started. |
| CallWrites.EverySnapshotIsHandedOverOnce | apps/control-api/app/call_signals.py:58-76 | In every run the snapshots made are those handed to the store and those being handed over, each once, whichever coroutine made them. |
| CallRecords.PublishedCallIsShown | apps/control-api/app/call_history_store.py:152-280 | Operations that publish a call's snapshots leave, when drained, a history that shows them and a complete record of the last. |
| CallRecords.HistoryShowsTheCall | apps/control-api/app/call_signals.py:60-76 | For every interleaving of the call's moves with other operations of the store and every fault on the way, with the call's writes being those its own moves make: a drained history shows exactly the call's snapshots, is complete, each snapshot stands with the clock readings of the move that handed it over, and the record is terminal exactly if the call has ended. |
| AudioSocket.DecodeExactlyEncodings | apps/gateway/gateway/audiosocket.py:70-82 | Bytes decode to a frame exactly when they are that frame's encoding. |
| AudioSocket.AudioSocketHandshake.Accept | apps/gateway/gateway/audiosocket.py:85-101 | Only a 16-byte UUID frame passes first; afterwards only audio, DTMF, terminate and error kinds, and the UUID never changes. |
| AudioSocket.AudioSocketServer.WriteFrame | apps/gateway/gateway/audiosocket_server.py:81-88 | A write that fails after the bytes were handed over is reported as failed though they are written. |
| AudioSocket.AudioSocketServer.SendAudio | apps/gateway/gateway/audiosocket_server.py:67-88 | What reaches the writer is the payload's frames up to the first failed write; success means all of them; no other connection is touched. |
| AudioSocket.AudioSocketServer.Dispatch | apps/gateway/gateway/audiosocket_server.py:122-142 | After the handshake a frame calls back what it carries, and ends the connection exactly if its kind stops it. |
| AudioSocket.AudioSocketServer.ReadFrame | apps/gateway/gateway/audiosocket_server.py:109-113 | Exactly the next complete frame is taken off the stream; a long or truncated one ends the reading. |
| AudioSocket.AudioSocketServer.Converse | apps/gateway/gateway/audiosocket_server.py:106-142 | The read loop makes the callbacks of the frames before the first stopping one, and records at most this connection's UUID. |
| AudioSocket.AudioSocketServer.Handle | apps/gateway/gateway/audiosocket_server.py:97-151 | A connection makes exactly the callbacks of its frames before the first stopping one and one disconnect, answers a refused UUID with one error frame, and leaves no trace in the two dictionaries. |
| AudioSocket.ParsedInvertsWire | apps/gateway/gateway/audiosocket_server.py:108-114 | Reading any concatenation of encoded frames gives back those frames, whatever incomplete bytes follow. |
| AudioSocket.ServerDeliversWhatWasSent | apps/gateway/gateway/audiosocket_server.py:106-151 | So the callbacks are those of the frames that were sent. |
| AudioSocket.AudioArrivesComplete | apps/gateway/gateway/audiosocket_server.py:123-138 | The audio called back is all audio sent after an accepted UUID and before the stop, in order. |
| AudioSocket.DigitLeads | apps/gateway/gateway/audiosocket_server.py:137-140 | The digit called back is the first ASCII byte of the DTMF payload, and is missing exactly if there is none. |
| AudioSocket.SessionIsOrderly | apps/gateway/gateway/audiosocket_server.py:115-151 | One UUID first, media only after it is accepted, one disconnect and that last. |
| AudioSocket.SessionByFrames | apps/gateway/gateway/audiosocket_server.py:104-151 | An accepted connection calls back its UUID, each filled frame before the first of another kind than audio or digit, and its end. |
| AudioSocket.NotAFrame | apps/gateway/gateway/audiosocket.py:76-82 | Why bytes are not one frame. |
| AudioSocket.ChunksJoin | apps/gateway/gateway/audiosocket_server.py:71-80 | Splitting a long payload loses and reorders nothing. |
| AudioSocket.ChunksAreShort | apps/gateway/gateway/audiosocket_server.py:71-80 | Every piece fits a frame, and none is empty unless the payload is. |
| AudioSocket.SendStopsAtFirstFailure | apps/gateway/gateway/audiosocket_server.py:67-88 | A send writes its frames up to the first that fails, and of that one everything or nothing; it succeeds exactly if none fails. |
| AudioSocket.DrainedMeansAllWritten | apps/gateway/gateway/audiosocket_server.py:81-88 | A send that reports success has written every frame in full. |
| SocketReader.AudioSocketConnection.ReadInto | integrations/freepbx/asterisk/test-res-audiosocket-header-read.c:233 | One read moves the next bytes from the socket to their place in the buffer and leaves earlier ones alone. |
| SocketReader.AudioSocketConnection.ReceiveFrame | integrations/freepbx/asterisk/test-res-audiosocket-header-read.c:205-281 | The header loop over its 3-byte buffer is the specified fill, for every schedule. |
| SocketReader.AudioSocketConnection.ReceiveBody | integrations/freepbx/asterisk/test-res-audiosocket-header-read.c:278-345 | The kind and length checks and the payload loop over its buffer are the specified rest of the call. |
| SocketReader.ReceiveShape | integrations/freepbx/asterisk/test-res-audiosocket-header-read.c:232-332 | A call consumes a prefix of the unread bytes and nothing else changes. |
| SocketReader.NullFramesConsumeNothing | integrations/freepbx/asterisk/test-res-audiosocket-header-read.c:252-256 | The null frame is returned exactly at a boundary with nothing to read yet, and consumes no byte. |
| SocketReader.HangupIsBoundaryOrRequest | integrations/freepbx/asterisk/test-res-audiosocket-header-read.c:238-284 | Hangup is set exactly on end of stream at a frame boundary or a complete header of kind 0. |
| SocketReader.VoiceFramesAreWhole | integrations/freepbx/asterisk/test-res-audiosocket-header-read.c:286-345 | A voice frame is returned exactly when one whole audio frame of at least one byte was consumed, and carries its payload. |
| ReaderFailures.FatalIff | integrations/freepbx/asterisk/test-res-audiosocket-header-read.c:221-338 | For every schedule the reader fails closed exactly on a read error, end of stream inside a frame, a timed-out or broken wait inside a frame, an interrupted payload read or wait, a wrong kind, length 0 or a failed allocation, whichever it meets first. |
| SocketReader.BlockedHasProgressed | integrations/freepbx/asterisk/test-res-audiosocket-header-read.c:232-332 | Every delivering read moves a loop on by a byte, so it cannot see as many as the bytes it wants without ending. |
| SocketReader.AmpleCallsReturn | integrations/freepbx/asterisk/test-res-audiosocket-header-read.c:232-332 | With finitely many interruptions and bytes to read, every call returns. |
| SocketReader.CalmCallReadsFrame | integrations/freepbx/asterisk/test-res-audiosocket-header-read.c:205-345 | Without timeouts and payload interruptions a call returns the next frame whole, or the null frame with nothing consumed. |
| SocketReader.CallsReadFrames | integrations/freepbx/asterisk/test-res-audiosocket-header-read.c:205-345 | Repeated calls yield the frames in order, null frames between, hangup only after all of them. |
| SocketReader.SentAudioIsHeard | apps/gateway/gateway/audiosocket_server.py:67-88 | Any sequence of non-empty payloads that were sent arrives as voice frames, the pieces in order, that concatenate to exactly those payloads, however the socket splits the bytes. |
| SocketReader.EmptyFrameIsFatal | integrations/freepbx/asterisk/test-res-audiosocket-header-read.c:291-296 | A frame of length 0 ends the connection. |
| SocketReader.SentSilenceIsFatal | apps/gateway/gateway/audiosocket_server.py:81-88 | An empty payload is sent as such a frame. |
| Ulaw.DecodeOne | apps/gateway/gateway/external_media_rtp.py:12-17 | The shifted and biased value is the sample of the byte, and fits 16 bits. |
| Ulaw.EncodeOne | apps/gateway/gateway/external_media_rtp.py:26-31 | The sign, exponent and mantissa make the byte of the sample. |
| Ulaw.StandardLevels | apps/gateway/gateway/external_media_rtp.py:10-19 | The decoder's values are those of the recommendation, scaled from 14 to 16 bits. |
| Ulaw.UlawToPcm16 | apps/gateway/gateway/external_media_rtp.py:10-19 | Each byte becomes its G.711 sample twice, so the length is exactly four times. |
| Ulaw.Pcm16ToUlaw | apps/gateway/gateway/external_media_rtp.py:22-32 | Every other sample is compressed; an odd number of bytes is an error. |
| Ulaw.RoundTripError | apps/gateway/gateway/external_media_rtp.py:10-32 | A sample survives within 2^(segment+2), at most 512, of its clipped value, and within 644 of itself. |
| Ulaw.RoundTripIsMonotone | apps/gateway/gateway/external_media_rtp.py:10-32 | Companding keeps order across segments and signs. |
| Ulaw.RoundTripIsIdempotent | apps/gateway/gateway/external_media_rtp.py:10-32 | A second round trip changes nothing. |
| Ulaw.CompressExpand | apps/gateway/gateway/external_media_rtp.py:10-32 | Every byte but negative zero is recovered from its sample, which fits 16 bits. |
| Ulaw.DecodeThenEncode | apps/gateway/gateway/external_media_rtp.py:10-32 | Any µ-law payload comes back with only 0x7F turned into 0xFF. |
| Ulaw.EncodeThenDecode | apps/gateway/gateway/external_media_rtp.py:10-32 | PCM of any even length comes back with each kept sample within its bound and doubled. |
| Ulaw.DecodingIsUnique | apps/gateway/gateway/external_media_rtp.py:10-19 | The decoding relation determines every byte. |
| Rtp.Parse | apps/gateway/gateway/external_media_rtp.py:35-46 | Fewer than 12 bytes or another version, a missing extension header and an empty payload are refused in that order; otherwise everything behind the header is returned. |
| Rtp.ParseInvertsBuild | apps/gateway/gateway/external_media_rtp.py:35-46 | For any contributors, any extension and any non-empty payload of a version 2 packet the parser returns exactly the payload; an empty one is refused. |
| Rtp.AcceptedIsBuilt | apps/gateway/gateway/external_media_rtp.py:35-46 | Whatever is accepted is a version 2 packet with that payload. |
| Rtp.RefusedIff | apps/gateway/gateway/external_media_rtp.py:35-46 | Every refusal of the parser with its exact condition on the bytes. |
| Rtp.RtpState.Packet | apps/gateway/gateway/external_media_rtp.py:49-59 | A sent packet is a version 2 packet of the current counters, which then advance. |
| Rtp.SentBytes | apps/gateway/gateway/external_media_rtp.py:55-59 | Byte for byte: version 2 without extras, payload type 0, the counters in order, the payload. |
| Rtp.RunCountsPacketsAndSamples | apps/gateway/gateway/external_media_rtp.py:49-59 | The i-th packet of any run has sequence start+i mod 2^16, timestamp start plus all samples before it mod 2^32, and parses to the i-th payload. |
| Cidr.ContainsIffBitsAgree | integrations/freepbx/validation.php:142-162 | The byte and mask comparison holds exactly for equal lengths and equal first `prefix` bits. |
| Cidr.InsideComposes | integrations/freepbx/config.php:78-98 | An address of a block inside another is in the other. |
| Cidr.InsideIsNecessary | integrations/freepbx/config.php:78-98 | And a block all of whose addresses another holds lies inside it. |
| Cidr.V6Ranges | integrations/freepbx/config.php:89-91 | The byte tests on IPv6 are exactly fc00::/7, fe80::/10 and ::1/128 (section 3.1 of RFC 4193, section 2.5.6 of RFC 4291). |
| Cidr.PrivateNetwork | integrations/freepbx/config.php:78-92 | A block is accepted as private exactly when it lies inside a listed range (section 3 of RFC 1918 among them). |
| Cidr.Cidrs | integrations/freepbx/config.php:56-76 | A list is accepted exactly when every entry is valid and, for the allowed list, non-empty, narrow and private; it is returned unchanged. |
| Cidr.FromArray | integrations/freepbx/config.php:27-29 | The configuration is accepted exactly then, and the denied list always gains the container's bridge address. |
| Cidr.SourceAllowed | integrations/freepbx/validation.php:164-177 | Denied entries decide first, then allowed ones, up to the first hit or invalid entry. |
| Cidr.FirstHitIsMembership | integrations/freepbx/validation.php:164-177 | On an accepted list the scan is membership in some entry, whatever the order. |
| Cidr.AdmitsExactly | integrations/freepbx/validation.php:164-177 | A source is admitted exactly when an allowed entry holds it and no denied one does. |
| Cidr.PrivateIff | integrations/freepbx/config.php:78-92 | In bytes: which blocks are private. |
| Cidr.AcceptedIff | integrations/freepbx/config.php:56-76 | A configuration is accepted exactly if something is allowed, all of it private by its bytes, and every entry parses. |
| Cidr.AdmittedIff | integrations/freepbx/validation.php:142-177 | A source is admitted exactly when it agrees on the fixed bits of an allowed entry, of no denied one, and is not 172.18.0.1. |
| Cidr.AdmittedBytesArePrivate | integrations/freepbx/config.php:78-92 | In bytes: whatever an accepted configuration admits starts like a private, loopback or link-local address. |
| Cidr.AdmittedSourcesArePrivate | integrations/freepbx/config.php:27-29 | Under any accepted configuration every admitted source lies in a private range and in no denied one. |
| Dialplan.SortSorts | integrations/freepbx/dialplan.php:12 | Sorting keeps the routes and orders them strictly when keys do not repeat. |
| Dialplan.BeforeIff | integrations/freepbx/dialplan.php:12 | The order is strcmp: decided by the first difference. |
| Dialplan.AscendingIsUnique | integrations/freepbx/dialplan.php:12 | The same routes have one ascending order. |
| Dialplan.Render | integrations/freepbx/dialplan.php:6-21 | The loop writes the heading, four lines per route by ascending number, and a final newline. |
| Dialplan.RenderListsEachRoute | integrations/freepbx/dialplan.php:6-21 | The managed file is the heading, four lines for every route at its place in number order, and nothing else. |
| Dialplan.RenderedLineByLine | integrations/freepbx/dialplan.php:6-21 | The text of every line of the managed file. |
| Dialplan.RenderedInNumberOrder | integrations/freepbx/dialplan.php:12 | The smaller number comes first. |
| Dialplan.RenderIgnoresOrder | integrations/freepbx/dialplan.php:6-21 | The managed file does not depend on the order of the routes. |
| Dialplan.PopBlanks | integrations/freepbx/dialplan.php:41 | All blank lines at the end are removed, and no other. |
| Dialplan.EnsureInclude | integrations/freepbx/dialplan.php:23-43 | The loop with its flag and pops is the specified rewriting. |
| Dialplan.EnsuredKeepsTheRest | integrations/freepbx/dialplan.php:23-43 | The result has one include, canonical, and every other line in order, trailing blanks aside. |
| Dialplan.IncludeStandsInPlace | integrations/freepbx/dialplan.php:23-43 | The include stands where the first one stood, behind the very lines that were there, or else at the end. |
| Dialplan.EnsuredIsInOrder | integrations/freepbx/dialplan.php:23-43 | The result has exactly one blank line at its end. |
| Dialplan.EnsuredIsFixpointIff | integrations/freepbx/dialplan.php:23-43 | Rewriting again changes nothing, and contents are unchanged exactly when already in order. |
| RouteProvisioning.Load | integrations/freepbx/state.php:10-41 | A state loads, sorted by id, exactly if no id and no number repeats. |
| RouteProvisioning.OwnedRoute | integrations/freepbx/dids.php:140-144 | The first route with the id, if any. |
| RouteProvisioning.SavedRoutesReload | integrations/freepbx/state.php:43-55 | What is saved is what loads. |
| RouteProvisioning.FreepbxDidService.Save | integrations/freepbx/dids.php:29-82 | Checks, ordered writes up to the first failure, and compensation, on all four resources at once. |
| RouteProvisioning.SaveAnswers | integrations/freepbx/dids.php:29-82 | Every answer of a save with its exact condition on the listed routes, the DID table, the overlap and the failing steps; a refusal changes nothing. |
| RouteProvisioning.SuccessfulSaveSetsTheDid | integrations/freepbx/dids.php:55-66 | A successful save writes the row of this number and no other. |
| RouteProvisioning.SuccessfulSaveListsTheRoute | integrations/freepbx/dids.php:48-68 | It lists the route beside those listed before, and renders just what it lists. |
| RouteProvisioning.EachRecoveryActsAlone | integrations/freepbx/dids.php:71-80 | After a failed write each recovery step that succeeds restores what it covers, whatever the others do. |
| RouteProvisioning.FreepbxDidService.Write | integrations/freepbx/dids.php:55-71 | The guarded writes stop at the first failing stage with exactly the earlier ones done. |
| RouteProvisioning.FreepbxDidService.ReadsBack | integrations/freepbx/dids.php:101-123 | Readback holds exactly when the files are the rendered ones and every listed DID is managed. |
| RouteProvisioning.FreepbxDidService.AllShown | integrations/freepbx/dids.php:116-121 | The scan of the running dialplan holds exactly if every listed number is shown. |
| RouteProvisioning.FreepbxDidService.Apply | integrations/freepbx/dids.php:84-99 | Apply reloads only with no active channel and after readback, and reports success only when the running dialplan shows every route. |
| RouteProvisioning.ApplyAnswers | integrations/freepbx/dids.php:84-123 | Every answer of apply with its exact condition; what it applies is what is listed. |
| RouteProvisioning.FailedSaveLeavesAsFound | integrations/freepbx/dids.php:55-80 | A save failing at any stage up to writing the state leaves files (absence included), state and DID table as found, except the description of a number already managed. |
| RouteProvisioning.MarkFailureLeavesAsFoundIff | integrations/freepbx/dids.php:70-80 | If only marking the reload fails, that holds exactly when the route was already owned. |
| RouteProvisioning.MarkFailureKeepsARoute | integrations/freepbx/dids.php:70-80 | A concrete failed save of a first route that leaves it in the state. |
| RouteProvisioning.CandidateHasNoDuplicates | integrations/freepbx/dids.php:36-49 | From a coherent world no repeated id or number is ever written. |
| RouteProvisioning.SuccessfulSaveIsCoherent | integrations/freepbx/dids.php:36-82 | A successful save re-establishes readback for the reloaded routes, the new one among them. |
| RouteProvisioning.FreshWorldIsCoherent | integrations/freepbx/dids.php:105-107 | Before the first save readback holds. |
| RouteProvisioning.RunStaysCoherent | integrations/freepbx/dids.php:29-82 | Any run of saves that succeed or recover keeps readback. |
| RouteProvisioning.ApplyNeverDrifts | integrations/freepbx/dids.php:84-99 | So after any such run `apply` refuses neither on drift nor on unreadable state. |
| RouteProvisioning.SavedStateLoadsIff | integrations/freepbx/dids.php:36-68 | From any loadable state a successful save leaves a loadable one exactly if the route was owned or no listed route has the number. |
| RouteProvisioning.DriftedDidIsSavedTwice | integrations/freepbx/dids.php:40-49 | A concrete save that leaves a state which no longer loads. |
| Pagination.FetchTakesNext | apps/control-api/app/call_history_queries.py:86-99 | A page is the next rows in order; what is left past the cursor is below its last row; the next cursor is given exactly when rows are left. |
| Pagination.WalkMissesNothing | apps/control-api/app/call_history_queries.py:86-99 | Whatever comes and goes between fetches, keys strictly descend and none present throughout is missed. |
| Pagination.FixedWalk | apps/control-api/app/call_history_queries.py:86-99 | On a fixed table n fetches list the first n times limit rows, and end when there are no more. |
| Pagination.NumberedPagesListAll | apps/control-api/app/call_history_queries.py:76-85 | Pages 1 to total_pages are the whole listing cut up, and later pages are empty. |
| Pagination.WalkEqualsPages | apps/control-api/app/call_history_queries.py:76-99 | The walk is the concatenation of the numbered pages. |
| Pagination.HistoryWalkMissesNothing | apps/control-api/app/call_history_queries.py:32-99 | The same for the endpoint with scope and filters, while rows also change status: only rows in scope and matching when read, and every row that was so throughout, once. |
| Pagination.HistoryWalkEqualsPages | apps/control-api/app/call_history_queries.py:64-99 | On an unchanging table following the cursor reads exactly the numbered pages. |
| Pagination.PagesKeepToTheScope | apps/control-api/app/call_history_queries.py:32-99 | A page lists only rows of the asking organization, of the asked partner or of some partner, that have what each filter asks; a numbered page counts just those, and a cursor page leaves out none between its cursors. |
| Pagination.PagesListAllAsked | apps/control-api/app/call_history_queries.py:64-85 | The numbered pages together list exactly those rows. |
| Pagination.WalkKeepsToTheScope | apps/control-api/app/call_history_queries.py:32-99 | A walk over a changing table lists no row that was not the asker's to see when read, and misses none that was asked for throughout. |
| Pagination.SignalsShownIff | apps/control-api/app/call_history_queries.py:109-120 | The signals of a call are listed exactly to those who may see one of its rows. |
| Pagination.SignalsAscend | apps/control-api/app/call_history_queries.py:116-133 | A signal page lists stored sequences past the cursor, ascending. |
| Pagination.SignalsSkipNone | apps/control-api/app/call_history_queries.py:116-133 | And skips none before its next cursor. |
| SdkReconnect.Stream | sdks/python/asterisk_ai_gateway/client.py:252-335 | On every script the Python loop makes exactly the reference's attempts, waits and stop; a token reply that is malformed ends it. |
| SdkReconnect.GatewayClient.constructor | sdks/node/src/index.js:84-91 | A new client has no retry pending. |
| SdkReconnect.GatewayClient.ScheduleReconnect | sdks/node/src/index.js:526-545 | One timer at most: a pending retry or a closing client is left alone, otherwise the capped backoff is waited and doubled. |
| SdkReconnect.GatewayClient.WaitForRetry | sdks/node/src/index.js:567-582 | A waiter joins a pending retry or starts one, and does not remain when none can start. |
| SdkReconnect.GatewayClient.RetryAuthentication | sdks/node/src/index.js:547-565 | The fourth refusal stops; an earlier one joins the pending retry or schedules one, with a waiter only for the initial start; a closing client does neither. |
| SdkReconnect.GatewayClient.HandlePostStartAuthenticationFailure | sdks/node/src/index.js:584-595 | The same for a refusal after the socket opened, with no waiter. |
| SdkReconnect.GatewayClient.OnClose | sdks/node/src/index.js:443-467 | 4409 stops for good and drops a pending retry, 4401 counts as a refusal, any other code reconnects; a closing client ignores the close. |
| SdkReconnect.GatewayClient.Connect | sdks/node/src/index.js:385-502 | One attempt of a client that is not closing ends in exactly one stop or one pending retry; a ready resets both counters; an unreadable token reply counts as a failure, a missing token is tried. |
| SdkReconnect.GatewayClient.TimerFires | sdks/node/src/index.js:530-540 | A fired timer leaves no retry and no waiter, and resumes the start exactly if it waited. |
| SdkReconnect.GatewayClient.Start | sdks/node/src/index.js:185-194 | On every script the Node client makes exactly the reference's attempts, waits and stop on the outcomes as it reads them. |
| SdkReconnect.BothClients | sdks/node/src/index.js:385-595 | On every script the two SDKs do the same exactly if none of the token replies that Node meets is malformed; at the first one Python ends with an exception and Node does not. |
| SdkReconnect.PartAtMalformed | sdks/python/asterisk_ai_gateway/client.py:181-302 | Up to the first malformed token reply the two do the same, and there Python's run ends. |
| SdkReconnect.TraceAt | sdks/python/asterisk_ai_gateway/client.py:261-335 | The answer to each attempt is a closed function of the outcomes so far. |
| SdkReconnect.OutcomesMean | sdks/python/asterisk_ai_gateway/client.py:285-322 | By name and number: which outcomes reset the counters, refuse, or stop. |
| SdkReconnect.NodeTakesFor | sdks/node/src/index.js:385-403 | An unreadable token reply is a failure like any other to Node, and an absent token is tried. |
| SdkReconnect.WaitsDouble | sdks/python/asterisk_ai_gateway/client.py:330-335 | The k-th wait since the start or the last ready is 2^(k-1) seconds capped at the maximum; a stop happens exactly on a malformed token, on 4409 or on the fourth refusal. |
| SdkReconnect.WaitsAreCapped | sdks/python/asterisk_ai_gateway/client.py:330-335 | A wait never exceeds the maximum, and is the full power of two up to there. |
| SdkReconnect.StopsLast | sdks/python/asterisk_ai_gateway/client.py:295-330 | A stop is the last action, and only a stop leaves outcomes unused. |
| SdkReconnect.NothingAfterSuperseded | sdks/python/asterisk_ai_gateway/client.py:285-296 | After a 4409 close there is no further attempt. |
| SdkReconnect.AtMostFourRefusals | sdks/python/asterisk_ai_gateway/client.py:314-322 | At most four authentication failures occur between readies, however transport failures interleave. |

## Left out

- HistoryConverges: covers runs without a restart, which loses the queue and marks the histories it closes incomplete by design; the recovery lemmas and ReachableTablesAreSound cover those.
- EventsAreHandledInOrder: counts a queued event as lost to a finished call once the call has left the registry, without saying which coroutine finished it.
- SentAudioIsHeard: assumes one sender; two concurrent sends of long payloads on one connection may interleave their frames.
- ApplyNeverDrifts: speaks of the checks before the reload; what the running dialplan shows afterwards is an input.
- The call machine is on values, because its subject is the interleaving of coroutines; the in-place updates of a call's fields are `CallSignals.ActiveCall`.
- The machine lets other steps run between any two queued events, also where the code does not await; its runs include all real ones.
- Inbound calls, the transfer helper and its channel, calls created without an acceptance gate, and task cancellation at shutdown.
- A registry without a history store; the durable start is then always fine and the failure snapshot is not written.
- Order of delivery at the partner's socket: statements are about snapshots as created.
- Wall-clock columns (`updated_at`, answered and ended times, durations) are carried as given values; retry delays of the store are not modelled.
- Asterisk, HTTP, WebSocket, SQL and FreePBX internals; logging and metrics.
- AudioSocket: exceptions raised by the callbacks, `disconnect` and `stop`, the rate warning, and `channel_format`.
- The C reader's poll timeout length and its log lines; reads that report end of stream before the delivered bytes are read do not occur on TCP.
- RTP padding, which the parser does not strip; a packet with the padding bit returns its padding with the payload.
- `ExternalMediaProtocol` and the wire format it advertises.
- CIDR, IP, UUID, JSON, ISO date and base64 text; the models take parsed values, and a custom dialplan line is an include or another line, with newlines as the only separators.
- `patternMatches`: whether another route overlaps the number is an input of a save; `hasExactRoute` likewise for `apply`.
- Validation of route ids, numbers and labels, the file lock, temporary files and modes; a write succeeds whole or leaves the file alone.
- `list_history_agents`, the imported-history writer and the admin routes.
- SDKs with reconnect off, closing by the user, token replies labelled with another content type than JSON (which only the Python HTTP library refuses), failures of the register message itself, heartbeats, and clients whose backoff is rounded in floating point.
