# Verification of the session server

A Dafny model of the server that drives `codex app-server` children for MCP clients, with proofs about its
five stateful parts:

* **The activity marker stream** (`Text`, `ActivityScan`, `ActivityCuts`, `ActivityReference`, `ActivityRoundTrip`,
  `ActivityScanner`, `MarkerStripping`, `MarkerContent`, `MarkerSeparators`, `MarkerTidying`, `MarkerRoundTrip`,
  `ActivityLine`). `ActivityScan` says what the scanner decides on a text; `ActivityCuts` says exactly when the verdicts
  depend on how the text was cut into deltas; `ActivityReference` says what the markers of a text are without a scanner,
  and `ActivityRoundTrip` that markers written into a text are read back; `ActivityScanner` is the object with its carry
  buffer. `MarkerStripping`, `MarkerContent` and `MarkerSeparators` cover the deletion of markers from any answer,
  `MarkerTidying` and `MarkerRoundTrip` what comes back of an answer they were written into, and `ActivityLine` follows a
  message from its tokens to the line a poll reports.
* **One session** (`WarningRing`, `SessionState`, `SessionRequests`, `SessionRuns`, `SessionAnswers`, `SessionFields`,
  `SessionPolls`, `SessionWakeups`, `SessionNews`, `SessionRuntime`, `LongPoll`). `SessionState` gives every handler as
  one step on a value; `SessionRequests` and `SessionRuns` are about the requests held open and the one fate of each
  JSON-RPC id, `SessionAnswers` about what it is told and who said so, `SessionFields` about who moves the status, the
  turn, its result and the activity line; `SessionPolls` is about sleeping and waking in one step, `SessionWakeups` over
  whole runs, and `SessionNews` says event by event what a caller is woken for; `SessionRuntime` is the object whose
  handlers assign fields in place and are proved to take exactly those steps; `LongPoll` is the loop a poll runs over
  them.
* **The transport** (`WriteQueue`, `Connection`, `AppServerClient`, `Framing`, `Routing`, `Dispatches`): the bounded
  stdin queue, the correlation of requests with responses (section 5 of the JSON-RPC 2.0 Specification), and line framing
  with routing (sections 4, 4.1 and 6). `Routing` has the router, with an exception as a way a call comes back;
  `Dispatches` says what a stream of messages makes it call.
* **Disk state across server runs** (`EventLog`, `EventLogScan`, `EventLogLives`, `EventLogCodec`, `Retention`,
  `OrphanReaper`, `MetaCache`), with the operating system as an oracle that answers each probe, identification, write and
  signal as it likes.
* **The poll window** (`PollWindow`): what a client that cuts calls teaches.

`Sequences`, `Options` and `Text` hold what the others share. One `char` stands for one UTF-16 code unit, and times
are numbers of milliseconds.

Where the code and its own comments disagree, the model follows the code:

* The scanner's comment says that the cut of the stream cannot change a verdict. It can, for a body whose first close
  starts at offset 479 or 480; every other body is safe (`CutsAgreeExactlyOnSteadyText`).
* The comments call the metadata fingerprint everything `meta.json` carries besides `lastActiveAt`. It also omits
  `permissions` and `approvalsReviewer` (`UncoveredFieldsGoStaleExactly`).
* The scanner of the event log calls an unreadable line inside it lost data. One torn tail, written on by the next
  run, makes such a line and takes that run's first record with it (`LifeReads`).
* The window's comment says that the shortest timeout measured is the ceiling from then on. A first timeout longer
  than the declared ceiling raises it (`CeilingRisesExactlyOnLateFirstCut`).
* The stripping patterns are multi-line regular expressions, for which U+2028 and U+2029 start a line as well. A marker
  that starts behind one, inside a marker still open, is taken as a whole line, and visible text goes with it
  (`LineBehindSeparatorIsLost`, `JoinedOpenerTakesALine`).
* The long poll's comment says that a notification either preceded its read or wakes it. A poll that registers on a
  change nobody was notified of, as a reply makes one, sleeps through the change back
  (`StaleRegistrationIsSleptThrough`; `WakeupLostExactly` says when).

## Model

| member | source | states |
|---|---|---|
| ActivityScan.RunEndsUndecided | src/session/activity-marker.ts:94-97 | A push returns only where no more of the text held can be decided. |
| ActivityScan.FeedAllStaysBounded | src/session/activity-marker.ts:80-83 | After any stream at most 11 characters are held outside a marker and at most 480 inside one. |
| ActivityCuts.VerdictStands | src/session/activity-marker.ts:121-143 | A body kept, or disowned off the boundary, is kept or disowned whatever text follows it. |
| ActivityCuts.CutAnywhere | src/session/activity-marker.ts:89-98 | On a steady text, scanning a prefix and then the rest reaches the verdicts and the state of one scan of all of it. |
| ActivityCuts.FeedAllIsWhole | src/session/activity-marker.ts:89-143 | A steady text in any number of deltas, empty ones included, ends where one push of the whole does. |
| ActivityCuts.SomeCutDisagrees | src/session/activity-marker.ts:125-140 | A text with a body on the boundary has a cut into two deltas that changes a verdict. |
| ActivityCuts.CutsAgreeExactlyOnSteadyText | src/session/activity-marker.ts:89-143 | Every cut of a text agrees with the whole if and only if no body entered has its first close at offset 479 or 480. |
| ActivityCuts.VerdictHangsOnCutExactlyAtBoundary | src/session/activity-marker.ts:121-143 | Body by body: a prefix is decided otherwise than the whole if and only if the first close stands at one of the two offsets. |
| ActivityCuts.FillerIsOnBoundaryAt479And480 | src/session/activity-marker.ts:121-143 | Both offsets occur, and among markers of filler text no other length is on the boundary. |
| ActivityReference.RunKeepsTheMarkers | src/session/activity-marker.ts:104-143 | A scan of a text keeps exactly the bodies of its markers: each leftmost opener whose line closes within the limit, in turn. |
| ActivityReference.StreamReportsTheMarkers | src/session/activity-marker.ts:89-143 | The lines a stream reports are those of the markers of its steady text, in order, however it was cut. |
| ActivityReference.StreamLinesAreShort | src/session/activity-marker.ts:127-133 | Every line reported is non-empty, of one line, and at most 120 characters long. |
| ActivityRoundTrip.WrittenMarkersAreKept | src/session/activity-marker.ts:89-143 | Markers of at most 478 characters written into text that opens none are read back however the text is cut: exactly their bodies are kept, nothing is given up, and at most 11 characters are held. |
| ActivityRoundTrip.WrittenMarkersAreReported | src/session/activity-marker.ts:127-133 | The lines reported are those bodies in order, each the first 120 characters of what stands between the white space at its ends; a blank body has none. |
| ActivityScanner.ActivityMarkerScanner.Push | src/session/activity-marker.ts:89-98 | One delta takes the scanner where the reference scan goes, returns the lines that closed on it, and on a steady text leaves all lines so far equal to those of the text's markers; it terminates. |
| ActivityScanner.ActivityMarkerScanner.SeekOpener | src/session/activity-marker.ts:104-115 | Moves behind the leftmost opener, or keeps the tail an opener can still begin in. |
| ActivityScanner.ActivityMarkerScanner.ReadMarkerBody | src/session/activity-marker.ts:121-143 | Decides one body as the reference scan does and reports its line, or leaves it open. |
| ActivityScanner.ActivityMarkerScanner.Reset | src/session/activity-marker.ts:146-149 | A half-read marker is dropped and the next text is scanned as a stream of its own. |
| MarkerStripping.NoOpenerMade | src/session/activity-marker.ts:30-32 | A pass behind whose matches the line ends makes no opener that was not there. |
| MarkerStripping.StrippedHoldsNoOpener | src/session/activity-marker.ts:159-170 | For every text the stripped answer holds no opener, not even one a deletion joined. |
| MarkerStripping.StrippingTwiceIsOnce | src/session/activity-marker.ts:159-170 | Stripping a stripped answer changes nothing. |
| MarkerStripping.StripOnlyDeletes | src/session/activity-marker.ts:159-170 | The stripped answer is the text with characters left out. |
| MarkerContent.VisibleTextKept | src/session/activity-marker.ts:26-32 | In text where neither whole-line pattern matches behind an opener left standing on its line, the four passes and the tidying keep, in order, every visible character outside the markers: the whole-line passes take no more ink than the inline ones. |
| MarkerSeparators.SpacedTextIsKept | src/session/activity-marker.ts:26-32 | That holds of every text in which no U+2028 or U+2029 is followed, blanks apart, by a percent sign. |
| MarkerSeparators.LineBehindSeparatorIsLost | src/session/activity-marker.ts:26-32 | Of every text with an open marker, a separator in it and a closed marker behind that, the strip keeps less than cutting the markers does. |
| MarkerSeparators.JoinedOpenerTakesALine | src/session/activity-marker.ts:159-170 | The same where no separator stands before an opener: a deletion joins one behind it, so the condition is on what the third pass reads as well. |
| MarkerTidying.ParagraphsStay | src/session/activity-marker.ts:166-169 | Three newlines or more become two, one or two stay, and the text between stays. |
| MarkerTidying.LineEndsGo | src/session/activity-marker.ts:166-169 | Only the blanks at the end of each line go. |
| MarkerRoundTrip.CuttingUndoesWriting | src/session/activity-marker.ts:161-165 | Of an answer with markers written into it, closed or left open, inside its lines or on lines of their own, the four passes take exactly the markers, and the line of those that have one. |
| MarkerRoundTrip.StripUndoesWriting | src/session/activity-marker.ts:159-170 | What comes back of such an answer: its lines without the blanks behind them, at most one empty line between two, and no white space at either end. |
| MarkerRoundTrip.TidyAnswerComesBack | src/session/activity-marker.ts:159-170 | A tidy answer comes back character by character, but for white space at its ends. |
| ActivityLine.DeltaAddsLines | src/session/activity-marker.ts:89-98 | A delta only adds lines to those of the stream. |
| ActivityLine.StreamStands | src/session/manager/notifications-stream.ts:64-81 | After any deltas, each at its own instant and with any other events between them, the standing activity is the last line of the stream so far, as of the delta that completed it. |
| ActivityLine.StandingLineIsTheLastMarker | src/session/manager/notifications-stream.ts:64-81 | However the tokens of a message were cut and whatever came between them, the activity a poll reports at its end is the last marker of its steady text, as of the token that completed it. |
| WarningRing.RingIsNewestOfMerged | src/session/manager/notifications-stream.ts:171-193 | After any run of warnings the ring is the last five of the history with consecutive repeats merged, and the counter is that history's length. |
| WarningRing.SeqMovesOnNewOnes | src/session/manager/notifications-stream.ts:181-188 | The counter moves on exactly the warnings that do not repeat the one before. |
| WarningRing.RecordRefreshesOrAdds | src/session/manager/notifications-stream.ts:178-188 | A warning that repeats the last one only refreshes its instant; any other is added, and of more than five the oldest goes. |
| SessionRequests.ClosingMovesOneFate | src/session/manager/pending-requests.ts:15-30 | Closing one request moves its id from held to answered, or to lost if the send failed, and touches no other id. |
| SessionRequests.ClosingAllKeeps | src/session/manager/pending-requests.ts:15-30 | Closing every request leaves none open and each id with exactly one fate; none is lost while the client takes every answer. |
| SessionRequests.HoldingOpenKeeps | src/session/manager/server-requests.ts:62-91 | A request held open is unresolved, has a live timer and is the one fate of its id. |
| SessionRuns.NoteLeavesRequests | src/session/manager/notifications.ts:273-290 | No notification opens, closes or answers a request, cancels a session or revives a cancelled one. |
| SessionRuns.AnswerKeeps | src/session/manager/approvals.ts:18-37 | A caller's answer keeps every id at one fate, and a failed one loses none. |
| SessionRuns.TimerKeeps | src/session/manager/server-requests.ts:73-86 | A timeout answers its own request once and keeps every id at one fate. |
| SessionRuns.StepKeeps | src/session/manager/handlers.ts:16-89 | Every step keeps all of this; an id is lost only where an answer of the server's own could not be sent, never by a caller's answer. |
| SessionRuns.StepKeepsWaitAnswerable | src/session/manager/progress.ts:72-89 | No step parks a session in the store on `waiting_approval` with nothing to answer. |
| SessionRuns.RunKeeps | src/session/manager/handlers.ts:16-89 | The same over whole runs of events. |
| SessionRuns.OneAnswerPerRequest | src/session/manager/server-requests.ts:62-91 | Over every run no JSON-RPC id gets two answers, each is held open, answered or lost and only one of these, and with a client that takes every answer each is held open or answered; every open request is unresolved with a live timer. |
| SessionRuns.WireOnlyGrows | src/session/manager/approvals.ts:18-37 | No answer given is taken back or reordered. |
| SessionRuns.FailedAnswerCanBeRetried | src/session/manager/approvals.ts:18-37 | A decision the client did not take leaves the request open with its timer and no decision; the next one sent is the answer the app-server reads. |
| SessionRuns.GoingAwayAnswersEveryOpenRequest | src/session/manager/cleanup.ts:113-133 | Cancelling, losing the process or evicting answers every open request with the cancel answer of its kind and leaves none. |
| SessionRuns.CancelledLeftExactlyByOverrides | src/session/manager/turns.ts:238-246 | A cancelled session changes status on exactly three steps: a failed reply, a reply opened on an earlier check, a finished resume; and none gives it a request to hold. |
| SessionRuns.CancelledStays | src/session/manager/handlers.ts:44-48 | Over any run without those steps a cancelled session stays cancelled and holds no request. |
| SessionAnswers.TimeoutDeclines | src/session/manager/server-requests.ts:73-86 | An open approval nobody answers is told `decline` and an open question an empty answer, once; the object records it and the slot and timer go. |
| SessionAnswers.DecisionIsPassedOn | src/session/manager/approvals.ts:39-80 | A decision on an open approval is what the app-server is told and what the object records; for anything else the call changes nothing. |
| SessionAnswers.AnswersArePassedOn | src/session/manager/approvals.ts:82-107 | The same for the answers to an open question. |
| SessionAnswers.AnsweredAtOnce | src/session/manager/approval-io.ts:40-77 | In a terminal session, and for a method not held open, the app-server gets `cancel`, an empty answer, `denied` or a refusal at once, by method. |
| SessionAnswers.HeldUntilAnswered | src/session/manager/server-requests.ts:62-91 | Any other approval or question is held open, unresolved and with its timer, and nothing is said. |
| SessionAnswers.StepSays | src/session/manager/handlers.ts:16-89 | Every step only adds to the wire, and each answer it adds is the literal one its event accounts for. |
| SessionAnswers.NoDecisionIsMadeUp | src/session/manager/approvals.ts:18-107 | Over any run, whatever the app-server reads beyond `decline`, `cancel`, `denied`, an empty answer or a refusal was given by the caller in that run for that request. |
| SessionFields.ResultMoves | src/session/manager/cleanup.ts:81-97 | The last turn's answer moves on four events only: a turn that completes, is cancelled without one or dies with the process writes it, a reply drops it; a cancel keeps that of a turn that ended. |
| SessionFields.TurnMoves | src/session/manager/notifications.ts:82-171 | The turn a session is on moves on exactly the events that start or end one. |
| SessionFields.ActivityMoves | src/session/manager/notifications-stream.ts:64-159 | Deltas and a reviewer's verdict replace the activity line, a hook's line only where no marker stands, a new turn drops it, and nothing else touches it. |
| SessionFields.WarningsMove | src/session/manager/notifications-stream.ts:105-193 | Only warnings and hooks that held the turn are recorded. |
| SessionFields.StatusMoves | src/session/manager/progress.ts:72-89 | For every event but a request, its answer or its timer: which status it leaves; open requests decide waiting, a terminal session hears no thread status. |
| SessionFields.FailedSendWaits | src/session/manager/approvals.ts:29-34 | An answer the client did not take leaves the request open with its timer, the session waiting and the decision dropped. |
| SessionPolls.DoneAllWakes | src/session/manager/waiters.ts:89-94 | Waking resolves every sleeper once and clears its slot, its timer and its abort listener. |
| SessionPolls.NotifyWakesOnChange | src/session/manager/waiters.ts:83-95 | A notification wakes everyone if the signal differs from the last notified one and no one otherwise. |
| SessionPolls.StaleExactlyWhenUnheard | src/session/manager/handlers.ts:31-89 | From a notified session a step leaves the last notified signal stale if and only if it is one of six named cases; every other step wakes all waiters if it moved the signal and none otherwise. |
| SessionPolls.StepKeepsPolls | src/session/manager/waiters.ts:15-60 | In any step, stale or not, a session has at most four sleepers, each with its timer and unresolved, and a resolved poll does not sleep again. |
| SessionPolls.RunKeepsPolls | src/session/manager/waiters.ts:15-60 | The same over whole runs: each poll is resolved once, refused, or asleep. |
| SessionPolls.StaysAwake | src/session/manager/waiters.ts:43-49 | A poll once resolved is resolved exactly once, whatever follows. |
| SessionPolls.WaitRegisters | src/session/manager/waiters.ts:15-60 | A poll sleeps with its timer and its abort listener; an aborted call is resolved at once and a fifth is refused. |
| SessionPolls.WaitEnds | src/session/manager/waiters.ts:43-59 | A sleeper's own timeout or abort resolves it and takes its slot, timer and listener, and no other's. |
| SessionPolls.StepWakesOrNot | src/session/manager/waiters.ts:83-95 | In any state, stale or not, a step wakes every sleeper once if a signal it notifies differs from the last notified one, and none otherwise. |
| SessionWakeups.SleepsExactlyWhileNotificationsLand | src/session/manager/waiters.ts:62-95 | Over any run from any state a poll still sleeps if and only if every signal notified since is the one last notified before; otherwise it was resolved once. |
| SessionWakeups.PollReturnsExactlyOnNews | src/session/manager/waiters.ts:15-95 | A poll that registers in any state is resolved if and only if some later notification differs from the last one before it, and then once. |
| SessionWakeups.WakeupLostExactly | src/session/manager/waiters.ts:83-87 | A wakeup is lost if and only if the session moved and every notification landed on the last notified signal; from a notified session it takes an unheard step. |
| SessionWakeups.SleepsExactlyWhileNothingMoves | src/session/manager/waiters.ts:62-95 | No lost wakeup from a notified session: over any run whose steps are heard a poll still sleeps if and only if no step moved the signal or dropped the session. |
| SessionWakeups.PollReturnsExactlyOnMove | src/tools/codex-check.ts:283-303 | A poll that reads a notified session and registers in one go is resolved, over heard steps, if and only if some later state differs from the one it read. |
| SessionWakeups.StaleRegistrationIsSleptThrough | src/session/manager/turns.ts:259-268 | From every idle notified session without a result: a poll registered after a reply opened sleeps through the heard step back to idle, because the signal is the last notified one again. |
| SessionWakeups.EntersFit | src/session/manager/waiters.ts:66-69 | A session as it enters the store meets what the theorems over runs ask of it. |
| SessionWakeups.ReplyFailureIsSleptThrough | src/session/manager/turns.ts:238-268 | A poll registered during a reply sleeps through that reply's failure, which goes unheard. |
| SessionNews.SignalIsWhatIsRead | src/session/manager/session-view.ts:75-90 | Two sessions have one signal if and only if a caller reads the same of both: the status shown, the requests to answer, the instants of the last result and of the activity line, and the number of warnings. |
| SessionNews.WakesExactlyOnNews | src/session/manager/waiters.ts:83-95 | From a notified session a heard event wakes every sleeper once if it is news to a caller, by a table of events that does not name the signal, and no one otherwise. |
| SessionNews.SleepsExactlyWithoutNews | src/session/manager/waiters.ts:62-95 | Over any heard run from a notified session a poll still sleeps if and only if no event was news. |
| LongPoll.WaitForSessionToMove | src/tools/codex-check.ts:273-304 | The loop ends at the first reading that moved or waits for the caller, or the first pass that cannot sleep, and not earlier. |
| LongPoll.PollReturnsAtFirstMove | src/tools/codex-check.ts:273-304 | Over a heard run of a notified session that loop returns at the first state that differs from the one read; otherwise the caller was waited for at the start or the deadline, the client or full slots ended it while the session stood, and a notification woke it at most once. |
| LongPoll.PollSleepsOverUnrecordedEnd | src/session/manager/session-view.ts:57-69 | An idle status whose turn is not recorded yet reads to a poll as the running one it replaced. |
| LongPoll.AwaitsCallerExactly | src/session/manager/poll.ts:205-218 | A poll returns at once exactly where a request is open or the session shows that it is over. |
| SessionRuntime.Runtime.constructor | src/session/manager/waiters.ts:66-69 | A session enters the store notified of the signal it starts on. |
| SessionRuntime.Runtime.SignalNow | src/session/manager/session-view.ts:75-90 | The signal read off the fields is that of the abstract session, or `gone` outside the store. |
| SessionRuntime.Runtime.Resolve | src/session/manager/waiters.ts:43-49 | One waiter is resolved and its slot, timer and listener go, whichever of the three fired. |
| SessionRuntime.Runtime.NotifyWaiters | src/session/manager/waiters.ts:83-95 | The loop over the snapshot takes the object to the notified state and touches no field of the session. |
| SessionRuntime.Runtime.WaitForChange | src/session/manager/waiters.ts:15-60 | Registers, resolves at once for an aborted signal, or refuses a fifth waiter, and says which. |
| SessionRuntime.Runtime.SettlePendingRequest | src/session/manager/pending-requests.ts:68-83 | The request leaves the map, the last one gives the session its turn back, and the waiters hear of it. |
| SessionRuntime.Runtime.AwaitPendingRequest | src/session/manager/server-requests.ts:62-91 | The request stands open with its timer and the session waits. |
| SessionRuntime.Runtime.HandleServerRequest | src/session/manager/handlers.ts:44-59 | A terminal session answers at once, an approval or a question is held open, any other method is refused; the step is the model's. |
| SessionRuntime.Runtime.PutBack | src/session/manager/approvals.ts:29-34 | After a failed send the request stands as before and the session waits unless it was cancelled. |
| SessionRuntime.Runtime.SendPendingAnswer | src/session/manager/approvals.ts:18-37 | An answer taken stops the timer and is on the wire once; one refused changes nothing but the status. |
| SessionRuntime.Runtime.ResolveApproval | src/session/manager/approvals.ts:39-80 | Takes the model's step and throws exactly for a request that is gone, one that is no approval, a decision it does not accept, or a failed send. |
| SessionRuntime.Runtime.ResolveUserInput | src/session/manager/approvals.ts:82-107 | The same for the answer to a question. |
| SessionRuntime.Runtime.FireTimeout | src/session/manager/server-requests.ts:73-86 | The timeout closure answers for the caller, settles the request, and does nothing for one resolved already. |
| SessionRuntime.Runtime.ClearPendingRequests | src/session/manager/pending-requests.ts:15-30 | The loop closes every request in the order they came. |
| SessionRuntime.Runtime.ClosePendingRequest | src/session/manager/cleanup.ts:122-133 | One request is closed, answered once with `cancel` or empty answers unless it was resolved. |
| SessionRuntime.Runtime.PerformCancelSession | src/session/manager/cleanup.ts:53-104 | Cancels once, keeps the result of a finished turn, and wakes the waiters. |
| SessionRuntime.Runtime.FailOnSubprocessLoss | src/session/manager/handlers.ts:73-89 | Closes every request, and fails and notifies only a session under a live turn. |
| SessionRuntime.Runtime.EvictSession | src/session/manager/store.ts:303-333 | Closes every request, drops the session, and wakes its waiters with it gone. |
| SessionRuntime.Runtime.OpenReplyTurn | src/session/manager/turns.ts:259-268 | Drops the finished turn's answer and runs, without notifying. |
| SessionRuntime.Runtime.EndReply | src/session/manager/turns.ts:230-246 | A started turn names itself; a failed start sets `error` whatever the status, and neither notifies. |
| SessionRuntime.Runtime.FinishResume | src/session/manager/fork-resume.ts:75-80 | A resumed session is idle whatever it was, and its waiters hear of it. |
| SessionRuntime.Runtime.ShiftOldest | src/session/manager/notifications-stream.ts:186 | The loop leaves the newest five warnings. |
| SessionRuntime.Runtime.RecordWarning | src/session/manager/notifications-stream.ts:171-193 | Takes the model's step: a repeat refreshes the standing entry and wakes no one. |
| SessionRuntime.Runtime.OnHookNotification | src/session/manager/notifications-stream.ts:143-159 | A hook's line stands only while no marker of the turn does. |
| SessionRuntime.Runtime.OnAgentMessageDelta | src/session/manager/notifications-stream.ts:64-81 | Of the lines that closed on one delta the last stands, and the waiters hear of it. |
| SessionRuntime.Runtime.OnThreadStatusChanged | src/session/manager/progress.ts:72-89 | The map of open requests decides waiting, never the notification; a terminal session is left alone. |
| SessionRuntime.Runtime.OnLiveTurn | src/session/manager/notifications.ts:82-171 | Turn started, turn completed and error move a session unless it is cancelled. |
| SessionRuntime.Runtime.OnAutoApprovalReviewCompleted | src/session/manager/notifications-stream.ts:219-234 | A review that did not approve stands as the activity line. |
| SessionRuntime.Runtime.OnWarningNotification | src/session/manager/notifications-stream.ts:105-131 | A warning, or a buffering shown to the person, is recorded as the model records it. |
| SessionRuntime.Runtime.HandleNotification | src/session/manager/handlers.ts:32-41 | Every notification is acted on and then notified. |
| SessionRuntime.Runtime.Handle | src/session/manager/handlers.ts:16-70 | Whatever arrives, the object takes the step of the model and keeps every invariant above. |
| WriteQueue.WriteKeeps | src/app-server/client/write-queue.ts:40-54 | A write keeps the queue's invariants, accepts or refuses as a whole, and calls `fail` exactly where it lost something. |
| WriteQueue.FlushFromKeeps | src/app-server/client/write-queue.ts:66-79 | Draining moves the oldest payloads to stdin in order; what stays behind without a failure stands behind a full pipe. |
| WriteQueue.FlushKeeps | src/app-server/client/write-queue.ts:57-80 | The same for the whole flush, an unwritable pipe included. |
| WriteQueue.OpenPipeSendsEverything | src/app-server/client/write-queue.ts:66-79 | A pipe that takes everything empties the queue and loses nothing. |
| WriteQueue.OpenPipeSendsAtOnce | src/app-server/client/write-queue.ts:40-54 | A payload written to an open pipe goes out at once; the pipe is full behind it exactly if it said so, and one it throws on is not accepted. |
| WriteQueue.FullPipeHoldsUntilDrain | src/app-server/client/write-queue.ts:57-96 | Behind a full pipe nothing is sent: any payloads within 5 MiB are held in order, and the drain that finds the pipe open sends them all. |
| WriteQueue.OverflowLosesWhatIsHeld | src/app-server/client/write-queue.ts:83-96 | A payload past the limit is refused, takes everything held with it and calls `fail`. |
| WriteQueue.DrainStopsWherePipeDoes | src/app-server/client/write-queue.ts:66-79 | A drain stops behind the payload that fills the pipe, and one the pipe throws on is lost with all behind it. |
| WriteQueue.GoneStdinLosesWhatIsHeld | src/app-server/client/write-queue.ts:57-65 | A flush into a stdin that is gone loses what is held and calls `fail` only where something was. |
| WriteQueue.RunKeeps | src/app-server/client/write-queue.ts:40-121 | Over any run history only grows, and a payload is lost only where `fail` was called. |
| WriteQueue.QueueIsBoundedAndFirstInFirstOut | src/app-server/client/write-queue.ts:8-121 | Over any run: something is held only behind a full pipe, at most 5 MiB in UTF-16 units; what reached stdin and what is held are in acceptance order, and without a failure all that was accepted. |
| WriteQueue.StdinWriteQueue.Write | src/app-server/client/write-queue.ts:40-54 | Takes the model's step and throws exactly where the payload was not accepted. |
| WriteQueue.StdinWriteQueue.Hold | src/app-server/client/write-queue.ts:83-96 | Holds a payload within the limit, or drops everything held. |
| WriteQueue.StdinWriteQueue.DropQueued | src/app-server/client/write-queue.ts:111-121 | Everything held is lost, and counted as lost. |
| WriteQueue.StdinWriteQueue.WriteNext | src/app-server/client/write-queue.ts:67-78 | The oldest payload goes to stdin; a throw loses it and what stands behind it. |
| WriteQueue.StdinWriteQueue.Flush | src/app-server/client/write-queue.ts:57-80 | The loop drains as the model does and says whether it failed. |
| Connection.SendKeeps | src/app-server/client/index.ts:325-329 | A send that fails the connection leaves nothing open; one that does not changes no request. |
| Connection.RequestKeeps | src/app-server/client/index.ts:309-323 | A request takes the next id and stays open exactly if its write was accepted; a refused one is settled before the call returns, together with all others if its write failed the connection. |
| Connection.DrainKeeps | src/app-server/client/index.ts:133 | A drain that loses a write leaves nothing open. |
| Connection.StepKeeps | src/app-server/client/index.ts:83-97 | Ids are open with their timer or settled, what settled stays, a response settles its own request and no other, and no request outlives a failure of the connection. |
| Connection.RunKeeps | src/app-server/client/index.ts:83-97 | The same over whole runs. |
| Connection.EachRequestSettlesOnce | src/app-server/client/pending-requests.ts:30-81 | Each id issued is waiting with its timer or settled, and what a prefix of the run left settled stands at the end as it stood then. |
| Connection.SettlesExactlyOnCause | src/app-server/client/pending-requests.ts:30-81 | A request is settled by a step if and only if its response came, its timer fired, the connection failed or its write was refused, and then with that cause's own settlement. |
| Connection.TimerSettlesItsOwn | src/app-server/client/pending-requests.ts:33-36 | A timer that fires closes its own request as timed out and leaves every other as it was. |
| Connection.StepWrites | src/app-server/client/index.ts:309-329 | A request or an answer goes to the queue as one payload, a drain flushes it, and no other step touches it. |
| Connection.FailureIsRecorded | src/app-server/client/index.ts:92-149 | Later failures report the first one recorded, save that an error of stdin and a lost write are recorded over it. |
| Connection.DestroyedStays | src/app-server/client/index.ts:309-315 | A destroyed client stays destroyed and issues no id. |
| AppServerClient.PendingRequests.TakeSlot | src/app-server/client/pending-requests.ts:30-43 | Issues the next id, with its timer armed. |
| AppServerClient.PendingRequests.DropSlot | src/app-server/client/pending-requests.ts:45-54 | A throwing send drops its slot and rejects, unless a failure did both before. |
| AppServerClient.PendingRequests.SettleResponse | src/app-server/client/pending-requests.ts:59-70 | Settles the request of that id; a response to no open id is ignored. |
| AppServerClient.PendingRequests.FireTimer | src/app-server/client/pending-requests.ts:33-36 | A timeout rejects its own request. |
| AppServerClient.PendingRequests.FailAll | src/app-server/client/pending-requests.ts:73-81 | The loop rejects every open request, stops its timer, and leaves none. |
| AppServerClient.AppServerClient.RecordFailure | src/app-server/client/index.ts:332-335 | A lost write becomes the failure of the connection. |
| AppServerClient.AppServerClient.EndConnection | src/app-server/client/index.ts:137-149 | The end of the connection reports the first failure recorded. |
| AppServerClient.AppServerClient.OnParseFailure | src/app-server/client/index.ts:92-96 | An unreadable line rejects everything waiting with that line, and keeps the first failure on record. |
| AppServerClient.AppServerClient.Send | src/app-server/client/index.ts:325-329 | Writes through the queue and answers its `fail` hook before the throw. |
| AppServerClient.AppServerClient.Request | src/app-server/client/index.ts:309-323 | Takes the model's step with the two objects it is wired from. |
| AppServerClient.AppServerClient.OnResponse | src/app-server/client/index.ts:89 | A routed response settles its request. |
| AppServerClient.AppServerClient.OnTimer | src/app-server/client/pending-requests.ts:33-36 | A fired timer takes the model's step. |
| AppServerClient.AppServerClient.OnDrain | src/app-server/client/index.ts:133 | A drain flushes, and fails the connection where the flush lost something. |
| AppServerClient.AppServerClient.Destroy | src/app-server/client/index.ts:351-356 | Destroying rejects what is open, once. |
| Framing.CutAnywhere | src/app-server/child-stdio.ts:27-37 | A text cut in two frames as the text whole. |
| Framing.ChunksFrameAsTheWhole | src/app-server/child-stdio.ts:27-37 | However a stream is cut into chunks, the lines taken and the text held are those of the whole. |
| Framing.FramingUndoesWriting | src/app-server/child-stdio.ts:27-37 | Lines written one after the other, with a tail begun, read back as they were. |
| Framing.WritingUndoesFraming | src/app-server/child-stdio.ts:27-37 | The lines taken off a text and the tail held are all of it, and none holds a newline. |
| Framing.LineReader.Take | src/app-server/child-stdio.ts:27-37 | A chunk returns the trimmed non-blank lines it completed of the stream so far, in order. |
| Framing.LineReader.Reset | src/app-server/child-stdio.ts:40-43 | The next chunk starts a stream of its own. |
| Routing.RunsThroughExactly | src/app-server/client/message-router.ts:131-144 | The calls due for a chunk are all made if and only if no hook behind no `catch` throws at its turn, whatever the handlers do. |
| Routing.StopsAtFirstEscape | src/app-server/client/message-router.ts:53-112 | Otherwise they stop with the first call that escapes. |
| Routing.MessageRouter.Take | src/app-server/client/message-router.ts:53-71 | A chunk makes every call due for the lines it completed unless an unguarded hook throws, which is then its last call; until one does the calls made are those of the stream so far, however it was cut. |
| Routing.MessageRouter.RouteLines | src/app-server/client/message-router.ts:54-70 | The loop over the lines goes on past handlers that throw and ends with a hook that does. |
| Routing.MessageRouter.TakeLine | src/app-server/client/message-router.ts:54-80 | Noise is passed over, an unreadable line is reported through an unguarded hook, any other dispatched outside the parse guard. |
| Routing.MessageRouter.DispatchParsed | src/app-server/client/message-router.ts:82-92 | Every object of a batch is handled, in order, up to one whose call escapes. |
| Routing.MessageRouter.HandleMessage | src/app-server/client/message-router.ts:94-129 | A response is settled through an unguarded hook; a request or notification is run behind the `catch` and never stops the loop. |
| Routing.MessageRouter.RunHandler | src/app-server/client/message-router.ts:136-144 | A handler has run and comes back, whether or not it threw. |
| Dispatches.CutsAgreeExactly | src/app-server/client/message-router.ts:53-71 | However a text is cut into chunks the same calls are made, if and only if no call escapes from a line behind which another has a call due. |
| Dispatches.ChunksRouteAsTheWhole | src/app-server/client/message-router.ts:53-71 | Then the lines taken, the text held and the calls made are those of the text as one chunk. |
| Dispatches.OneMessage | src/app-server/client/message-router.ts:94-129 | A message has at most one call; responses settle, requests are handed over or refused, notifications are passed on, by shape alone. |
| Dispatches.DispatchesAreTheMessagesWritten | src/app-server/client/message-router.ts:53-129 | For any values, noise and unreadable lines written one per line and cut anywhere, while no unguarded hook throws and whatever handlers do: the calls settle exactly the responses, hand over or refuse the requests, pass on the notifications and report the unreadable lines, each once and in the order written, and none is for noise. |
| EventLogScan.ScanEventsJsonl | src/persistence/recovery-scanner.ts:112-128 | The loop over the split file computes the scan of its text, excusing only an unreadable last line. |
| EventLogScan.ScansWholeRecords | src/persistence/recovery-scanner.ts:112-128 | A log of whole records reads as those records. |
| EventLogScan.ReadIsHighestAndLast | src/persistence/recovery-scanner.ts:87-96 | What a log says is its highest number and the last activity line any record carries. |
| EventLogScan.CutLogReadsWholeRecords | src/persistence/recovery-scanner.ts:108-128 | Wherever a log is cut, no corrupt line is counted and exactly the records still whole are read. |
| EventLogLives.ScanReads | src/persistence/recovery-scanner.ts:91-128 | The scan of any log is what its readable records say in order, with its unreadable ended lines counted. |
| EventLogLives.NumbersRunOn | src/session/manager/store.ts:69-72 | A recovered log numbers on from its last readable record. |
| EventLogLives.LifeReads | src/persistence/event-log.ts:71-85 | After one more server run, cut at any character it wrote: behind a newline all its whole records are read; behind a torn tail the first is lost with the tail, and the line is one corrupt line more if and only if it was ended. |
| EventLogLives.NumbersIncreaseAcrossLives | src/session/manager/store.ts:69-72 | Over any number of runs, each cut at any character it wrote, the readable records are numbered in strictly increasing order, and the corrupt lines count the runs that ended a torn line. |
| EventLog.EventLog.Append | src/persistence/event-log.ts:46-63 | Numbers run on by one, a critical event leaves nothing buffered, a destroyed log answers -1, and the timer runs exactly while something is buffered. |
| EventLog.EventLog.SetNextSeq | src/persistence/event-log.ts:66-68 | The next event takes the number given. |
| EventLog.EventLog.FireTimer | src/persistence/event-log.ts:55-58 | The batch timer flushes everything buffered. |
| EventLog.EventLog.FlushSync | src/persistence/event-log.ts:71-85 | While every write succeeds the file is the appended records, each on its line and in order. |
| EventLog.EventLog.Destroy | src/persistence/event-log.ts:88-93 | Nothing stays buffered and no timer is left. |
| OrphanReaper.Machine.IdentifyProcess | src/persistence/process-identity.ts:293-314 | A match is within the slop; leading a group needs a match, and never holds on Windows. |
| OrphanReaper.Machine.Send | src/session/orphan-reaper.ts:47-92 | A signal goes out only behind a match, to the group only where the match said the process leads one, with the leader as fallback. |
| OrphanReaper.Machine.IdentifyOrphan | src/session/orphan-reaper.ts:110-136 | Before any signal: gone, unverifiable, or alive and ours. |
| OrphanReaper.Machine.ReconfirmBeforeSignal | src/session/orphan-reaper.ts:143-147 | The probe and the check are made again right before the signal. |
| OrphanReaper.Machine.AwaitGracefulExit | src/session/orphan-reaper.ts:150-155 | The window only probes, and ends. |
| OrphanReaper.Machine.ForceKillIfStillOurs | src/session/orphan-reaper.ts:165-196 | Kills only what still matches; a mismatch is reaped, an unreadable identity unconfirmed, and neither is signalled. |
| OrphanReaper.Machine.ConfirmExit | src/session/orphan-reaper.ts:199-207 | Only a dead pid at the end counts as reaped. |
| OrphanReaper.Machine.EndOrphan | src/session/orphan-reaper.ts:223-237 | A confirmed orphan is signalled and given the window; one seen alive by the probe after it is identified again and killed on a match; its exit is probed last unless that identification settled it. |
| OrphanReaper.Machine.ReapSession | src/session/orphan-reaper.ts:213-238 | For every sequence of answers: each signal stands behind a match and goes to the group, the process or the tree it should; a signal was sent if and only if two probes and two checks confirmed the orphan, and then the acts end as above; any other session is left at the first answer that does not confirm it; and the outcome is what the acts by themselves establish. |
| OrphanReaper.Machine.UnconfirmedIsKilledOrUnknown | src/session/orphan-reaper.ts:165-207 | Where the exit stays unconfirmed a kill was sent, or the process was not seen alive after the window, or it was no longer known to be the orphan. |
| OrphanReaper.DeclinedForCause | src/session/orphan-reaper.ts:110-147 | A session is left alone only on a probe that did not find it alive, a start time not recorded or not reported, or one five seconds or more off. |
| OrphanReaper.OnlyAReadTimeMismatches | src/persistence/process-identity.ts:293-314 | Only a start time that was read and is another's counts as a mismatch; without one nothing is known, and a group is led exactly on a match off Windows with the pid as group id. |
| OrphanReaper.SignalsReachOnlyTheRecordedProcess | src/session/orphan-reaper.ts:138-196 | Behind every signal stands a start time within the slop of the recorded one, and behind a group signal a group id equal to the pid. |
| OrphanReaper.Tally | src/session/orphan-reaper.ts:258-270 | In whatever order the sessions end, each is counted once under its outcome. |
| Retention.OwnClaimNamesThisRun | src/persistence/session-owner.ts:74-93 | A claim under this server's own pid holds only while it names this run's start, and an unclaimed directory is free. |
| Retention.SortedIsOldestFirst | src/persistence/retention.ts:192-193 | The sort puts the longest inactive first. |
| Retention.SortedIsPermutation | src/persistence/retention.ts:192-193 | The sort neither drops nor doubles a directory. |
| Retention.SortIsStable | src/persistence/retention.ts:193 | Directories last active at one instant keep their order. |
| Retention.FitsWithLess | src/persistence/retention.ts:98-135 | A remainder within the policy stays within it when more is taken. |
| Retention.AddExpiredDirs | src/persistence/retention.ts:99-110 | The expired directories are taken, and they are a prefix. |
| Retention.AddExcessDirs | src/persistence/retention.ts:113-120 | The oldest of the rest are taken until the count allows what is left. |
| Retention.AddOversizeDirs | src/persistence/retention.ts:123-135 | The fewest of the rest are taken whose removal brings the size within the limit. |
| Retention.SelectDirsToRemove | src/persistence/retention.ts:138-150 | What is taken is the shortest prefix whose remainder has nothing expired and is within count and size. |
| Retention.FreeHasNoLiveOwner | src/persistence/retention.ts:86 | Exactly the directories no running server holds are considered. |
| Retention.CollectSessionDirs | src/persistence/retention.ts:78-96 | The loop over the listing collects exactly those, in order. |
| Retention.PruneSessionDirs | src/persistence/retention.ts:178-196 | The shortest oldest prefix of those is removed, and no directory a server holds. |
| MetaCache.SkippedWritesLoseNothingCovered | src/session/manager/store.ts:154-164 | After any changes and writes, some lost, a persist that can write leaves the file agreeing with the session on every covered field; one that cannot never marks a stale file as written. |
| MetaCache.UncoveredFieldsGoStaleExactly | src/session/manager/session-decode.ts:32-59 | The file agrees on every field if and only if it was written now or its uncovered fields happened to agree. |
| MetaCache.ChangedPermissionsWaitForCoveredChange | src/session/manager/store.ts:154-164 | Changed permissions alone do not reach the file; with a changed status they do. |
| MetaCache.SessionStore.PersistSessionIfChanged | src/session/manager/store.ts:154-164 | The object takes the model's step and keeps its cached list that of the file. |
| PollWindow.GrantedIsTheLongest | src/tools/codex-check.ts:94-100 | The window granted is the longest a poll may hold: what it asked for, an hour, or five seconds short of the ceiling; and it gets one exactly if the ceiling leaves a second. |
| PollWindow.MeasuredOutranksDeclared | src/utils/poll-window.ts:56-95 | The ceiling is the measured timeout, else the declared one, else the client's default of a minute or none. |
| PollWindow.ShortestTimeoutIsMeasured | src/utils/poll-window.ts:115-121 | In whatever order calls are cut, what stands measured is the shortest time a client let one be held. |
| PollWindow.CutLowersCeiling | src/utils/poll-window.ts:93-121 | A timeout inside the window lowers a known ceiling by the margin at least. |
| PollWindow.CutsCostMargins | src/utils/poll-window.ts:93-121 | Any run of timeouts costs a margin each out of the measured ceiling. |
| PollWindow.WindowConverges | src/utils/poll-window.ts:93-121 | Whatever the environment declared, timeouts teach a fresh window at most 720 times. |
| PollWindow.BudgetNeverGrows | src/utils/poll-window.ts:102-121 | No call inside its window widens the next one. |
| PollWindow.CeilingRisesExactlyOnLateFirstCut | src/utils/poll-window.ts:93-121 | A cut raises the ceiling if and only if it is a first timeout longer than the declared or default one. |
| PollWindow.PollWindow.constructor | src/utils/poll-window.ts:87-90 | A window starts on what the environment says, with nothing measured. |
| PollWindow.PollWindow.RecordCut | src/utils/poll-window.ts:115-121 | Takes the model's step. |

## Left out

- VisibleTextKept: the condition is the match a whole-line pattern must not make, and is shown enough; it is not an equivalence, because a line taken too many may hold no ink, or the very ink the inline passes would take there. `LineBehindSeparatorIsLost` and `JoinedOpenerTakesALine` show two families of texts outside it that lose some.
- CuttingUndoesWriting: asks for lines without U+2028 and U+2029 and for text in front of the first marker inside a line; of a line that starts with a marker the blanks behind it go too, which `VisibleTextKept` covers as white space.
- PollReturnsAtFirstMove: ends each sleep with the step that wakes it, so the read that follows sees the session as that step left it; other handlers that run before the poll resumes are not modelled.
- NumbersIncreaseAcrossLives: a crash cuts what its own run appended; a disk that loses what an earlier run had flushed is not modelled.
- CutLogReadsWholeRecords: cuts between characters, so a tail torn inside a multi-byte character, which reads as a replacement character, is not modelled.
- SortedIsOldestFirst: takes every recorded date as readable; the order the comparison gives a date that is not a number is not modelled.
- WindowConverges: takes each call as held inside the window granted to it, one after the other; calls held at the same time under one ceiling are not modelled.
- AwaitGracefulExit: the five-second deadline is the number of passes that fit before it, given from outside.
- FlushSync: a failed write loses its whole chunk; a disk that takes part of one is not modelled.
- ResolveApproval: whether a decision is one the request accepts is an input, so the table of decisions and amendments is not modelled.
- SendPendingAnswer: a request object is a value in a map keyed by its id rather than an object of its own; the timeout closure's reference to it is the entry that stays in that map after the request is closed.
- The runtime's maps keyed by session are projected to one session; request ids and waiters are taken as new, and a JSON-RPC id stands for the id together with the connection it came on.
- Awaits: create, fork and the failed half of resume are left out; reply and resume are the steps that begin and end them, and a guard read before an await is an input of the step after it.
- A shutdown that marks live sessions `abandoned`, the time-to-live sweep and the choice of sessions to clean: they decide when a cancel or an eviction happens, and the steps allow either at any time.
- Activity listeners, event records, progress counters and structured output: they read the session and move nothing the proofs are about.
- The signal is a tuple where the code joins its parts with `|`; none of the parts holds that character.
- Promise rejections of a request refused before it takes an id (a destroyed client, stdin not writable) leave no trace in the model's state.
- The `fail` hook of the write queue is a result its caller acts on at once, not a call back into the client.
- JSON parsing and printing, UTF-8 decoding, regular-expression engines and dates are libraries: an abstract codec, characters, a matcher written out per pattern, and numbers stand for them. `Codec` says what is asked of the first by the event log, and `CodecIsMet` shows a printer and reader that meet it.
- Spawning processes, reading `ps`, `/proc` and WMI, sending signals and removing files are foreign calls; their answers are inputs.
- Cross-server exclusion on resume: the ownership read and the claim are separated by awaits, so the code does not promise it.
- MCP registration, schemas, resources, prose, path redaction and shell-noise filtering, version comparison and duration formatting: plumbing or heuristics with no strong specification.
