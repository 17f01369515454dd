# Tendwire: verified models of its stateful cores

Tendwire lets clients send instructions to agent workers and answer their questions, at most once each,
over a local daemon, and keeps its state in private files. This project models the parts of it that are
hardest to get right and proves what they promise.

* **The command protocol.** `Envelopes`, `CommandStore` and `Submission` give the receipt rows, the store's
  transactions and the submission path as a step system: any number of submitters, with crashes, pauses,
  store calls that raise before or after their commit, lease expiry, takeover, maintenance and changing
  questions. `SubmissionInvariant`, `SubmissionSteps` and `SubmissionSafety` prove an invariant of every
  run. The conclusions: `SubmissionTheorems`, `SendTenure` and `LateRetries` about sends, `Retries`, `Acceptance`
  and `ReceiptReplay` about what a retry gets, `OwnAnswers` about whose receipt it is told of, `PendingAnswers`, `AnswerTheorems`, `InputWindow` and `Reopening`
  about answers, with runs that reach what they speak of in `AnswerWitnesses`. `InstructionPreparation` sorts
  the failures before a reservation. `CommandSubmission` is the code itself, call after call, proved to be a
  run of that system.
* **Private file state.** `FileSystem` is one directory with reusable inode numbers and open descriptors,
  where other processes may do anything before every system call. `SqliteFamily`, `SqlitePreparation` and
  `SqliteMainCreation` are the capture, settling, checking and narrowing of a SQLite family.
  `PublishedEntries` keeps every state a run passes through; `Publication` and `SqliteReplacement` publish
  files in it. `ConfigRepair` is the repair of all configured entries, with calls that fail, but nobody else
  acting.
* **The request server.** `RequestServer` is admission, the worker queue and shutdown under every
  interleaving; `FrameReader` reads a frame from however many chunks.
* **Two algorithms.** `DecisionKeys` compiles a decision to keystrokes for a picker; `IntervalSweep` is the
  sweep-line overlap count. `Options` and `Sorting` are shared by the modules.

A submitter is a program counter over one store transaction or backend call at a time. A store transaction
is atomic (`BEGIN IMMEDIATE ... COMMIT`), and random tokens never repeat. The code reads its clock before it
begins a transaction; that these times never run backwards from one transaction to the next is an assumption,
on which what is said of leases, horizon and retention rests.
What the environment decides at a step (a fault, an answer of the backend, what a snapshot proves) is a
parameter, and every theorem is for all of them. A row's number counts insertions, so that a row which was
deleted and inserted again is another row. Lemmas carry `{:induction false}`: every proof is the one written.

## What the proofs found

* `written_to_pty` sends can never be accepted: the sweep that links a submission to its turn leaves out
  `send_started` rows that were submitted, so the accepting transition in the store is never taken
  (`SubmissionTheorems.QueuedSendNeverAccepted`).
* Pane input can begin while its receipt is already `uncertain`
  (`AnswerWitnesses.InputCanStartUnderAnUncertainReceipt`). An answer about to be typed is bound to be typed under
  its own `send_started` receipt, whatever others do first, if and only if its owner's lease has not run out and
  the retry horizon has not passed (`InputWindow.BoundToBeStartedExactlyInWindow`,
  `InputWindow.CrossesAfterGivenUp`).
* One revision of a question can be answered twice: after its prompt was seen closed
  (`AnswerWitnesses.FlickeringPromptIsAnsweredTwice`), and also after an accepted answer, if the prompt is still
  shown at the next look (`AnswerWitnesses.StillShownPromptIsAnsweredTwice`). Between two inputs the question was
  closed, by a sighting or an accepted answer, and then this revision was seen again
  (`Reopening.ReopenedBetweenInputs`); after that it always can be answered again
  (`Reopening.ReopenedQuestionIsAnswered`).
* A retry that arrives within the retry horizon can still send an accepted instruction again. For every accepted
  policy, a retry that arrives so long after a send start and pauses so long can start another if and only if both
  together exceed the retention age (`LateRetries.SecondStartExactlyPastRetention`); so the horizon is safe
  exactly for pauses of at most what retention exceeds it by (`LateRetries.HorizonIsSafeForShortPauses`).
* `submit_command` has one store call whose failure nothing catches, after the send start is committed: the
  caller gets an exception instead of an envelope for a send that never began
  (`CommandSubmission.Service.Submit`, `CommandSubmission.RaisingCall`).
* `replay_command_receipt` calls itself read-only, but for a version 3 caller it settles the submission's
  ledger row (`ReceiptReplay.ReplayWritesAtMostTheLedger` has the exact condition).
* The decision compiler is right exactly when each ordinal is one digit and is named an odd number of times:
  `10` presses `1`, and `"1"` with `"01"` toggles one row twice (`DecisionKeys.SingleChoice`,
  `DecisionKeys.MultiChoice`).
* `repair_config_state` validates everything before it changes anything, but not that a SQLite member can be
  opened: a loose member without its owner's read bit, or two entries for one file, make it fail half way
  (`ConfigRepair.HalfRepaired`; `ConfigRepair.AllOrNothing` has the exact condition).
* Repairing a SQLite family fails if two of its names are links to one loose file: the second name then shows another
  mode than was recorded of it (`SqlitePreparation.LinkedLogIsNotRepaired`). In a directory that only the caller uses,
  and where no call fails, that and an entry which is no regular file of ours are the only reasons
  (`SqlitePreparation.RepairFamily`).
* The branch of `prepare_sqlite_family_at` that would lose a descriptor, a main whose identity differs after
  it was created and settled, cannot be reached (`SqliteMainCreation.MakeMain`).

## Model

| member | source | states |
|---|---|---|
| SubmissionSafety.RunOk | src/tendwire/command_submission.py:2611-2825 | The invariant of the store, its history and every submitter holds after every run. |
| SubmissionSafety.StepSystemOk | src/tendwire/command_submission.py:1138-1440 | Every act of anybody, from any state that satisfies the invariant, keeps it. |
| SubmissionSafety.AdvanceOk | src/tendwire/command_submission.py:1662-1800 | One step of one submitter keeps the store invariant and what it relies on itself, and changes only what others may rely on it to change. |
| SubmissionInvariant.ProcStable | src/tendwire/command_submission.py:1138-1195 | What a submitter relies on survives whatever a party under another token does. |
| SubmissionTheorems.AtMostOneSend | src/tendwire/command_submission.py:1373-1440 | In every run, no receipt row has two send starts or two backend calls, and each call follows its row's one start under the same token. |
| SubmissionTheorems.OneSendPerRow | src/tendwire/command_submission.py:1662-1800 | The same for every state that satisfies the invariant. |
| SubmissionTheorems.SecondSendOutlivesRetention | src/tendwire/config.py:284-296 | Two send starts under one request ID lie further apart than the retention age, which is above the retry horizon. |
| LateRetries.OnlyALatePauseSendsAgain | src/tendwire/config.py:284-296 | Whoever starts another send for a request has arrived after its earlier send start, and paused, for longer than the retention age together. |
| LateRetries.PausedRetrySendsAgain | src/tendwire/store/sqlite.py:26176-26470 | For every accepted policy, every arrival within the horizon and every pause that together exceed the retention age, there is a run in which that retry sends an accepted instruction again. |
| LateRetries.SecondStartExactlyPastRetention | src/tendwire/config.py:284-296 | A retry within the horizon can start a second send if and only if its arrival and its pause together exceed the retention age. |
| LateRetries.HorizonIsSafeForShortPauses | src/tendwire/config.py:284-296 | Some retry within the horizon can start a second send after a given pause if and only if the pause exceeds what retention exceeds the horizon by. |
| SubmissionTheorems.EvidenceOutlivesHorizon | src/tendwire/store/sqlite.py:26176-26470 | Until the retention age has passed, the row of a send start is still there and past `reserved`, whatever maintenance ran. |
| SubmissionTheorems.SupersededOwnerIsInert | src/tendwire/command_submission.py:1245-1292 | An owner whose token was superseded moves no row, starts no send and, unless its own start had committed, makes no backend call. |
| SubmissionTheorems.SupersededForever | src/tendwire/store/sqlite.py:25003-25160 | A superseded token stays superseded in every continuation. |
| SubmissionTheorems.OtherRowsKept | src/tendwire/store/sqlite.py:26057-26173 | An owner's step leaves every other request's row as it is. |
| SubmissionTheorems.FinalAnswersAgree | src/tendwire/command_submission.py:1002-1060 | Any two final answers read from one row, by any callers in any run, have the same disposition. |
| SubmissionTheorems.FinalAnswersAreTrue | src/tendwire/command_submission.py:882-991 | A caller told accepted was told of a row with exactly one backend call, a confirmed one; rejected, of one without a send start or with one definitely undelivered call. |
| OwnAnswers.AnswersAreOwn | src/tendwire/command_submission.py:2342-2453 | In every run, a caller whose answer speaks of a row, and is not a duplicate, asked for the very mutation of that row: the same request ID, action and body, and the same worker if it named one. |
| OwnAnswers.OneMutationPerRow | src/tendwire/store/sqlite.py:25003-25160 | What a row was inserted for never changes. |
| OwnAnswers.OtherMutationIsRefused | src/tendwire/command_submission.py:2414-2453 | A request that names another action, body or worker than the row under its ID is told duplicate request, and nothing is changed or sent; only one that names no worker, and whose worker cannot be proven now, is told that its target cannot be proven. |
| OwnAnswers.OtherMutationIsNotReserved | src/tendwire/command_submission.py:1138-1195 | The same of one that meets the other row only when it is about to reserve; if the store fails as well and cannot be read, it is told unavailable without a receipt. |
| OwnAnswers.ReaderAnswersOwn | src/tendwire/command_submission.py:2562-2608 | The replay path tells a request of the row under its ID if it asked for that row's mutation, tells it duplicate request if it asked for another, and only otherwise says nothing. |
| SubmissionTheorems.FinalRowStays | src/tendwire/store/sqlite.py:26176-26470 | No act of anybody changes a final row, except that maintenance deletes it once its retention age has passed. |
| SubmissionTheorems.FinalRowStaysUntilRetention | src/tendwire/store/sqlite.py:26176-26470 | So it stays as it is in every continuation until then. |
| SubmissionTheorems.VerdictDecides | src/tendwire/command_submission.py:1662-1800 | What the backend answers decides the write: submitted, accepted; one of the five verdicts that rule delivery out, rejected; queued, to be looked at again; anything else, uncertain. |
| SubmissionTheorems.NewestRowsAreKept | src/tendwire/store/sqlite.py:26176-26470 | No act of anybody deletes a row that is outranked by fewer than the number of rows to keep. |
| SubmissionTheorems.TruthfulHistory | src/tendwire/command_submission.py:1662-1800 | An accepted row has exactly one backend call, a submitted one; a rejected row has no send start, or one call with one of the five verdicts that rule delivery out. |
| SubmissionTheorems.VanishedEvidenceOnlyWeakens | src/tendwire/command_submission.py:1315-1370 | A replay whose row is gone re-inserts a rejection as itself and anything else as uncertain, and touches no existing row. |
| SubmissionTheorems.RecoveryKeepsQueuedVerdict | src/tendwire/store/sqlite.py:25959-26054 | Crash recovery leaves a row whose owner has recorded a queued verdict. |
| SubmissionTheorems.QueuedSendNeverAccepted | src/tendwire/store/sqlite.py:18749-19060 | A send the backend queued never ends accepted or rejected, only uncertain. |
| SubmissionTheorems.EveryRowDecodes | src/tendwire/command_submission.py:1002-1060 | Every row of every reachable state decodes to its own state, status and disposition, never to a malformed or inconsistent fallback; unless uncertain, to exactly what was stored. |
| Envelopes.WrittenRowsDecode | src/tendwire/command_submission.py:972-993 | The same for every well-formed row, queued and recovered ones included. |
| SubmissionSteps.ReserveOk | src/tendwire/store/sqlite.py:25003-25160 | A reservation keeps the store invariant and gives no token but its own to any row. |
| SubmissionSteps.MarkOk | src/tendwire/store/sqlite.py:25556-25669 | So does a committed send start, which is this row's first. |
| SubmissionSteps.FinishOk | src/tendwire/store/sqlite.py:26057-26173 | So does a terminal write whose evidence is true. |
| SubmissionSteps.RecoverOk | src/tendwire/store/sqlite.py:25959-26054 | So does the recovery of an unresolved send. |
| SubmissionSteps.ReplayOk | src/tendwire/store/sqlite.py:25207-25338 | So does the re-insertion of terminal evidence. |
| SubmissionSteps.MaintainOk | src/tendwire/store/sqlite.py:26176-26470 | So does maintenance: old sends become uncertain, and only rows past retention are deleted. |
| SubmissionSteps.SettleOk | src/tendwire/store/sqlite.py:18749-19060 | So does settling submission links, which never links a queued send. |
| SendTenure.CallsUnderOwnStart | src/tendwire/command_submission.py:1662-1800 | Whoever is about to reach the backend has its start on record, and its row is still `send_started` under its token while lease and horizon last; until retention, at worst uncertain. |
| SendTenure.TenureRunOk | src/tendwire/command_submission.py:1373-1440 | In every run, a started send's row is its owner's, given up as uncertain after lease or horizon, or past retention. |
| PendingAnswers.AnswersRunOk | src/tendwire/command_submission.py:1874-1994 | The joint invariant of receipts, claims and pane inputs holds after every run. |
| AnswerTheorems.AtMostOneInputPerQuestion | src/tendwire/store/sqlite.py:20783-21020 | In every run, pane input begins at most once per claim and per opening of a question, whoever answers. |
| AnswerTheorems.EpisodesEndOnlyByClosing | src/tendwire/store/sqlite.py:19416-19880 | An opening ends only when its question is answered, replaced, seen closed or its worker goes. |
| AnswerTheorems.InputNeedsBothRows | src/tendwire/command_submission.py:1918-1956 | Input begins only with the claim started for that very route, by a worker that still has the claimed fingerprint and to a question that still lists the claimed body with the claimed selection, and with the receipt's own start on record, `send_started` while lease and horizon last. |
| AnswerTheorems.InputBeginsExactlyOnSameRoute | src/tendwire/store/sqlite.py:20906-21020 | In every run, a claimed answer about to cross records its input and goes on to type it if and only if the claim still stands and worker fingerprint, revision, binding, pane, body and selection are still the claimed ones; otherwise no input is recorded and nothing is typed. |
| InputWindow.BoundToBeStartedExactlyInWindow | src/tendwire/command_submission.py:1918-1956 | A claimed answer with a started receipt is bound to reach the pane under it, whatever others do at that moment, if and only if its owner's lease and the retry horizon have not passed. |
| InputWindow.CrossesAfterGivenUp | src/tendwire/command_submission.py:1918-1956 | Past that window, an answer about to cross still crosses after others have made its receipt uncertain. |
| AnswerTheorems.AnswerAcceptanceIsAtomic | src/tendwire/store/sqlite.py:21050-21160 | The step in which an answer's receipt becomes accepted is the step that closes its question and drops its claim. |
| Reopening.ReopenedBetweenInputs | src/tendwire/store/sqlite.py:19416-19880 | Between any two inputs for one revision of a question an act closed the question, and after that this revision was seen again. |
| Reopening.ReopenedQuestionIsAnswered | src/tendwire/store/sqlite.py:20625-20780 | In every run in which a question is closed and then seen, an answer to it, new or resumed, is typed if the environment lets it through, whatever was typed before. |
| Reopening.AnswerableUnlessCrossed | src/tendwire/store/sqlite.py:20783-21020 | An open question can be answered, at the latest when a standing claim's lease has run out, if and only if no input has begun in its current opening. |
| AnswerWitnesses.FlickeringPromptIsAnsweredTwice | src/tendwire/store/sqlite.py:19416-19880 | A run in which one revision receives two inputs, the prompt having been seen closed in between. |
| AnswerWitnesses.StillShownPromptIsAnsweredTwice | src/tendwire/store/sqlite.py:21050-21160 | A run in which one revision receives two inputs although it was never seen closed: the first answer was accepted, and the prompt is seen once more. |
| AnswerWitnesses.InputCanStartUnderAnUncertainReceipt | src/tendwire/command_submission.py:1918-1956 | A run in which input begins under a receipt that recovery has made uncertain. |
| InstructionPreparation.FoundIsTheOnlyOne | src/tendwire/command_submission.py:237-286 | A binding is found if and only if it is the only one of this worker under this fingerprint and can be sent to. |
| InstructionPreparation.TransientMeansNothingIsKnown | src/tendwire/command_submission.py:662-835 | A failure is retryable if and only if the worker is one that may be sent to and either the bindings could not be read, or exactly one binding is its own and the socket or the pane gave no answer; the request is ready if and only if everything was proven; every other failure is a durable rejection. |
| InstructionPreparation.ClassesDecideTheStep | src/tendwire/command_submission.py:2659-2725 | A retryable failure leaves the store as it is and the request open; a permanent one goes on to be written as that rejection. |
| Retries.PreSendStepsCostNothing | src/tendwire/command_submission.py:2634-2725 | Any number of attempts that fail before their first write, however long they take, leave store and history as they were. |
| Retries.TransientFailureStaysOpen | src/tendwire/command_submission.py:2692-2699 | A transient failure is answered as backend unavailable without a receipt, or as the reservation still in progress. |
| Acceptance.RetryAfterFailuresIsAccepted | src/tendwire/command_submission.py:2659-2809 | After any such failures the same request ID, new or an abandoned reservation, instruction or answer of either kind, is accepted once the environment lets it through, with exactly one new backend call, no other row changed, and an answered question closed. |
| Acceptance.SomeContinuationAccepts | src/tendwire/command_submission.py:2611-2825 | So from every state with such failures behind it some continuation accepts the request. |
| Acceptance.AnswerIsAccepted | src/tendwire/command_submission.py:1874-1994 | An answer to an open question, of either kind, new or resumed, in good weather, is typed once, accepted, and closes its question. |
| Retries.PermanentFailureReplays | src/tendwire/command_submission.py:1295-1313 | A permanent failure after reservation is written as that rejection of the row, told to the caller, without any send. |
| Retries.RejectionReplaysForever | src/tendwire/command_submission.py:2414-2453 | In every continuation until retention, a retry that can prove its target gets the identical rejection, and changes and sends nothing. |
| Retries.FinishedRequestReplaysForever | src/tendwire/command_submission.py:2414-2453 | The same for every final row: one and the same envelope until retention, whatever everybody does. |
| Retries.FinishedRequestReplays | src/tendwire/command_submission.py:2414-2453 | A retry of a finished request is answered from its row and changes nothing. |
| ReceiptReplay.ReplayRefinesSubmission | src/tendwire/command_submission.py:2562-2608 | Whenever the replay path answers for a final row, a full submission on the same store answers the same, changes nothing and sends nothing. |
| ReceiptReplay.ReaderDoesNotRecover | src/tendwire/command_submission.py:2562-2608 | For an expired send the two differ: in progress to the reader, recovered as uncertain by a submission. |
| ReceiptReplay.ReplayWritesAtMostTheLedger | src/tendwire/command_submission.py:2828-2884 | Replay changes nothing but this request's ledger row, and nothing at all if and only if the stated condition holds. |
| ReceiptReplay.NegotiatedReplayRefinesSubmission | src/tendwire/command_submission.py:2828-2903 | With response negotiation the two paths still agree, in response and store. |
| CommandSubmission.Service.Submit | src/tendwire/command_submission.py:2611-2825 | One call of the code, interleaved with anybody, is a run of the step system that ends with its answer or with an exception; from scratch, the store invariant holds, a final answer is the state committed for its row, and after an exception the send start is on record without a backend call. Without a failing call there is an answer; a new instruction that goes smoothly up to its send start raises if and only if the look after it fails. |
| CommandSubmission.RaisingCall | src/tendwire/command_submission.py:1412-1422 | A call that raises. |
| CommandSubmission.Service.DecideByReceipt | src/tendwire/command_submission.py:2414-2559 | The branches over an existing receipt take the system from deciding to done, or to preparing a takeover. |
| CommandSubmission.Service.ReserveCanonical | src/tendwire/command_submission.py:1138-1195 | A lease is returned exactly with the planned next step; otherwise the answer is the system's. |
| CommandSubmission.Service.MarkSendStarted | src/tendwire/command_submission.py:1373-1440 | The send may begin only from the committed start; otherwise the answer is the system's. |
| CommandSubmission.Service.SubmitInstruction | src/tendwire/command_submission.py:1662-1800 | Mark, prompt, and the write of the outcome, as steps of the system; or an exception between mark and prompt. |
| CommandSubmission.Service.AnswerQuestion | src/tendwire/command_submission.py:1874-1994 | Claim, mark, cross, type, and the write of the outcome, as steps of the system. |
| CommandSubmission.Service.SettleQueued | src/tendwire/command_submission.py:2475-2523 | A queued row is settled, looked at and finished, as steps of the system. |
| RequestServer.EveryInterleavingOk | src/tendwire/daemon_api.py:1018-1101 | The server's invariant holds after every interleaving of accept, workers, callbacks and close. |
| RequestServer.MoveOk | src/tendwire/daemon_api.py:1389-1425 | Every move keeps it. |
| RequestServer.SubmitNeverFull | src/tendwire/daemon_api.py:1053-1063 | While accepting, a connection with a permit finds room in the queue, so `submit` cannot raise `Full`. |
| RequestServer.QueueWithinPermits | src/tendwire/daemon_api.py:1389-1409 | While accepting, the queue is no longer than the number of permits held. |
| RequestServer.DismissNeverFull | src/tendwire/daemon_api.py:1065-1083 | Every sentinel of a shutdown finds room. |
| RequestServer.ReleaseIsHeld | src/tendwire/daemon_api.py:1411-1425 | Every release gives back a permit that is out. |
| RequestServer.NobodyIsStuck | src/tendwire/daemon_api.py:1085-1101 | The accepting thread and every worker with an item can take their next step. |
| RequestServer.ClosedServerIsClean | src/tendwire/daemon_api.py:1517-1556 | After shutdown, when all workers are gone, each permit was released exactly once, each future resolved exactly once, and the queue is empty. |
| RequestServer.EveryWorkerGetsOneSentinel | src/tendwire/daemon_api.py:1065-1083 | After shutdown the queue holds one sentinel for each worker that has not received one, and nothing else. |
| RequestServer.Server.Serve | src/tendwire/daemon_api.py:1104-1190 | The server's methods, called in any order that is possible, follow the moves and never break a precondition of the queue or the semaphore. |
| FrameReader.ReadFrame | src/tendwire/daemon_api.py:855-883 | However the stream is cut, each outcome has its exact condition over the bytes delivered in time: a frame if they hold a newline within the limit, and then it is what precedes the first, or if the stream ended in time, and then it is all of them; too large if more than the limit came without one; the deadline or a failed receive if that came first. |
| FrameReader.ReadTwice | src/tendwire/daemon_api.py:855-883 | Two splits of one stream are read alike, as its frame. |
| DecisionKeys.Calibrate | src/tendwire/backends/herdr_decision.py:68-124 | The compiler refuses exactly the invalid selections, and otherwise emits the steps that the other rows are about. |
| DecisionKeys.ChoiceIsSpelled | src/tendwire/backends/herdr_decision.py:93-107 | A canonical single or plan choice presses its own characters, one digit each, in their order. |
| DecisionKeys.ChoicesAreSpelled | src/tendwire/backends/herdr_decision.py:61-124 | Several canonical choices press, one ref after the other, smaller numbers first, each one's own characters, and then submit. |
| DecisionKeys.OneCharacterChoice | src/tendwire/backends/herdr_decision.py:93-124 | Distinct refs of one character, each a digit from 1 up to the number of options, submit, once, exactly the rows that these characters denote. |
| DecisionKeys.WriteInIsSubmitted | src/tendwire/backends/herdr_decision.py:83-91 | On the picker a write-in is submitted as written, once, with no leftover key, for every number of options. |
| DecisionKeys.SingleChoice | src/tendwire/backends/herdr_decision.py:102-107 | A single or plan choice is submitted so if and only if its ordinal is one digit. |
| DecisionKeys.MultiSubmitsOddRows | src/tendwire/backends/herdr_decision.py:109-124 | A multi-select submits, once, the rows whose digit is pressed an odd number of times. |
| DecisionKeys.MultiChoice | src/tendwire/backends/herdr_decision.py:109-124 | It submits exactly the named rows if and only if each ordinal is one digit and named an odd number of times. |
| DecisionKeys.OneDigitChoice | src/tendwire/backends/herdr_decision.py:109-124 | With one-digit ordinals it submits, once, exactly the rows named an odd number of times. |
| DecisionKeys.CanonicalChoiceIsSubmitted | src/tendwire/backends/herdr_decision.py:6-22 | For canonical refs and at most nine options, in any order, exactly the chosen set is submitted once with no leftover key. |
| DecisionKeys.NumeralIsInjective | src/tendwire/backends/herdr_decision.py:93-101 | Canonical refs of one ordinal are one text. |
| DecisionKeys.TwoSpellingsCancel | src/tendwire/backends/herdr_decision.py:93-101 | The accepted refs "1" and "01" submit the empty set, once, and so not row 1. |
| IntervalSweep.SweepIsMaximumOverlap | scripts/turn_ingestion_benchmark.py:163-174 | The high-water mark of the sorted sweep is the largest number of half-open intervals over any point, and is attained. |
| IntervalSweep.IntervalMaximum | scripts/turn_ingestion_benchmark.py:163-174 | The loop returns that number, zero-length and touching intervals included. |
| IntervalSweep.FilterKeepsUsable | scripts/turn_ingestion_benchmark.py:127-154 | The record filter returns the usable markers, all of them and only them, each as often as it occurs. |
| IntervalSweep.MeasuredOverlap | scripts/turn_ingestion_benchmark.py:127-174 | Whatever the marker files hold, the measurement is the largest overlap of the usable ones. |
| SqliteFamily.Capture | src/tendwire/local_state.py:1931-1956 | A captured member holds an open descriptor on the object that its name was opened on after it had been looked up with that inode, with the mode the descriptor showed, or none; one reported missing was looked up and not found. In an undisturbed directory it has no error if and only if the name is free or leads to a regular file of ours, and says which. |
| SqliteFamily.Terminalize | src/tendwire/local_state.py:2031-2114 | Settling a member hands its descriptor over or closes it; a present terminal is the captured object, an absent one was looked up and not found and is never a main that had been found. Undisturbed, it says what the directory says, the mode included. |
| SqliteFamily.Refresh | src/tendwire/local_state.py:2192-2229 | A refreshed member is still pinned on its object; only an optional one whose name is not found retires. Undisturbed, it succeeds and shows the mode that the object has. |
| SqliteFamily.Narrow | src/tendwire/local_state.py:2352-2432 | Whatever others do, every mode change is of the object pinned by the terminal's descriptor, to the recorded mode cut to the private one. Undisturbed, it succeeds, that object has this mode, and nothing else has changed. |
| SqliteFamily.Preflight | src/tendwire/local_state.py:2147-2159 | A check changes no mode, keeps every member or retires it as absent, and after it no member is invalid and a required main is not absent. Undisturbed, it fails only for an invalid member or an absent required main. |
| SqliteFamily.RepairTerminals | src/tendwire/local_state.py:2435-2475 | Only pinned objects are narrowed, every member is kept or retired, and on success each is gone or has the private part of its recorded mode, reported as repaired exactly if the recorded one had more. Undisturbed, it succeeds if and only if no two members are links to one loose file, and then exactly their modes are cut. |
| SqliteFamily.RepairWithAuthority | src/tendwire/local_state.py:2478-2498 | The same with the lock taken only if something must change and everything checked again under it. |
| SqlitePreparation.StageFamily | src/tendwire/local_state.py:1966-1987 | Staging captures the four names of the family, each as it was seen since the call began, and leaves no descriptor open that no stage owns, on success or failure. Undisturbed, it succeeds and says what the directory says. |
| SqlitePreparation.TerminalizeFamily | src/tendwire/local_state.py:2117-2135 | After settling the terminals own all descriptors; after a raise the stages own what is left. |
| SqlitePreparation.RepairFamily | src/tendwire/local_state.py:2591-2612 | On every exit all descriptors it opened are closed. What it captured is what it looked up, opened and was shown under the four names. Only objects so opened had their mode changed, to the mode they had shown cut to the private one. Each member is accounted for by what was seen: present as the captured object with the mode it showed, or looked up and not there. After success each is private or gone, reported as repaired exactly if it was narrowed, and a main that was captured is that very object. In an undisturbed directory it succeeds if and only if each name is free or leads to a regular file of ours and no two lead to one loose file; then every file that a name leads to has exactly its old mode without group, other and execute bits, and nothing else has changed; and if a name leads to something else, nothing has changed. |
| SqlitePreparation.LinkedLogIsNotRepaired | src/tendwire/local_state.py:2435-2475 | A database with mode 0644 that is also linked under its log's name is in order and yet cannot be repaired. |
| SqlitePreparation.InspectFamily | src/tendwire/local_state.py:2530-2570 | On every exit all descriptors are closed and no mode was changed. On success the report gives for each of the four names the mode its opened object showed, and whether that is private, or that it was looked up and not there. Undisturbed, it refuses exactly an entry that is no regular file of ours, and else reports each name as the directory has it. |
| SqlitePreparation.CreatePrivate | src/tendwire/local_state.py:1025-1082 | The returned descriptor pins an object that this call created under the name and that did not exist before; on failure it is closed; no other mode is changed. Undisturbed, and if the name was free, a new empty file of ours with exactly the private mode is there. |
| SqliteMainCreation.MakeMain | src/tendwire/local_state.py:2711-2774 | A created or appeared main is settled as it was seen, with exactly one descriptor open; a created one passes the identity check after settling. |
| SqliteMainCreation.PrepareFamily | src/tendwire/local_state.py:2650-2818 | On every exit all descriptors are closed. What it captured is what it saw under the four names. The modes changed are of objects opened under them, narrowed, and of the main that it created itself under its name and that did not exist before. Success means every member, as it was seen, private or gone and the main present, the expected one if one was. In an undisturbed directory it succeeds if and only if a repair would and the main is the expected one, if one is expected; then the directory is as after a repair, and a main that was missing is there, new, empty, ours and with exactly the private mode; if an entry is no regular file of ours or the main is not the expected one, nothing has changed. |
| PublishedEntries.OneMore | src/tendwire/local_state.py:1239-1315 | Being on track survives a step that keeps what stands: entries kept, never a partial file under another name, the destination old or new. |
| PublishedEntries.TheirStepsOnTrack | src/tendwire/local_state.py:1239-1315 | Nothing other processes do, unless they use the names or write to the file, takes a publication off track. |
| PublishedEntries.Adopted | src/tendwire/local_state.py:1689-1713 | A file that a name nobody else uses leads to is on track as it is. |
| Publication.WriteAll | src/tendwire/local_state.py:1195-1209 | For every sequence of short and interrupted writes, a return means the file holds every byte in order. |
| Publication.Publish | src/tendwire/local_state.py:1239-1315 | After every step of anybody: no existing entry was displaced by us; no name but the temporary one leads to our file, the one this call created, before it is complete and synced; the destination is the old entry or the complete file. Success means it was absent and is now ours; if no file was made, the call has only looked. |
| Publication.Replace | src/tendwire/local_state.py:1335-1439 | The same, but the destination may be replaced; the new file carried, before it was published, the mode of the entry first found cut to the private one, or the private mode if there was none. |
| SqliteReplacement.Replace | src/tendwire/local_state.py:1675-1732 | It refuses any other phase. Otherwise it takes on the very file that it verified under the replacement's name, and at every step of a calm run the database's name leads to the old file or to that one, synced and with the content it was verified with. Success means database and replacement were verified, the replacement again after the flush, and the database's name found to lead to it after the rename. |
| ConfigRepair.AllOrNothing | src/tendwire/local_state.py:3712-3860 | A repair of acceptable entries finishes or changes nothing if and only if they are repairable: no loose file twice and no loose unreadable member, or one as the very first change. |
| ConfigRepair.DistinctAndReadable | src/tendwire/local_state.py:3712-3860 | Distinct files and readable members are enough. |
| ConfigRepair.HalfRepaired | src/tendwire/local_state.py:2352-2432 | Distinct files alone are not: a database and an unreadable log. |
| ConfigRepair.NodeAfter | src/tendwire/local_state.py:3651-3679 | After any number of changes every entry is cut to its maximum, if its file was reached, and otherwise as it was. |
| ConfigRepair.RepairedWorld | src/tendwire/local_state.py:3682-3709 | After a complete repair each entry keeps exactly the bits that its maximum allows, and nothing was created. |
| ConfigRepair.OthersUntouched | src/tendwire/local_state.py:3712-3860 | Files that no entry leads to are never touched. |
| ConfigRepair.RepairIsIdempotent | src/tendwire/local_state.py:3712-3860 | Repairing again changes nothing. |
| ConfigRepair.LocalFiles.Repair | src/tendwire/local_state.py:3712-3860 | An unacceptable entry or a refused lock fails with nothing changed; whatever call fails, the changes made are the first of those due; if none fails by chance, those before the first that must fail; and a success reports what became of each entry. |

## Left out

- Legacy receipts: rows and stored results of older schema versions, and collision rows, are not modelled.
- Envelope bodies: results are the verdict and the turn; error texts are tags; JSON, hashing, fingerprints and sanitising are opaque.
- Target resolution and answer validation: what a snapshot or a pending question proves is a choice of the environment; only the classification of an instruction's preparation is modelled.
- The version 3 projection of an observed turn, beyond whether there is one.
- Maintenance batches: a pass is a sequence of per-row steps, each with the transaction's checks.
- Store exceptions are raises before or after a commit; connection handling and migrations are not modelled.
- Observations that the store drops, because they are older than the stored one or come from another binding that is not authoritative: a sighting of the model is one that is taken in, and any may be.
- SubmissionTheorems.SecondSendOutlivesRetention: bounds send starts; `LateRetries` bounds retries, and a backend call may follow its start after any pause, which `SendTenure.CallsUnderOwnStart` qualifies.
- AnswerTheorems.AtMostOneInputPerQuestion: is per opening of a question, not per revision, because the code allows two inputs for one revision; `Reopening` says when.
- AnswerTheorems.InputNeedsBothRows: the receipt is `send_started` only while lease and horizon last, because the code does not check it again before the input; `InputWindow` shows that this bound is exact.
- The non-queued executor, socket setup, rollback of a failed start, and request handling in the daemon.
- FrameReader.ReadFrame: the deadline is a number of receives that start before it.
- Unicode digits, which the decision compiler's digit test lets through.
- Parent directories: path resolution, their checks, locks by other descriptors, and the search bit; device numbers, sizes and the snapshot comparison of two inspections.
- SqlitePreparation.RepairFamily: what it does in an undisturbed directory supposes that every open succeeds; a file that may not be opened for reading is one where a call fails, and then only the other clauses hold.
- A close that fails, and signals between two statements other than at the test seams.
- Windows between a lookup and the unlink or rename that follows: `Publication.Publish`, `Publication.Replace` and `SqliteReplacement.Replace` state what holds as long as nobody else uses the names involved; what they claim without that is said apart.
- Durability of directory entries: a synced file is one whose content survives; the directory's own flush is a call that can fail.
- The reserve, release, verify and cleanup phases of a SQLite replacement: they check and remove, and publish nothing.
- ConfigRepair.LocalFiles.Repair: others neither act nor hold the lock in the middle; `SqliteFamily` covers them for the SQLite members.
- Socket, directory and single-file permission operations, inspection reports, and the audit of configured state.
