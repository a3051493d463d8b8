# A verified model of the gateway's state machines

The gateway keeps several small machines whose guarantees span many operations. This project models them in
Dafny and proves those guarantees for every input, every run and every interleaving.

* **Diagnostics ledger** (`Ledger*.dfy`). A bounded queue between request handlers and a worker that may crash.
  `Ledger` gives every operation as a function on the whole state, `LedgerRuns` the runs. The proofs follow one
  promise each: exact counters, order, keys, admission, seals and their verdict, replay, the worker's life, honesty
  and blame, artifacts, reports, memory. Calls that an exception interrupts are part of the runs. `LedgerAuthority`
  is the authority as the program keeps it, fields updated in place, each method proved to compute its function.
* **JSON recogniser** (`JsonSyntax`, `JsonScanner`, `JsonRecogniser`, `JsonErrorPosition`, `JsonErrorReport`,
  `SourcePosition`). Syntax trees of RFC 8259, the cursor-based recogniser, and the proofs that it accepts exactly the
  texts of the trees and that the error it reports is the right one, neither too late nor too early.
* **Bounded snapshot** (`Utf8`, `JsonQuoting`, `Snapshot`, `SnapshotReference`). The serialiser over object graphs,
  cycles included, against a reference without limits.
* **Context relocation** (`Context*.dfy`). The one-pass rewrite of mid-conversation system messages and its full
  specification.
* **Credential profiles** (`Profile*.dfy`). Records, mutations and their effects, sequential runs, the store's locks as
  threads with crashes and what its documents then hold, the in-memory store in place, and the loop after 429 responses.
* **models.json** (`ModelsAuthority*.dfy`). Concurrent refreshes and compare-and-swap writes on a file others edit.
* **Compaction envelope and server-sent events** (`Trimming`, `CompactionEnvelope`, `ResponsesSse*`). A codec and
  a printer with its parser.
* **Shutdown** (`Shutdown`). Drain, close and the finaliser, as events in any order.

`dafny verify dfyconfig.toml` checks the whole project.

## What the proofs found

* A close can lose its seal. The record of an unspecific failure repeats the last known location, which is not
  bounded as the seal's own location is; `CloseIsSealed` gives the exact condition, `SealCanBeLost` an input.
* A rejection that arrives before an artifact's recorder finishes is forgotten by the report of that artifact, and a
  finish that throws on its input leaves an artifact that may be reported as captured without any finish message.
  `ReportsAreExact` gives the exact condition, `RejectedArtifactIsReported` and `UnfinishedArtifactIsReported` runs;
  the journey is marked degraded in both.
* The profile authority takes display names with white space around them, which the store then rejects;
  `CommitsAreValid` says that nothing else is rejected, `UntrimmedNamesAreRejected` gives such a name.
* A drain with a refused timeout blocks every later shutdown (`RefusedDrainBlocksShutdown`).
* An edit of models.json without the lock, between check and replacement, is lost (`UnlockedEditIsLost`); with
  the lock no update is.
* The recogniser is only called where the runtime's parser has failed, with a fallback for finding no error
  (src/models-config/authority.ts:353-361). As it is exact, the fallback is never needed with a parser that keeps to
  RFC 8259.

## Assumptions

* Identifiers and revisions that are made are new; request identifiers are not used again within one authority.
* A clock may throw at any of its readings in the diagnostics authority, and inputs there may throw when they are
  read. Elsewhere clocks are total. A rename is atomic. A lock excludes the processes that take it, and a crashed
  process loses its locks.
* Sizes of diagnostics messages are an arbitrary function. The runtime's numbers print within the number grammar of
  RFC 8259. Strings are sequences of UTF-16 code units where surrogates matter, and of characters elsewhere.
* The JSON parser and printer of the event streams are parameters with stated laws: what is printed parses back, an
  object is printed on one line between braces, and a text of an object starts with a brace or white space.

## Model

The main results come first, then the functions and loops with contracts of their own, then the methods that update
fields in place, each proved equal to a step that the results are about.

| member | source | states |
|---|---|---|
| `LedgerBalance.LedgerIsExact` | src/diagnostics/authority.ts:1078-1182 | After every run of operations, worker events and shutdowns, each byte counter equals the sum over the pending entries of its class, the seal counter is 8192 for each reservation and each pending seal, the artifact counter is the sum over open journeys, and every budget is kept |
| `LedgerBalance.RemoveExact` | src/diagnostics/authority.ts:989-1006 | Giving capacity back for a settled entry never goes below zero, so the clamps never act, and the ledger stays exact |
| `LedgerBalance.CloseExact` | src/diagnostics/authority.ts:1611-1810 | However a close runs — to its end, or broken off by an exception after any number of artifact reports, at the failure record or before the seal, sealed or not — the authority's artifact bytes return exactly to what the other journeys hold, the reservation is given back unless a pending seal keeps it, and the ledger stays exact |
| `LedgerBalance.ReleaseAllExact` | src/diagnostics/authority.ts:801-841 | Releasing all open journeys leaves exactly the reservations of the seals that are pending |
| `LedgerOrder.QueueIsOrdered` | src/diagnostics/authority.ts:1078-1182 | Over all runs, broken closes included: the queue holds admitted messages in the order of their admission; an open journey's messages are numbered up to its counter; a journey has at most one seal, which comes after every other message of it, with the highest number |
| `LedgerKeys.KeysNeverRepeat` | src/diagnostics/authority.ts:297-304 | Over all runs no two admitted messages have the same key: the messages of a journey, its artifact reports and its seal carry different sequence numbers, an artifact has one begin, one finish and chunks of different indexes, and no runtime event number comes twice |
| `LedgerKeys.NoDuplicateIsOffered` | src/diagnostics/authority.ts:1098-1102 | The refusal of a duplicate key never happens in a run: no key under which an operation may next admit a message is pending |
| `LedgerSeal.CloseIsSealed` | src/diagnostics/authority.ts:1611-1811 | However full the queues are and however the close runs, it admits a seal if and only if its clock serves one and the seal (of a smooth close) or the minimal seal fits into the reservation beside the failure record that was written; the admitted seal is pending, last and unique |
| `LedgerSeal.InputDecidesSeal` | src/diagnostics/authority.ts:1129-1154 | With a printer for which both verdicts are equally long, the close's input and the journey alone decide whether it is sealed |
| `LedgerSeal.CloseIsNeverLost` | src/diagnostics/authority.ts:1115-1182 | No journey is left without its seal when the failure record and the minimal seal fit into 8192 bytes together, and the clock serves the minimal seal if the close breaks off |
| `LedgerLimits.SealCanBeLost` | src/diagnostics/authority.ts:1622-1642 | That condition is needed: with empty queues, a failed journey whose last known location is large is closed without any seal |
| `LedgerReplay.MessagesStayUntilSettled` | src/diagnostics/authority.ts:975-1045 | A pending entry leaves the queue only by an answer of the current generation or when the authority gives its queue up |
| `LedgerReplay.GenerationIsHandedEverything` | src/diagnostics/authority.ts:854-890 | A generation that becomes ready is handed what was pending then, followed by what is admitted later, once each and in admission order, for as long as it serves |
| `LedgerHonesty.JourneysAreHonest` | src/diagnostics/authority.ts:1022-1043 | Over all runs: of a journey that is not marked degraded, the admitted observations are exactly those offered, in order; each artifact offered has its begin, and its finish if its recorder has finished; and nothing was rejected |
| `LedgerHonesty.CompleteSealIsHonest` | src/diagnostics/authority.ts:1616-1763 | For a seal that says complete: the journey's admitted observations are exactly those that were offered, in their order; each artifact that was opened, and no other, has exactly one begin, one finish and one report; nothing was rejected before the close; the seal carries all of the handler's input, uncut |
| `LedgerVerdict.VerdictIsEarned` | src/diagnostics/authority.ts:1611-1763 | Over all runs, a close is sealed as complete if and only if the journey was not degraded; the input is a record that says so, of which nothing must be cut, corrected or left out; no failure record was due; nothing broke the close off; every recorder had finished; the reports of all recorders were admitted at their first try, in order; and the seal fits its reservation. It is then the seal with all of the input, and nothing but these reports came before it |
| `LedgerVerdict.ReportIsTriedTwice` | src/diagnostics/authority.ts:1699-1742 | A report is admitted if it can be taken; if not, one that says unavailable is, which is of the kind taken when the queue is full, if that can |
| `LedgerVerdict.SealTellsInput` | src/diagnostics/authority.ts:1748-1763 | Over all runs, a seal that a close admits is the full one exactly if the close was smooth and it fits, with the outcome of the input and its failure, reason and location as far as they fit; and else the minimal one |
| `LedgerVerdict.FailureIsRecorded` | src/diagnostics/authority.ts:1619-1670 | A close without success, of a journey without a primary failure, first writes a record of one without a specific cause, located where the input says or else where the journey was seen last, if it fits |
| `LedgerBlame.OnlyFaultsDegrade` | src/diagnostics/authority.ts:1259-1610 | Over all runs a journey is degraded only if an observation, an artifact's begin or finish, or bytes of an artifact that were offered are not in the log, one of its messages was rejected, or it has a second primary failure or one without a specific cause |
| `LedgerRecount.JourneyRemembers` | src/diagnostics/authority.ts:1575-1606 | Over all runs an open journey names the first failure admitted as primary and the location of the observation admitted last, is degraded if that failure is not the only one or has no specific cause, and captures what it was opened for |
| `LedgerAppend.AppendTakesWhatFits` | src/diagnostics/authority.ts:1392-1464 | Over all runs a recorder takes as many of the bytes as fit the caps of the artifact, the journey and all journeys, unless the queue refuses a chunk; only a refusal degrades the journey, and the recorder says which of the two stopped it |
| `LedgerAdmission.AdmissionIsByKind` | src/diagnostics/authority.ts:672-720 | A message is admitted exactly if it can be printed, is not pending, and its budget has room: 4 MiB with the reservations for what a reader needs most, and for the rest 4, 8, 12, 14 or 16 MiB by its kind |
| `LedgerAdmission.FullQueueTakesEssentials` | src/diagnostics/authority.ts:1078-1113 | Over all runs the budgets hold; when the ordinary one is used up only essential messages are admitted, and these whatever has filled it |
| `LedgerAdmission.BeginIsAdmitted` | src/diagnostics/authority.ts:1199-1257 | A journey is opened exactly if its identifier is safe and free, its seal can be reserved and its begin taken; otherwise nothing has changed |
| `LedgerAdmission.ObservationIsAdmitted` | src/diagnostics/authority.ts:1535-1610 | An observation is admitted exactly if it is among the first 512, can be read and copied while the clock serves, and can be taken; it takes the next number and counts as soon as it has been copied |
| `LedgerAdmission.OpenIsAdmitted` | src/diagnostics/authority.ts:1259-1330 | An artifact gets a recorder exactly under the stated conditions, and the recorder takes bytes exactly if its begin was taken |
| `LedgerAdmission.FinishIsAdmitted` | src/diagnostics/authority.ts:1331-1390 | A finish tells the announced bytes, or else those captured, says complete exactly if nothing was refused and these are as many, and the recorder then says whether it was taken |
| `LedgerAdmission.RuntimeEventIsAdmitted` | src/diagnostics/authority.ts:1850-1870 | A runtime event takes the next number and is admitted exactly if the clock serves and it can be taken |
| `LedgerAdmission.RejectionTells` | src/diagnostics/authority.ts:1022-1043 | A rejected message leaves the queue and degrades its own journey only; the recorder of its artifact says so, with the worker's reason |
| `LedgerWorker.FailureIsSurvived` | src/diagnostics/authority.ts:866-923 | While the authority serves, a generation that fails or answers for a message that is not pending is replaced by a new one, which is handed all that is pending once it is ready; if none can be started the authority gives up and holds nothing |
| `LedgerWorker.EndIsFinal` | src/diagnostics/authority.ts:827-841 | A generation that cannot start ends the authority, and shutdown ends it in two steps; it then holds nothing and has no worker |
| `LedgerWorker.NothingAfterTheEnd` | src/diagnostics/authority.ts:831-841 | An authority that does not serve any more never does again, opens no journey and takes no message |
| `LedgerArtifacts.ArtifactsAreSound` | src/diagnostics/authority.ts:1331-1464 | Over all runs: the chunks admitted for an artifact are numbered from 0 and tile a prefix of the bytes offered; a finish marked complete covers all of them |
| `LedgerReports.ReportsAreExact` | src/diagnostics/authority.ts:1331-1390 | Over all runs: the close will report an artifact as captured if and only if capture is enabled and either its finish was admitted, says complete and nothing of it was rejected after that, or its finish broke off, all that was offered was admitted and nothing of it was ever rejected; and then it counts every byte offered |
| `LedgerReports.AdmittedReportsAreExact` | src/diagnostics/authority.ts:1677-1745 | Whatever its course, each report that a close admits is about an artifact of the journey, says captured only under that condition, and says so whenever it holds unless the queue was full |
| `LedgerLimits.RejectedArtifactIsReported` | src/diagnostics/authority.ts:1022-1043 | A legal run in which the only chunk of an artifact is rejected and the close admits a report that it was captured whole |
| `LedgerLimits.UnfinishedArtifactIsReported` | src/diagnostics/authority.ts:1336-1389 | A legal run in which a finish throws, no finish message exists, and the close admits a report that the artifact was captured |
| `LedgerMemory.PendingBytesAreBounded` | src/diagnostics/authority.ts:48-59 | With answers in order and every close sealed, all pending bytes, failure records included, stay within 20 MiB |
| `JsonRecogniser.RecogniserIsExact` | src/models-config/authority.ts:160-339 | No error is found if and only if the text is a JSON text by sections 2 to 7 of RFC 8259, given as concrete syntax trees and their texts |
| `JsonErrorReport.ErrorsAreRight` | src/models-config/authority.ts:160-339 | Every reported error is right. There is a longest beginning of the text that can be completed to a JSON text; the position is its end, or the start of the escape, word or open string that it ends in; and the reason is told by what stands there and by what could have stood there instead |
| `SourcePosition.PositionsAreOrdered` | src/models-config/authority.ts:138-152 | Reported lines and columns are ordered as positions are, so no two positions are reported alike |
| `SnapshotReference.SnapshotIsRight` | src/diagnostics/bounded-json-snapshot.ts:167-198 | A value is captured if and only if its graph unfolds to a tree within 32 levels, 32768 nodes and 1 MiB of UTF-8; the bytes are the tree's text. Otherwise the first cycle or unsupported value is reported, or a limit, but that only if the tree, with null for what cannot be written, is beyond one |
| `SnapshotReference.CapturedIsJson` | src/diagnostics/bounded-json-snapshot.ts:167-198 | What was captured decodes to the text of a JSON value, which the recogniser accepts |
| `SnapshotReference.CapturedHasNoCycle` | src/diagnostics/bounded-json-snapshot.ts:88-137 | Below a captured value no way down meets an object twice; where a cycle or an unsupported value is reported there is one on a way down |
| `JsonQuoting.QuoteMeans` | src/diagnostics/bounded-json-snapshot.ts:38-45 | A quoted string stands, by section 7 of RFC 8259, for the string that was quoted |
| `JsonQuoting.QuoteUnitIsShortest` | src/diagnostics/bounded-json-snapshot.ts:38-45 | No character is written longer than section 7 of RFC 8259 makes necessary |
| `Utf8.DecodeEncode` | src/diagnostics/bounded-json-snapshot.ts:185-190 | UTF-8 loses nothing of a text without lone surrogates |
| `ContextTheorems.ReadyIffRelocatable` | src/pi-context-compatibility.ts:83-142 | The rewrite succeeds if and only if every mid-conversation system message is plain and its tool exchange is completed by results before a user or assistant message or the end |
| `ContextTheorems.RefusalIsRight` | src/pi-context-compatibility.ts:64-68 | A refusal names a complex message, a crossing of an open exchange, or an exchange left open |
| `ContextTheorems.ResultIsARearrangement` | src/pi-context-compatibility.ts:83-150 | The result holds every message once, as it was or as a user's message of the same text and time; kept messages keep their order, and each degraded one stands at the first slot without pending calls |
| `ContextTheorems.OutcomesAreTheMids` | src/pi-context-compatibility.ts:71-80 | The outcome indexes are exactly the mid-conversation system messages, strictly increasing |
| `ContextTheorems.NoMidRemains` | src/pi-context-compatibility.ts:83-150 | No system message of the result follows one of another role |
| `ContextTheorems.DegradedStandClear` | src/pi-context-compatibility.ts:109-115 | Replaying the result, no tool call is pending where a degraded message stands |
| `ContextTheorems.PreparingTwice` | src/pi-context-compatibility.ts:144-150 | A second rewrite changes nothing |
| `ProfileMutations.CommitsAreValid` | src/credentials/profile-authority.ts:110-113 | What the authority commits passes that check if and only if the name it gives has no white space around it, although the authority's own check takes such names |
| `ProfileMutations.UntrimmedNamesAreRejected` | src/credentials/profile-authority.ts:110-113 | A name that the authority takes and the store rejects, for a renaming and for an acquisition |
| `ProfileMutations.ReorderKeepsValid` | src/credentials/profile-authority.ts:800-860 | A reordering by as many different known identifiers as there are profiles keeps every profile |
| `ProfileMutations.RemoveKeepsValid` | src/credentials/profile-authority.ts:878-920 | Removing a profile, and the selection with it, keeps a record valid |
| `ProfileRuns.CommitTracks` | src/credentials/profile-authority.ts:701-716 | A commit changes the selection generation exactly when it changes the active profile |
| `ProfileRuns.StoredRecordsAreValid` | src/credentials/profile-record-store.ts:652-678 | Over all runs every stored record is valid |
| `ProfileRuns.EqualGenerationsMeanOneSelection` | src/credentials/profile-authority.ts:173-206 | If a generation is seen twice, the same profile was active at every commit in between: no ABA |
| `ProfileRuns.NoLostUpdate` | src/credentials/profile-record-store.ts:652-658 | A management write goes ahead if and only if nothing was committed since the record it is based on |
| `ProfileRuns.OneAdvancePerGeneration` | src/credentials/profile-authority.ts:1289-1352 | Of all requests that hold the same generation at most one moves the selection on; later ones find it stale or are exhausted |
| `ProfileStoreSafety.RecordIsSequential` | src/credentials/profile-record-store.ts:1158-1195 | Under any interleaving and any crashes the record is that of the committed requests performed one after the other |
| `ProfileStoreSafety.NoDanglingCredential` | src/credentials/profile-record-store.ts:1197-1249 | In every reachable state each managed reference has its document, also after a crash between the two writes and beside orphan collection |
| `ProfileStoreSafety.NoLostRewrite` | src/credentials/profile-record-store.ts:1265-1327 | A rewritten document replaced exactly what the callback had been given, for a profile still present and enabled |
| `ProfileStoreContents.DocumentsHoldLastStored` | src/credentials/profile-record-store.ts:1197-1327 | In every reachable state a document is there exactly if the last step that stored or deleted it stored it, and holds what that step stored: the published content, or the reply of the rewrite's callback |
| `ProfileStoreContents.RewritesStoreTheReply` | src/credentials/profile-record-store.ts:1265-1327 | Every rewrite of a document was a step of a thread that rewrites it, and stored what the callback of that thread had replied |
| `ProfileStoreContents.UndisturbedCompletes` | src/credentials/profile-record-store.ts:1158-1327 | An operation that finds its locks free and is not disturbed ends within seven steps with its locks free again, and has done what it is for: the accepted request is stored, the document published, rewritten or deleted, under exact conditions |
| `ProfileStoreSafety.NoDeadlock` | src/credentials/profile-record-store.ts:979-998 | As long as operations are under way, one of them can go on |
| `ProfileStoreSafety.StepsRunOut` | src/credentials/profile-record-store.ts:979-998 | Every step brings its operation nearer to its end |
| `ProfileStoreSafety.CommitAddsOnlyTheAcquired` | src/credentials/profile-record-store.ts:472-489 | A commit refers to no managed document that was not referred to, except the one published with it |
| `ProfileMemoryStore.PublishedIsCommitted` | src/credentials/profile-record-store.ts:472-489 | The check that a commit refers to what was published never fails |
| `ProfileEffects.RequestsAreRight` | src/credentials/profile-authority.ts:547-990 | Every request on every valid record: it meets a conflict exactly if it names another revision; otherwise it is met exactly if the record allows it and its name has no white space around it; a request that is met has done exactly what it asks for, profile by profile; a record is written only if something changes; and any other answer names what stands in the way |
| `ProfileExecution.SwitchIsEligible` | src/credentials/profile-authority.ts:1289-1352 | A switch goes to an enabled, untried profile of the same authentication type that is not cooling down, from the profile still active, under the policy of its kind |
| `ProfileExecution.SwitchIsExact` | src/credentials/profile-authority.ts:1289-1352 | The selection is moved on if and only if fewer than three profiles were tried, the failed one is still selected at the same generation, its kind is switched at 429 and some profile may follow; and it goes to the first that may |
| `ProfileExecution.Execute` | src/credentials/profile-bound-pi-execution.ts:54-164 | Without profiles one execution, whatever comes of it, and without an active one none; otherwise at most three, with different credentials of one type, each switched to only after 429; the loop ends for a stated reason whatever happens to the profiles meanwhile |
| `ModelsAuthoritySafety.RevisionsNameContents` | src/models-config/authority.ts:489-524 | Over any interleaving of queries, writes, failures and edits by others, served revisions begin at 0, never decrease and skip none, and an equal revision means equal presence and content |
| `ModelsAuthoritySafety.CompareAndSwap` | src/models-config/authority.ts:560-600 | A write that replaced the file replaced exactly the content served at the revision it asked for, if and only if no edit without the lock came between check and replacement, or the last such edit wrote that same content |
| `ModelsAuthoritySafety.FileHoldsLastWrite` | src/models-config/authority.ts:560-600 | After any run the file holds what its last writer wrote: someone else's content, or the content that a write call asked for |
| `ModelsAuthoritySafety.SwapWrites` | src/models-config/authority.ts:584-585 | Right after a write has replaced the file, it holds exactly the content that was asked for, which is valid and not what the write was based on |
| `ModelsAuthoritySafety.AnswersAreRight` | src/models-config/authority.ts:617-655 | Every answer of every run fits the state that it carries: ok for a valid content that this state holds, invalid for one that is not valid, a conflict for another revision or for a file that differed under the lock; and served states are judged as their content deserves |
| `ModelsAuthoritySafety.RefreshServesTheFile` | src/models-config/authority.ts:489-524 | The state that a call serves after it has read the file shows the file as it was when it was read, for the generation that is current now, with a new revision exactly if its content is new |
| `ModelsAuthoritySafety.UndisturbedWrite` | src/models-config/authority.ts:621-655 | A write that finds the lock free and is not disturbed is answered as the file deserves; the file then holds its content exactly if its revision is the served one and the content is valid and new, and else what it held |
| `ModelsAuthoritySafety.UndisturbedQuery` | src/models-config/authority.ts:618-620 | A query that is not disturbed is answered with a state of the file as it is |
| `ModelsAuthoritySafety.UnlockedEditIsLost` | src/models-config/authority.ts:581-588 | Such an edit is lost: a run in which the file ends as the write left it |
| `CompactionEnvelope.BytesRoundTrip` | src/responses-compaction.ts:312-314 | Base64 decoding gives back what was encoded, and encodings match the pattern |
| `CompactionEnvelope.ThreeBytesAreFourSymbols` | src/responses-compaction.ts:312-314 | Three bytes and their four symbols are the same number, most significant part first |
| `CompactionEnvelope.CanonicalIsEncoding` | src/responses-compaction.ts:121-127 | The base64 stage takes exactly the encodings of non-empty byte strings (sections 3.5 and 4 of RFC 4648) |
| `CompactionEnvelope.SummaryRoundTrip` | src/responses-compaction.ts:119-136 | An envelope opens to exactly the summary put in, for every trimmed, non-empty text without lone surrogates |
| `CompactionEnvelope.OpensExactly` | src/responses-compaction.ts:119-136 | An envelope opens if and only if it carries well-formed UTF-8 that is not blank, and then to that text trimmed |
| `CompactionEnvelope.CompactedComesBack` | src/responses-compaction.ts:142-168 | What was compacted comes back as a plain message in its place |
| `ResponsesSseRoundTrip.FramesOfStream` | src/responses-sse.ts:30-83 | Splitting a rendered stream gives back its frames, in order |
| `ResponsesSseRoundTrip.RenderedExtractsAlike` | src/responses-sse.ts:30-83 | For every response, extracting from its events gives what its plain JSON gives |
| `ResponsesSseRoundTrip.RenderedHasFrames` | src/responses-sse.ts:30-83 | The frames of a rendering are the beginning, what each item of the output says, the end by its status, and the terminator |
| `ResponsesSseRoundTrip.EventsAreNumbered` | src/responses-sse.ts:32-76 | The events of a response are numbered in order, each item comes in its place, and the last one tells the status and the whole response |
| `ResponsesSseRoundTrip.NothingLeaks` | src/responses-sse.ts:39-51 | Responses that differ only in status, error and incomplete details have the same events but for the last, and the first one says in progress, without output |
| `ResponsesSseText.OutputIsGathered` | src/responses-compaction.ts:464-485 | The texts of an output are those at the places of the texts of its messages, in order and without exception |
| `ResponsesSseText.StreamTextIsRight` | src/responses-compaction.ts:388-462 | A stream of events has a text exactly if it is events under way, one completion and at most a terminator, and its text is not blank; the text is that of the pieces, or else of the completed output, or else of the items done |
| `ResponsesSseLines.FramesOfLines` | src/responses-compaction.ts:382-390 | Whatever mix of line feeds, carriage returns and pairs of both ends its lines, the frames of a body are those of the groups of lines between empty lines |
| `ResponsesSseLines.LineEndsDoNotMatter` | src/responses-compaction.ts:382-462 | Extracting does not depend on how the lines of a body end |
| `ResponsesSseLines.EventsComeBack` | src/responses-compaction.ts:382-390 | Texts of one or more lines that are sent as `data:` lines among others, with any line ends, come back as they were, in order |
| `ResponsesSseLines.RenderedWithAnyLineEnds` | src/responses-compaction.ts:359-462 | A response rendered as events that arrives with other line ends still extracts as its plain JSON |
| `Shutdown.FinalisedOnlyAtQuiescence` | src/running-data-plane-listener.ts:68-97 | Over all event orders the data plane is finalised at most once, with admission over and nothing admitted still active |
| `Shutdown.AdmissionIsOver` | src/server.ts:496-559 | Once admission has ended nothing is admitted again, and what is active only becomes less |
| `Shutdown.NothingAfterFinalisation` | src/server.ts:775-866 | After finalisation nothing is admitted, whatever happens |
| `Shutdown.ShutdownCompletes` | src/server.ts:893-898 | Once all that was admitted is over and the connections are closed, a shutdown that has begun can be brought to its end |
| `Shutdown.FirstCallDecides` | src/running-data-plane-listener.ts:71-96 | Shutdown begins exactly if the first call is a close, or a drain whose timeout is taken |
| `Shutdown.ActiveIsWhatWasAdmitted` | src/server.ts:496-559 | Exactly what was admitted and is not over is active, told by the events alone: until shutdown begins every request is admitted, and every upgrade that matches |
| `Shutdown.ForcedByTimer` | src/server.ts:919-952 | A drain is forced, and says so when it is over, exactly if the timer fired while it waited |
| `Shutdown.RefusedDrainBlocksShutdown` | src/running-data-plane-listener.ts:84-96 | After a drain whose timeout is refused, neither drain nor close ends admission or finalises anything |
| `LedgerBalance.ReleaseBalanced` | src/diagnostics/authority.ts:801-818 | What a closing journey still holds is given back exactly, neither more nor less than the ledger holds for it |
| `LedgerVerdict.PlainCloseIsComplete` | src/diagnostics/authority.ts:1611-1763 | A journey that begins and is closed with a success that says it is complete is sealed so |
| `LedgerReports.ReportTells` | src/diagnostics/authority.ts:1677-1745 | A report tells nothing of an artifact that the journey was not opened to capture, or whose recorder never finished, and else what the recorder says |
| `Ledger.Bounded` | src/diagnostics/authority.ts:353-372 | What is kept of a text is its longest beginning within the byte limit; it is reported as cut exactly if the value is no text or does not fit |
| `Ledger.ProjectSeal` | src/diagnostics/authority.ts:501-545 | Every text of a seal keeps its byte limit; a seal says complete if and only if the journey is not degraded and the input is a record that says so and fits whole, and then it carries all of it and the failure recorded first |
| `JsonErrorReport.FirstJsonSyntaxError` | src/models-config/authority.ts:160-339 | The recogniser answers nothing exactly on JSON texts, and otherwise an error that is right in this sense |
| `JsonRecogniser.ValueSound` | src/models-config/authority.ts:263-275 | What is taken for a value is white space and the text of a value |
| `JsonRecogniser.ValueComplete` | src/models-config/authority.ts:263-275 | The whole text of any value is taken, wherever a value may end |
| `SourcePosition.LineColumnAt` | src/models-config/authority.ts:138-152 | The loop counts the line feeds before a position and the distance from the last of them |
| `SourcePosition.PositionSteps` | src/models-config/authority.ts:138-152 | The text begins at line 1 and column 1, a line feed begins the next line, and any other character the next column |
| `SnapshotReference.CreateBoundedJsonSnapshot` | src/diagnostics/bounded-json-snapshot.ts:167-198 | The serialiser's result stands in that relation to its input |
| `SnapshotReference.AppendStringEmits` | src/diagnostics/bounded-json-snapshot.ts:38-45 | Rejecting a long string before it is quoted rejects only what has no room |
| `JsonQuoting.SurrogatesAreWrittenOut` | src/diagnostics/bounded-json-snapshot.ts:38-45 | A lone surrogate is written with the digits of its code, and digits that are letters are lower-case |
| `JsonQuoting.QuoteText` | src/diagnostics/bounded-json-snapshot.ts:38-45 | Quoting never shortens a string and leaves no lone surrogate |
| `Profiles.CheckIdentities` | src/credentials/profile-record-store.ts:417-436 | The loop over the profiles accepts exactly unique identifiers, unique case-folded names and at most one local login |
| `Profiles.ValidateRecord` | src/credentials/profile-record-store.ts:378-450 | The check before every write accepts exactly the valid records |
| `ProfileExecution.CaptureOf` | src/credentials/profile-authority.ts:1146-1188 | A request is unbound exactly if the provider has no profiles, refused exactly if it has but none is enabled and active, and otherwise bound to the active one with the current generation |
| `ProfileExecution.ActiveIsBound` | src/credentials/profile-authority.ts:1146-1188 | With a valid record, an active profile is always bound |
| `CompactionEnvelope.SymbolsAreStandard` | src/responses-compaction.ts:312-314 | The symbols are those of table 1 of RFC 4648, in its order |
| `CompactionEnvelope.RestIsPadded` | src/responses-compaction.ts:312-314 | What is left at the end is encoded as if zeros followed, with padding in their place |
| `Trimming.TrimKeepsTheMiddle` | src/responses-compaction.ts:119-136 | Trimming leaves the text from the first character that is not blank to the last one |
| `CompactionEnvelope.ExpandEnvelopes` | src/responses-compaction.ts:142-168 | Exactly the compaction items whose envelope opens are rewritten; every other item is unchanged |
| `ResponsesSse.CollectOutputText` | src/responses-compaction.ts:464-485 | The nested loops collect the output texts of messages, in order |
| `ResponsesSse.ExtractResponsesOutputText` | src/responses-compaction.ts:359-462 | The loop with its flags computes the specified extraction; on a body of events it gives a text if and only if the stream is whole and its chosen text is not blank, and then that text trimmed |
| `ResponsesSse.FlagsAfterProgress` | src/responses-compaction.ts:400-447 | After any frame but the terminator the loop's flags still say exactly whether the frames so far are whole, or may become so |
| `ResponsesSse.FlagsAfterTerminator` | src/responses-compaction.ts:388-399 | And after a terminator |
| `ResponsesSseRoundTrip.RenderResponsesSse` | src/responses-sse.ts:30-83 | The renderer builds the specified stream of frames |
| `ResponsesSseLines.EveryTextHasLines` | src/responses-compaction.ts:382 | Every text is lines with such ends |
| `LedgerAuthority.DiagnosticsAuthority.Enqueue` | src/diagnostics/authority.ts:1103-1111 | An admitted entry goes to the end of the queue, is charged to its class, and is posted to a ready session |
| `LedgerAuthority.DiagnosticsAuthority.IsPending` | src/diagnostics/authority.ts:1099-1102 | Finds a pending message by its key |
| `LedgerAuthority.DiagnosticsAuthority.Admit` | src/diagnostics/authority.ts:1078-1113 | Updates the fields in place as the admission function on the whole state does |
| `LedgerAuthority.DiagnosticsAuthority.AdmitFor` | src/diagnostics/authority.ts:1078-1113 | A refused message degrades its journey |
| `LedgerAuthority.DiagnosticsAuthority.AdmitCloseSeal` | src/diagnostics/authority.ts:1129-1154 | In place, as the seal's admission on the whole state; the reservation passes from the journey to the entry |
| `LedgerAuthority.DiagnosticsAuthority.AdmitCloseFallback` | src/diagnostics/authority.ts:1156-1182 | In place, as the failure record's admission on the whole state; it uses part of the reservation |
| `LedgerAuthority.DiagnosticsAuthority.Begin` | src/diagnostics/authority.ts:1199-1257 | A journey begins with a reservation and an admitted begin message, or not at all; the ledger stays exact |
| `LedgerAuthority.DiagnosticsAuthority.Observe` | src/diagnostics/authority.ts:1535-1610 | Records an observation as the specified step, also when its reading or the clock throws, and keeps the ledger exact |
| `LedgerAuthority.DiagnosticsAuthority.OpenArtifact` | src/diagnostics/authority.ts:1259-1330 | Opens an artifact recorder as the specified step, also when the metadata or the clock throws, and keeps the ledger exact |
| `LedgerAuthority.DiagnosticsAuthority.AdmitChunk` | src/diagnostics/authority.ts:1425-1447 | Admits one chunk and moves its bytes to the artifact, the journey and the authority |
| `LedgerAuthority.DiagnosticsAuthority.AdmitChunks` | src/diagnostics/authority.ts:1417-1448 | The chunk loop computes the specified recursion, with at most 64 KiB a chunk |
| `LedgerAuthority.DiagnosticsAuthority.AppendArtifact` | src/diagnostics/authority.ts:1392-1464 | Appends within the artifact, journey and authority caps, and keeps the ledger exact |
| `LedgerAuthority.DiagnosticsAuthority.FinishArtifact` | src/diagnostics/authority.ts:1331-1390 | Finishes a recorder once, as the specified step; a call that throws on its input leaves the recorder finished, its descriptor as it was, and no message |
| `LedgerAuthority.DiagnosticsAuthority.ReportFlight` | src/diagnostics/authority.ts:1678-1742 | Reports one artifact at close, with a second try when the first report is refused |
| `LedgerAuthority.DiagnosticsAuthority.ReportFlights` | src/diagnostics/authority.ts:1677-1745 | The loop over the artifacts of a closing journey computes the specified recursion |
| `LedgerAuthority.DiagnosticsAuthority.RecordUnspecificFailure` | src/diagnostics/authority.ts:1619-1670 | Records an unspecific failure when an abnormal close has no primary one |
| `LedgerAuthority.DiagnosticsAuthority.PrepareSeal` | src/diagnostics/authority.ts:1615-1770 | The reports of a close up to its seal, as far as they get before an exception, and what its handler makes of one |
| `LedgerAuthority.DiagnosticsAuthority.Close` | src/diagnostics/authority.ts:1611-1811 | The whole close, its handler and its final release included, in place, equals the specified step and keeps the ledger exact |
| `LedgerAuthority.DiagnosticsAuthority.ObserveRuntime` | src/diagnostics/authority.ts:1850-1870 | Offers a runtime event under the next number; a clock that throws loses the number |
| `LedgerAuthority.DiagnosticsAuthority.OnSettled` | src/diagnostics/authority.ts:975-1045 | An answer of the current generation removes its entry and gives its capacity back; an unknown key fails the generation |
| `LedgerAuthority.DiagnosticsAuthority.MarkRejected` | src/diagnostics/authority.ts:1022-1043 | A rejection degrades the journey and marks the artifact unavailable |
| `LedgerAuthority.DiagnosticsAuthority.OnFailed` | src/diagnostics/authority.ts:866-890 | A failed generation is dropped and a restart scheduled |
| `LedgerAuthority.DiagnosticsAuthority.OnReady` | src/diagnostics/authority.ts:854-859 | The posting loop posts exactly the queue, in order, to the generation's session |
| `LedgerAuthority.DiagnosticsAuthority.OnStartupFailure` | src/diagnostics/authority.ts:965-968 | A startup failure makes the authority unavailable for good |
| `LedgerAuthority.DiagnosticsAuthority.OnRestartTimer` | src/diagnostics/authority.ts:902-923 | A new generation starts, or the authority becomes unavailable |
| `LedgerAuthority.DiagnosticsAuthority.ReleaseJourneys` | src/diagnostics/authority.ts:831-837 | All journeys give back what they hold |
| `LedgerAuthority.DiagnosticsAuthority.ReleaseOneByOne` | src/diagnostics/authority.ts:801-818 | The release loop brings the artifact bytes to zero and leaves only the reservations of pending seals |
| `LedgerAuthority.DiagnosticsAuthority.FailPermanently` | src/diagnostics/authority.ts:827-841 | Unavailability releases every journey and empties the queue, exactly |
| `LedgerAuthority.DiagnosticsAuthority.ClearQueue` | src/diagnostics/authority.ts:820-825 | The queue and its counters become empty together |
| `LedgerAuthority.DiagnosticsAuthority.BeginClose` | src/diagnostics/authority.ts:1967-1976 | Shutdown releases every journey at once and keeps the queue |
| `LedgerAuthority.DiagnosticsAuthority.EndClose` | src/diagnostics/authority.ts:1992-2028 | The end of shutdown drops the worker and the queue |
| `JsonScanner.Scanner.ParseString` | src/models-config/authority.ts:179-219 | The string loop moves the cursor as specified, or finds the same first error |
| `JsonScanner.Scanner.ParseNumber` | src/models-config/authority.ts:221-252 | The number parser moves the cursor as specified, or finds the same first error |
| `JsonScanner.Scanner.ParseLiteral` | src/models-config/authority.ts:254-261 | A literal is taken whole or refused at its start |
| `JsonScanner.Scanner.ParseValue` | src/models-config/authority.ts:263-275 | Dispatch on the first character, as specified |
| `JsonScanner.Scanner.ParseObject` | src/models-config/authority.ts:277-309 | The member loop moves the cursor as specified, or finds the same first error |
| `JsonScanner.Scanner.ParseArray` | src/models-config/authority.ts:311-334 | The element loop moves the cursor as specified, or finds the same first error |
| `Snapshot.Serialiser.AppendPart` | src/diagnostics/bounded-json-snapshot.ts:29-36 | A part is appended within the byte limit, or the limit is reported |
| `Snapshot.Serialiser.AppendJsonString` | src/diagnostics/bounded-json-snapshot.ts:38-45 | A quoted string is appended within the byte limit |
| `Snapshot.Serialiser.EnterNode` | src/diagnostics/bounded-json-snapshot.ts:47-55 | Nodes and depth are counted against their limits |
| `Snapshot.Serialiser.AppendValue` | src/diagnostics/bounded-json-snapshot.ts:57-158 | In place, as the specified emission; the ancestors are as before however it ends |
| `Snapshot.Serialiser.AppendSlots` | src/diagnostics/bounded-json-snapshot.ts:102-119 | The element loop emits what is specified |
| `Snapshot.Serialiser.AppendProperties` | src/diagnostics/bounded-json-snapshot.ts:125-153 | The property loop skips and emits what is specified |
| `ContextLoop.PreparePiContextForModel` | src/pi-context-compatibility.ts:37-151 | The loop over the messages computes the specified result |
| `ContextLoop.FlushDeferredSystems` | src/pi-context-compatibility.ts:70-81 | The deferred messages follow what is repaired so far, degraded, in order |
| `ContextLoop.CollectCallIds` | src/pi-context-compatibility.ts:131-133 | The tool calls of an assistant message, as a set |
| `ProfileMemoryStore.InMemoryStore.Modify` | src/credentials/profile-record-store.ts:652-678 | One serialised write: compare, mutate, check, store; the documents and the store's consistency stay |
| `ProfileMemoryStore.InMemoryStore.Publish` | src/credentials/profile-record-store.ts:680-718 | The published document and the record appear together; the store stays consistent |
| `ProfileMemoryStore.InMemoryStore.ReadForRewrite` | src/credentials/profile-record-store.ts:751-768 | A rewrite is given a document exactly for an enabled managed profile |
| `ProfileMemoryStore.InMemoryStore.FinishRewrite` | src/credentials/profile-record-store.ts:772-793 | A rewrite takes effect exactly if the profile is still there, enabled and refers to the same path |
| `ProfileMemoryStore.InMemoryStore.CollectOrphans` | src/credentials/profile-record-store.ts:822-850 | Deletes exactly the unreferenced documents whose grace has run out |
| `ProfileExecution.Cooldowns.IsCoolingDown` | src/credentials/profile-authority.ts:284-295 | Forgetting an entry that has run out changes no later answer |
| `ProfileExecution.Cooldowns.FirstEligible` | src/credentials/profile-authority.ts:1322-1332 | The search finds the first eligible profile |
| `ProfileExecution.Cooldowns.Remember` | src/credentials/profile-authority.ts:1359-1373 | A retry delay within a day cools exactly that credential down for exactly that long |
| `ModelsAuthority.ModelsJsonAuthority.FinishRefresh` | src/models-config/authority.ts:502-523 | After the read, the fields change as specified |
| `ModelsAuthority.ModelsJsonAuthority.FinishCommit` | src/models-config/authority.ts:602-614 | After the replacement, the fields change as specified |
| `Shutdown.RunningDataPlane.OnRequest` | src/server.ts:496-559 | A request is refused exactly when admission is over |
| `Shutdown.RunningDataPlane.OnUpgrade` | src/server.ts:775-866 | A matched upgrade is admitted while admission lasts |
| `Shutdown.RunningDataPlane.Close` | src/server.ts:953-965 | Close ends admission and waits for what is active then |
| `Shutdown.RunningDataPlane.Drain` | src/server.ts:919-952 | Drain with a good timeout ends admission and waits; a refused one only leaves its rejection behind |
| `Shutdown.RunningDataPlane.FinaliseDataPlane` | src/running-data-plane-listener.ts:71-96 | Finalisation follows the server's end |

## Left out

- Commands, queries, subscribers, restart delays and the retention settings of the diagnostics authority; posting a
  message to the worker either succeeds or is followed by a failure of the generation.
- Artifact observations through `observe` and `captureJson` are compositions of open, append and finish, which are
  modelled; their glue is not.
- A recorder or observer kept by a handler after its journey has closed: journeys are values in a map here, so what a
  stale handle still writes into its own discarded state is not captured. It does not reach the authority's counters.
- LedgerAuthority.DiagnosticsAuthority.AppendArtifact: does not model a call that throws half-way because a chunk
  cannot be allocated or copied.
- The diagnostics worker's program, its database, process spawning and the wire between processes: the worker is an
  environment that answers, fails or exits.
- Proxies, and object graphs that change while they are captured.
- The texts of recogniser errors (the reasons are kept apart, the wording is not), and `stripJsonComments`.
- The secret check on profile metadata, the projections of profiles, acquisition itself, and aborts.
- Owner and file-system checks of the credential store, and the takeover of a lock from a live but stalled process.
- The grace period in the interleaved store: there an unreferenced document may be collected at any age, which is the
  harder case; the in-memory store models the grace.
- Parsing of credential records from text: the record arrives as a value, and keys that do not belong cannot occur.
- Publishing under the selection lock (`publishIfCurrent`), and reading external credential files.
- Validation and composition of models.json beyond one predicate on its content.
- The prompts, the request rewrite and the namespace flattening of routed compaction.
- Numbers other than exact integers, and strings with lone surrogates, in event streams.
- Timers and connection handling of the HTTP server: that its connections have closed is an event.
- The small machines beside these (desktop lease, keyed single flight, confirmation gates, supervisor) would add only
  easy members.
