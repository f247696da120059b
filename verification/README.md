# Applicant tracking, verified

A Dafny model of the logic at the centre of an applicant-tracking backend and of the three pure
helpers that its browser code shares with it. The database tables, the queue and the object store are
values that the steps below change; `dafny verify dfyconfig.toml` checks everything.

- **Workers on a retrying queue** (`RetryQueue`, `NotificationWorker`, `ResumeParser`,
  `ApplicationRanking`). Each delivery of a job takes one step per `await` that touches shared state.
  It can crash at any of them, be delivered again, and interleave with everything else. What makes this
  harmless is stored state: the resume status, `rankedAt`, the upserted notification row with its
  `processedAt`, and embedding caches that must agree with recomputation.
- **Uploads and streams** (`ResumeUpload`, `NotificationHub`). An object store kept in step with a table
  by a compensating delete, and a map of listener sets kept in step with the open streams.
- **The hiring pipeline** (`StageRule`, `JobStages`, `Pipeline`, `PipelineRaces`, `PipelineReads`,
  `PipelineBudget`, `PipelineRaceBudget`, `Dashboard`). The transition rule over arbitrary stages, stage
  lists that grow and whose flags change while applications are in them, append-only history with an
  audit log, and the counts derived from these tables. `Pipeline` serves one request after the other;
  `PipelineRaces` splits each request at its awaits and interleaves them; `PipelineReads` says which
  write in between makes a request find something else at its commit than it has read; the two budgets count moves, for serial and
  for interleaved requests.
- **Scores** (`Keywords`, `DeterministicScore`, `CosineSimilarity`, `JobRelevance`), in exact arithmetic.

A module's imperative code is a class whose methods are proved against a step function `Next`
(`ensures State() == Next(old(State()), event)`); `Run` folds `Next` over a sequence of events, and the
theorems speak about every such sequence. The main methods also state the tables they leave, and each
refusal, outright over their inputs. `Wrappers`, `Sequences` and `RealArithmetic` hold shared
notions. Events that are not enabled leave the state unchanged, so "every sequence of events" includes
every interleaving.

Some plausible statements are false of the code. For each there is a lemma with the input or the event
sequence that shows it, beside the exact statement that holds:

| tempting claim | counterexample | what holds |
|---|---|---|
| a notification is emailed at most once | `NotificationWorker.OverlappingDeliveriesRepeat`, and without overlap `NotificationWorker.RedeliveryRepeatsEmail` | `NotificationWorker.EmailedTwiceExactly`, `NotificationWorker.AfterMarkOnlyInFlightSend` |
| a candidate's own phone is never replaced | `ResumeParser.BackfillOverwritesNewerPhone` | `ResumeParser.PhoneReplacedExactly` |
| a parsed resume stays parsed | `ResumeParser.BackfillLookupCanFailAParsedResume` | `ResumeParser.ParsedIsLeftOnlyByTheHook`, `ResumeParser.LastAttemptOnParsed` |
| a stored job vector embeds the job's current text | `ApplicationRanking.EditInBetweenLeavesStaleVector` | `ApplicationRanking.CoherentIffFresh`, `ApplicationRanking.QuietEditsAreFresh` |
| a terminal stage is never left | `Pipeline.ClearedFlagReopens`, `PipelineRaces.RacingMovesLeaveTerminal`, `PipelineRaceBudget.FlagRaisedDuringMove` | `PipelineReads.LeavesTerminalExactly`, `PipelineRaceBudget.MovesBounded`, `PipelineRaceBudget.UndisturbedBudget` |
| each history row starts where the last one ended | `PipelineRaces.RacingMovesLeaveTerminal` | `PipelineRaces.LinkedIffTimely`, `PipelineRaces.OneMoveAtATimeLinks` |
| a closed job stays closed and gains no application | `PipelineReads.RacingPublishReopens`, `PipelineReads.ApplicationsReachClosedJobs` | `PipelineReads.ClosedAtCommitExactly`, `PipelineReads.InsertedOnClosedExactly`; serially `Pipeline.JobsOnlyAdvance` |
| the stage names of a job differ up to letter case | `PipelineReads.RacingRenamesCollide` | `PipelineReads.NamesStayDistinctExactly` |
| the overview's stages add up to its total, and active plus terminal too | `Dashboard.MoveIsCountedTwice` | `Dashboard.OverviewExactly` |
| a job that fails for good has fired its hook | `RetryQueue.DefaultBackoff`, whose run ends with the hook still due | `RetryQueue.HookFiresOnceAtTheEnd` |
| a score of 100 means every keyword matched | `DeterministicScore.RoundingThresholds` | `DeterministicScore.PercentageEnds`, `DeterministicScore.ScoreBounds` |

The documentation comment of the transition rule (`application.state-machine.ts:4-10`) says that
nothing moves once a terminal stage is reached; the service checks this against a flag and a stage it
has read earlier, so it holds only as stated above.

## Model

| member | source | states |
|---|---|---|
| RetryQueue.HookFiresOnceAtTheEnd | apps/backend/src/queues/queue.service.ts:39-58 | the failure hook fires at most once and only for a job that failed for good: exactly one of fired, due, or lost with its worker before the handler ran holds of such a job; a job that is over changes in nothing but that, and without a lost worker no hook is lost |
| RetryQueue.FinalMeansNotRetried | apps/backend/src/queues/queue.service.ts:40-41 | after every throw, a hook becomes due exactly when the job will not be retried, that is when the error is unrecoverable or the attempts are used up |
| RetryQueue.BackoffBound | apps/backend/src/queues/queue.service.ts:7-12 | for any attempts n and delay d the total backoff is at most d * (2^(n-1) - 1) |
| RetryQueue.CrashIsRedelivered | apps/backend/src/queues/queue.service.ts:30-33 | a crashed attempt is delivered again, and the job is then as it was: no attempt is counted |
| RetryQueue.DefaultBackoff | apps/backend/src/queues/queue.service.ts:7-12 | 30 000 ms bounds every job with the default options, and five throwing attempts reach it |
| RetryQueue.Worker.Fail | apps/backend/src/queues/queue.service.ts:39-59 | a throwing attempt is counted; the job fails exactly if the error is unrecoverable or the attempts are used up, and a hook is then due; otherwise it waits, with the exponential delay added |
| RetryQueue.Worker.OnFailed | apps/backend/src/queues/queue.service.ts:39-59 | the handler takes a failed attempt for final exactly when the queue will not retry it, and fires the hook exactly then |
| RetryQueue.Worker.FailAndHandle | apps/backend/src/queues/queue.service.ts:39-59 | with nothing in between, the hook has fired once exactly if the job failed |
| NotificationWorker.EmailAccounting | apps/backend/src/workers/notification.worker.ts:19-54 | in every interleaving: one row per job id, rows, emails and events carry the job's own data, emails are those of marking deliveries that found the user plus those of deliveries that sent but never marked |
| NotificationWorker.NonOverlappingDeliveryCounts | apps/backend/src/workers/notification.worker.ts:19-54 | when deliveries of a job do not overlap, mark and event happen at most once |
| NotificationWorker.EmailedTwiceExactly | apps/backend/src/workers/notification.worker.ts:31-44 | when deliveries of a job do not overlap, its user is emailed more than once if and only if a delivery stops between its email and its mark and a later delivery sends |
| NotificationWorker.StopThenSendRepeats | apps/backend/src/workers/notification.worker.ts:31-44 | with any overlap, such a stop followed by a sending delivery makes at least two emails |
| NotificationWorker.RedeliveryRepeatsEmail | apps/backend/src/workers/notification.worker.ts:31-44 | this happens: a crash between email and mark, and the redelivery emails again |
| NotificationWorker.AfterMarkOnlyInFlightSend | apps/backend/src/workers/notification.worker.ts:31-35 | once a job is marked, only deliveries already past the check can still send; a later delivery sends nothing |
| NotificationWorker.OverlappingDeliveriesRepeat | apps/backend/src/workers/notification.worker.ts:31-44 | two overlapping deliveries can both send and both mark |
| NotificationWorker.Processor.FindOrCreateBySourceJobId | apps/backend/src/modules/notifications/notification.repository.ts:16-22 | the upsert keeps the invariant: a row with the job's data is added exactly if the job id has none, and the delivery ends exactly if its row was processed |
| NotificationWorker.Processor.SetProcessed | apps/backend/src/modules/notifications/notification.repository.ts:24-26 | the mark keeps the invariant, sets its row processed and changes no other row |
| NotificationWorker.Processor.MarkNotificationAsRead | apps/backend/src/modules/notifications/notification.service.ts:35-47 | missing, foreign and own notifications answered in that order; only the owner's flag is raised, and nothing else changes |
| NotificationWorker.Processor.Process | apps/backend/src/workers/notification.worker.ts:19-54 | an undisturbed delivery changes nothing if the row was processed; otherwise the row is created or marked, the user gets one email with the job's title and message, and that row is published to the job's user |
| NotificationHub.StreamsGetWhatIsDue | apps/backend/src/modules/notifications/notificationStreamHub.ts:28-74 | after any opens, cancels and dispatches, each stream has received exactly the well-formed events for its user between its opening and its first cancel, in order |
| NotificationHub.StreamHub.Start | apps/backend/src/modules/notifications/notificationStreamHub.ts:48-58 | opening keeps the map grouping exactly the open streams by user, with no empty sets |
| NotificationHub.StreamHub.CancelStream | apps/backend/src/modules/notifications/notificationStreamHub.ts:65-73 | cancelling, also repeatedly, keeps that grouping and drops an emptied set |
| NotificationHub.StreamHub.DispatchMessage | apps/backend/src/modules/notifications/notificationStreamHub.ts:28-39 | the loop over the user's set delivers an event once to every stream open for that user and to no other |
| ResumeUpload.ObjectsConserved | apps/backend/src/modules/resumes/resume.service.ts:27-73 | in every interleaving with failures and crashes the stored objects are exactly those of rows, of uploads in flight and of uploads whose cleanup failed or never ran, these three being disjoint |
| ResumeUpload.RowsAreUniqueAndBacked | apps/backend/src/modules/resumes/resume.service.ts:36-58 | no candidate and hash have two rows, every row's object is present, refused uploads leave no row, a conflict means that there is a row for that candidate and hash, and a resume is queued for parsing at most once |
| ResumeUpload.ResumeService.UploadResume | apps/backend/src/modules/resumes/resume.service.ts:27-73 | an undisturbed upload gives the first refusal that applies, each with its exact condition; a success adds one row, one object and the parse job; a refusal adds no row, and an object only if its delete failed |
| ResumeUpload.ResumeService.CreateRow | apps/backend/src/modules/resumes/resume.service.ts:44-59 | the insert: a row exactly if the call succeeds and the candidate and hash have none; otherwise the clean-up as a conflict or a failure |
| ResumeUpload.ResumeService.DeleteObject | apps/backend/src/modules/resumes/resume.service.ts:54 | the compensating delete: the object goes, or stays behind as an orphan when the delete fails |
| ResumeParser.ResumeLifecycle | apps/backend/src/workers/resume-parser.worker.ts:49-92 | over all attempts, throws, crashes and hook calls: stored data is the extraction of the file, PARSED has data, FAILED has an error and a job that is over, and a job that is over leaves FAILED unless its hook is pending, was never called or could not write |
| ResumeParser.RunKeepsFile | apps/backend/src/workers/resume-parser.worker.ts:56-87 | the row keeps its file and never returns to UPLOADED |
| ResumeParser.FailedIsFinal | apps/backend/src/workers/resume-parser.worker.ts:105-112 | once FAILED, no further delivery and no further change |
| ResumeParser.ParsedDeliveryWritesNothing | apps/backend/src/workers/resume-parser.worker.ts:50-54 | a delivery starting on PARSED completes at its first read and writes nothing |
| ResumeParser.ParsedDataSurvives | apps/backend/src/workers/resume-parser.worker.ts:83-91 | after PARSED the data never changes; the status can only become FAILED |
| ResumeParser.ParsedIsLeftOnlyByTheHook | apps/backend/src/workers/resume-parser.worker.ts:105-112 | PARSED is left exactly when a pending failure hook writes; the attempt that failed then threw at the backfill's lookup or at a redelivery's first read |
| ResumeParser.LastAttemptOnParsed | apps/backend/src/workers/resume-parser.worker.ts:25 | on a PARSED resume a throw leaves such a hook pending exactly on the last attempt, and the hook then writes FAILED with that error and nothing else |
| ResumeParser.BackfillLookupCanFailAParsedResume | apps/backend/src/workers/resume-parser.worker.ts:89-112 | with the default options of every parse job: four attempts throw, the fifth stores the data and its backfill lookup throws, and the resume ends FAILED with its data stored |
| ResumeParser.PhoneReplacedExactly | apps/backend/src/workers/resume-parser.worker.ts:25-31 | in every run with profile updates and other backfills in between, a step of the worker replaces a given phone by another if and only if its backfill write succeeds and that phone was stored after the lookup, which had found none |
| ResumeParser.BackfillOverwritesNewerPhone | apps/backend/src/workers/resume-parser.worker.ts:25-31 | this happens: a phone the candidate stores between lookup and write is overwritten |
| ResumeParser.ParseProcessor.LookUpCandidate | apps/backend/src/workers/resume-parser.worker.ts:25-28 | the lookup changes nothing and goes on to the write exactly for an existing candidate without a phone |
| ResumeParser.ParseProcessor.UpdatePhone | apps/backend/src/workers/resume-parser.worker.ts:30-40 | the write stores the phone whatever is there by then; a refusal is ignored, and the attempt ends |
| ResumeParser.ParseProcessor.BackfillCandidatePhone | apps/backend/src/workers/resume-parser.worker.ts:20-41 | the two awaits with nothing in between: the phone is stored exactly for an existing candidate without one whose write succeeds, and the job completes |
| ResumeParser.ParseProcessor.OnFinalFailure | apps/backend/src/workers/resume-parser.worker.ts:105-112 | the hook writes FAILED and the error without looking at the status, and touches nothing else of the row |
| ResumeParser.ParseProcessor.Process | apps/backend/src/workers/resume-parser.worker.ts:49-92 | an undisturbed attempt on a PDF or DOCX file ends PARSED with the file's text and the extractor's result, and fills the candidate's phone if one was found and they have none; any other file fails the job at once with nothing stored |
| ApplicationRanking.RankingWaitsForParsing | apps/backend/src/workers/application-ranking.worker.ts:45-51 | in every interleaving a ranking is written only from a snapshot without a resume or with a PARSED or FAILED one, and the resume's vector is empty or the embedding of its file's text |
| ApplicationRanking.NoRankingBeforeParsing | apps/backend/src/workers/application-ranking.worker.ts:45-51 | an application is not ranked before its resume's parsing has stored data or an error |
| ApplicationRanking.RankedForever | apps/backend/src/modules/applications/application.repository.ts:119-125 | `rankedAt` is never cleared |
| ApplicationRanking.RankedAtMostOnce | apps/backend/src/workers/application-ranking.worker.ts:34-38 | when deliveries for an application do not overlap, exactly one has written its ranking if it is ranked, and none otherwise |
| ApplicationRanking.CachesAreTransparent | apps/backend/src/workers/application-ranking.worker.ts:57-79 | if each job vector is written for the text still stored, every stored job vector embeds the current text and every stored ranking is the ranking of the texts its delivery read |
| ApplicationRanking.CoherentIffFresh | apps/backend/src/modules/jobs/job.repository.ts:67-81 | for a service that tells texts apart, job vectors are coherent throughout a run if and only if no vector is written for a text that has been edited away |
| ApplicationRanking.QuietEditsAreFresh | apps/backend/src/modules/jobs/job.repository.ts:67-81 | which is so when no content edit lands between a delivery's job read and its vector write |
| ApplicationRanking.EditInBetweenLeavesStaleVector | apps/backend/src/workers/application-ranking.worker.ts:62-65 | an edit in between leaves a stored vector of the old text |
| ApplicationRanking.RankProcessor.UpdateJobEmbedding | apps/backend/src/modules/jobs/job.repository.ts:79-81 | the unconditional write stores the service's answer for the head of the text that was read; coherent when it is fresh |
| ApplicationRanking.RankProcessor.UpdateJob | apps/backend/src/modules/jobs/job.repository.ts:67-77 | an edit changes the given fields, clears the vector when there is one, and keeps everything coherent |
| ApplicationRanking.RankProcessor.Process | apps/backend/src/workers/application-ranking.worker.ts:33-109 | an undisturbed delivery skips, asks for a retry, or stores a ranking: the keyword score of title, description and requirements against skills and raw text, blended 40 to 60 with the rounded similarity of the first 8000 characters of both when there is a service and a raw text; vectors that were needed and missing are stored, and nothing else changes |
| ApplicationRanking.CleanRankingIs | apps/backend/src/workers/application-ranking.worker.ts:53-79 | that is what the ranking function computes, for every job and resume |
| StageRule.OfferedIffAccepted | apps/frontend/components/pipeline/kanban-board.tsx:24-29 | with distinct ids and orders the browser's targets are exactly the ids the backend rule accepts |
| StageRule.OfferedIsAccepted | apps/frontend/components/pipeline/kanban-board.tsx:24-29 | without distinct orders it still never offers a refused stage |
| StageRule.ReachableExactly | apps/backend/src/modules/applications/application.state-machine.ts:11-24 | the stages reachable from the first are just it when it is terminal, else every terminal stage and the non-terminal ones before the first terminal one |
| StageRule.StuckExactly | apps/backend/src/modules/applications/application.state-machine.ts:11-24 | a non-terminal stage is a dead end exactly when it is last and no stage is terminal |
| StageRule.PathsAreShort | apps/backend/src/modules/applications/application.state-machine.ts:11-24 | with fixed flags a path uses up the pipeline: at most n - 1 moves, and only its last stage is terminal |
| JobStages.ParseStagesExactly | apps/backend/src/modules/jobs/job.service.ts:24-42 | a given list is taken over in order exactly when it is not empty, all elements have non-blank names and these differ up to case; the first offending element decides the refusal |
| JobStages.ListAnswered | apps/backend/src/modules/jobs/job.service.ts:19-42 | the answer to any given or absent list: accepted exactly when absent or acceptable, and otherwise the refusal of the first offending element, of the empty list or of repeated names |
| JobStages.NewListStored | apps/backend/src/modules/jobs/job.service.ts:61-66 | an accepted list is stored element by element with ids and orders 1..n; an absent one becomes the six default stages, the last two terminal |
| JobStages.TrimExactly | apps/backend/src/modules/jobs/job.service.ts:35 | trimming drops the white space at both ends and nothing else |
| JobStages.SetSizeCountsNames | apps/backend/src/modules/jobs/job.service.ts:37-40 | the size of the set of lower-cased names detects duplicates exactly |
| JobStages.AddKeepsOk | apps/backend/src/modules/jobs/job.service.ts:131-138 | a stage is added exactly when its name is not blank and new up to case; it comes last, trimmed, in the next order, and the list stays ordered 1..n with distinct names |
| JobStages.UpdateKeepsOk | apps/backend/src/modules/jobs/job.service.ts:154-172 | an update is accepted exactly when the stage exists and a given name is not blank and new up to case among the other stages; it changes the name and the flag of that one stage, each only when given, and keeps the list well-formed |
| JobStages.SortSorts | apps/backend/src/modules/applications/application.service.ts:55 | sorting by order lists the same stages in ascending order |
| JobStages.LowestIs | apps/backend/src/modules/applications/application.service.ts:55-58 | the first stage is one of the list with the lowest order, and is missing only for an empty list |
| Pipeline.HistoryReplays | apps/backend/src/modules/applications/application.repository.ts:37-92 | in every serial run each history is not empty, starts from nowhere at the job's lowest-order stage, links, ends at the current stage, its audit is exactly the rows after the first, and no candidate applied twice to a job |
| Pipeline.RecordsAreSigned | apps/backend/src/modules/applications/application.repository.ts:48-88 | in every serial run each row names the candidate who applied or the recruiter who owns the job, and applications use the candidate's own resumes |
| Pipeline.StageListsStayWellFormed | apps/backend/src/modules/jobs/job.service.ts:107-174 | in every serial run stage lists are not empty, ordered 1..n, with distinct names, current stages are among them, and both refusals for want of stages are unreachable |
| Pipeline.MoveAcceptedExactly | apps/backend/src/modules/applications/application.service.ts:129-159 | a move is accepted exactly when owner, target and rule allow it, and touches no other application |
| Pipeline.MoveRefusedExactly | apps/backend/src/modules/applications/application.service.ts:129-151 | which refusal a move gets, over positions in the stage list, for each in turn |
| Pipeline.JobsOnlyAdvance | apps/backend/src/modules/jobs/job.service.ts:107-124 | in every serial run jobs go from draft to published to closed only; a closed job never changes and gains no application |
| Pipeline.OfferedMovesAreAccepted | apps/frontend/components/pipeline/kanban-board.tsx:24-29 | in every serial run the browser offers the owner exactly the moves the service accepts |
| Pipeline.ClearedFlagReopens | apps/backend/src/modules/jobs/job.service.ts:168-170 | clearing the flag lets the owner of any open job move an application out of it |
| Pipeline.PipelineService.Create | apps/backend/src/modules/jobs/job.service.ts:54-67 | the answer to the given list; when accepted, one more job, a draft of that recruiter with exactly the given stages, trimmed and numbered, or the default ones; otherwise nothing changes |
| Pipeline.PipelineService.Publish | apps/backend/src/modules/jobs/job.service.ts:107-116 | the first of missing, foreign, not a draft and without stages that applies is the refusal; otherwise that job alone becomes published |
| Pipeline.PipelineService.Close | apps/backend/src/modules/jobs/job.service.ts:118-124 | the first of missing, foreign and closed already that applies is the refusal; otherwise that job alone becomes closed |
| Pipeline.PipelineService.AddStageTo | apps/backend/src/modules/jobs/job.service.ts:126-141 | each refusal with its condition; otherwise the trimmed stage is appended in the next order to that job alone |
| Pipeline.PipelineService.UpdateStageOf | apps/backend/src/modules/jobs/job.service.ts:143-174 | each refusal with its condition; otherwise name and flag of that stage alone change, each only when given |
| Pipeline.PipelineService.ApplyToJob | apps/backend/src/modules/applications/application.service.ts:26-80 | each refusal with its condition, changing no table; otherwise exactly one application in a stage of lowest order, its first history row, and a rank job exactly if it could be queued |
| Pipeline.PipelineService.MoveToStage | apps/backend/src/modules/applications/application.repository.ts:62-92 | the transaction: from the current stage of an application whose history links, the history grows by one linked and audited row and still replays to the new stage; all other applications, histories and audits stay as they were |
| Pipeline.PipelineService.MoveApplicationToStage | apps/backend/src/modules/applications/application.service.ts:124-159 | each refusal with its condition, changing no table; otherwise the stage of that application, one history row and one audit entry |
| PipelineRaces.HistoryInEveryInterleaving | apps/backend/src/modules/applications/application.service.ts:124-159 | in every interleaving of all requests a history begins at the job's first stage, each later row comes from an earlier row's stage, the last row is the current stage, the audit matches, applications stay unique, and stages stay ordered 1..n |
| PipelineRaces.RecordsAreSigned | apps/backend/src/modules/applications/application.repository.ts:48-88 | in every interleaving each row names the candidate who applied or the recruiter who owns the job |
| PipelineRaces.QueuedExactly | apps/backend/src/modules/applications/application.service.ts:76-83 | in every interleaving an application is queued for ranking if and only if the request that inserted it could queue its rank job, and every application was inserted by a request |
| PipelineRaces.AddLandsNext | apps/backend/src/modules/jobs/job.service.ts:137-138 | a stage insert that passes the unique index over orders comes last, whatever was added since its request read the list |
| PipelineRaces.LinkedIffTimely | apps/backend/src/modules/applications/application.service.ts:134-159 | a history links if and only if each move was committed while the application still was in the stage the move had read |
| PipelineRaces.OneMoveAtATimeLinks | apps/backend/src/modules/applications/application.service.ts:134-159 | it links when the moves of that application do not overlap, whatever else interleaves |
| PipelineRaces.RacingMovesLeaveTerminal | apps/backend/src/modules/applications/application.service.ts:134-159 | from any stage with an accepted terminal and an accepted next one, two overlapping moves reach the terminal stage, leave it again, and break the link |
| PipelineRaces.UndisturbedMoveIsSerial | apps/backend/src/modules/applications/application.service.ts:124-159 | the steps of a move performed at once are the serial request |
| PipelineRaces.UndisturbedApplyIsSerial | apps/backend/src/modules/applications/application.service.ts:26-74 | and so for an application |
| PipelineRaces.UndisturbedJobRequestIsSerial | apps/backend/src/modules/jobs/job.service.ts:107-174 | and so for publishing, closing, adding and updating a stage |
| PipelineReads.LeavesTerminalExactly | apps/backend/src/modules/applications/application.service.ts:134-159 | in every interleaving, overlapping moves included, a committing move takes its application out of a terminal stage if and only if, among the moves of that application and the flag changes of the stage it was in that were committed since the move's first read, the last one put it at a terminal stage |
| PipelineReads.TimelyLeavesTerminalExactly | apps/backend/src/modules/applications/application.service.ts:134-159 | when the application still is in the stage the move had read, that comes down to the last committed update of that stage's flag since the read: it raised the flag |
| PipelineReads.ClosedAtCommitExactly | apps/backend/src/modules/jobs/job.service.ts:107-174 | an unfinished application, publication, closing or stage change finds its job closed if and only if, since that request has read it, a closing was committed and no publication after the closing |
| PipelineReads.InsertedOnClosedExactly | apps/backend/src/modules/applications/application.service.ts:29-74 | an application is inserted on a closed job if and only if, between the request's job read and its insert, a closing was committed and no publication after it |
| PipelineReads.ApplicationsReachClosedJobs | apps/backend/src/modules/applications/application.service.ts:29-74 | this happens for any published job |
| PipelineReads.RacingPublishReopens | apps/backend/src/modules/jobs/job.service.ts:107-116 | a publication that had read the draft reopens a job closed in between |
| PipelineReads.NamesStayDistinctExactly | apps/backend/src/modules/jobs/job.service.ts:131-167 | in every interleaving the stage names of each job stay distinct up to letter case if and only if every stage write that goes through finds its name still free |
| PipelineReads.RacingRenamesCollide | apps/backend/src/modules/jobs/job.service.ts:160-172 | two stages renamed at once can end with names that differ in letter case only |
| PipelineBudget.SerialMovesBounded | apps/backend/src/modules/applications/application.state-machine.ts:11-24 | serial requests: an application makes at most (toggles + 1) * (n - 1) moves, n being its job's final number of stages and toggles the number of flag changes in it |
| PipelineBudget.SerialTerminalEntriesBounded | apps/backend/src/modules/jobs/job.service.ts:168-170 | serial requests: it enters a terminal stage at most once more than flags are changed |
| PipelineBudget.SerialTerminalIsFinal | apps/backend/src/modules/jobs/job.service.ts:168-170 | serial requests: between flag changes a terminal stage is never left and nothing is logged |
| PipelineBudget.SerialStaysInReach | apps/backend/src/modules/applications/application.state-machine.ts:11-24 | serial requests: while no flag of a job changes, even as stages are added, its applications are only in stages the reachability theorem allows |
| PipelineRaceBudget.UndisturbedMovesAreSound | apps/backend/src/modules/applications/application.service.ts:129-159 | in every interleaving, when the moves of an application do not overlap and no flag of its job changes while one is unfinished, each of them would be accepted again at the moment it commits |
| PipelineRaceBudget.UndisturbedBudget | apps/backend/src/modules/applications/application.service.ts:129-159 | under that condition, from any moment on: at most (toggles + 1) * (n - 1) moves, terminal stages entered at most once more than flags are changed, and a terminal stage final between flag changes |
| PipelineRaceBudget.MovesBounded | apps/backend/src/modules/applications/application.state-machine.ts:11-24 | in every interleaving, from any moment on: at most (toggles + 1) * (n - 1) + unsound * n moves, unsound counting the moves of that application that would no longer have been accepted when they committed |
| PipelineRaceBudget.TerminalEntriesBounded | apps/backend/src/modules/jobs/job.service.ts:168-170 | in every interleaving a terminal stage is entered at most once more than flags are changed and unsound moves committed |
| PipelineRaceBudget.TerminalIsFinalBetweenToggles | apps/backend/src/modules/jobs/job.service.ts:168-170 | in every interleaving a terminal stage is never left and nothing is logged while no flag changes and no unsound move commits |
| PipelineRaceBudget.StaysInReach | apps/backend/src/modules/applications/application.state-machine.ts:11-24 | and an application then stays in the stages the reachability theorem allows, even as stages are added |
| PipelineRaceBudget.InsertedInReach | apps/backend/src/modules/applications/application.service.ts:44-74 | where it is from the moment it is inserted, in any interleaving |
| PipelineRaceBudget.FlagRaisedDuringMove | apps/backend/src/modules/applications/application.service.ts:134-159 | a single move can leave a terminal stage: its flag is raised between the move's read and its commit |
| Dashboard.CountsAreConserved | apps/backend/src/modules/dashboard/dashboard.repository.ts:11-54 | in one snapshot the per-stage counts sum to the recruiter's total, which is active plus terminal |
| Dashboard.CountsAreSizes | apps/backend/src/modules/dashboard/dashboard.repository.ts:11-13 | the three counts are the numbers of the recruiter's applications, of those in a non-terminal stage, and of those in a terminal one |
| Dashboard.StagesListedExactly | apps/backend/src/modules/dashboard/dashboard.repository.ts:15-27 | the list has an entry for exactly the stages of the recruiter's jobs, or of the one asked for, each with its id, name, flag and number of applications |
| Dashboard.CountsConservedInEveryRun | apps/backend/src/modules/dashboard/dashboard.repository.ts:11-54 | and this after every serial run |
| Dashboard.CountsConservedInEveryInterleaving | apps/backend/src/modules/dashboard/dashboard.repository.ts:11-54 | and at every single moment of every interleaving of requests |
| Dashboard.OverviewExactly | apps/backend/src/modules/dashboard/dashboard.service.ts:12-33 | with the four queries at any four moments of a run, in any order: the stages differ from the total exactly by the applications inserted in between; active plus terminal differs by those and by the applications that entered or left a terminal stage in between |
| Dashboard.MoveIsCountedTwice | apps/backend/src/modules/dashboard/dashboard.service.ts:12-33 | an application moved to a terminal stage between the two queries is counted as active and as terminal |
| Dashboard.MomentsOfOneRun | apps/backend/src/modules/dashboard/dashboard.service.ts:35-63 | any two moments of an interleaved run are such as the job listing assumes of its two reads: well placed, with jobs, stages and applications only added |
| Dashboard.GetJobPipeline | apps/backend/src/modules/dashboard/dashboard.service.ts:35-63 | with the job read and the counts taken at different moments: each stage of an owned job once, by order, with its id, name and flag of the first moment and its applications at the second; the total is their sum |
| Dashboard.ListedTotalExactly | apps/backend/src/modules/dashboard/dashboard.service.ts:35-63 | that total is all applications of the job if and only if none is in a stage added between the two reads |
| Dashboard.AggregateByStageName | apps/frontend/components/dashboard/applications-by-stage-chart.tsx:36-42 | each name once, by first occurrence, with its summed count, and the total kept |
| Keywords.KeywordsAreRuns | apps/backend/src/modules/ranking/deterministicScore.ts:14-20 | the keywords are distinct and exactly the lower-cased maximal runs of token characters of length at least 3 that are no stop words |
| Keywords.PiecesAreRuns | apps/backend/src/modules/ranking/deterministicScore.ts:14-16 | the non-empty pieces of the split are exactly the maximal runs of token characters |
| Keywords.WordCharsAre | apps/backend/src/modules/ranking/deterministicScore.ts:17 | the token characters are the small letters, the digits and + . # |
| Keywords.LowerAt | apps/backend/src/modules/ranking/deterministicScore.ts:16 | lower-casing maps each capital to its small letter and leaves the rest |
| Keywords.KeywordsInFirstOccurrenceOrder | apps/backend/src/modules/ranking/deterministicScore.ts:14-20 | they are listed by first occurrence in the text |
| Keywords.KeywordsOfJoinedTexts | apps/backend/src/workers/application-ranking.worker.ts:57 | texts joined by blank lines give the parts' keywords one after the other, without repetitions |
| Keywords.KeywordsOfThreeTexts | apps/backend/src/workers/application-ranking.worker.ts:57 | so a job's keywords are those of its title, description and requirements |
| Keywords.ExtractionRoundTrip | apps/backend/src/modules/ranking/deterministicScore.ts:14-20 | extracting again from the keywords joined by spaces gives the same list |
| DeterministicScore.PercentageExactly | apps/backend/src/modules/ranking/deterministicScore.ts:39 | the rounded percentage, pinned down by integer inequalities |
| DeterministicScore.PercentageEnds | apps/backend/src/modules/ranking/deterministicScore.ts:39 | it is 100 exactly when 200 times the unmatched keywords are at most all of them, and 0 exactly when 200 times the matched ones are fewer |
| DeterministicScore.ScoreExactly | apps/backend/src/modules/ranking/deterministicScore.ts:27-42 | the score is the rounded percentage of the job's keywords that are a lower-cased skill or a keyword of the text; these are listed once each in the job's order |
| DeterministicScore.ScoreBounds | apps/backend/src/modules/ranking/deterministicScore.ts:27-42 | the score is in 0..100; below 200 keywords it is 100 exactly when all match, up to 200 it is 0 exactly when none do; matched keywords are the common ones |
| DeterministicScore.RoundingThresholds | apps/backend/src/modules/ranking/deterministicScore.ts:39 | both thresholds are sharp |
| DeterministicScore.ScoreMonotone | apps/backend/src/modules/ranking/deterministicScore.ts:27-42 | more skills or more text after a blank line never lower the score |
| DeterministicScore.BlendExactly | apps/backend/src/workers/application-ranking.worker.ts:23-24 | the blend is 40% and 60%, rounded, pinned down by integer inequalities |
| DeterministicScore.BlendBetween | apps/backend/src/workers/application-ranking.worker.ts:76-79 | it lies between its two inputs |
| DeterministicScore.BlendMonotone | apps/backend/src/workers/application-ranking.worker.ts:76-79 | and is monotone in both |
| CosineSimilarity.CauchySchwarz | apps/backend/src/modules/ranking/cosineSimilarity.ts:11-18 | the accumulators satisfy dot^2 <= normA * normB for all vectors of equal length |
| CosineSimilarity.UpperClampIsIdle | apps/backend/src/modules/ranking/cosineSimilarity.ts:24-25 | the result is the quotient when the dot product is positive and 0 otherwise, so the upper clamp changes nothing; its square is dot^2 / (normA * normB) |
| CosineSimilarity.DotWithUnit | apps/backend/src/modules/ranking/cosineSimilarity.ts:14-18 | the dot product with a unit vector is that component |
| CosineSimilarity.DotAdds | apps/backend/src/modules/ranking/cosineSimilarity.ts:14-18 | and it is additive, so every pair of components counts once |
| CosineSimilarity.Symmetric | apps/backend/src/modules/ranking/cosineSimilarity.ts:6-26 | the similarity is symmetric |
| CosineSimilarity.ScaleInvariant | apps/backend/src/modules/ranking/cosineSimilarity.ts:6-26 | and unchanged by positive scaling of either vector |
| CosineSimilarity.SelfSimilarity | apps/backend/src/modules/ranking/cosineSimilarity.ts:6-26 | and 1 for a non-zero vector with itself |
| CosineSimilarity.Cosine | apps/backend/src/modules/ranking/cosineSimilarity.ts:6-26 | the loop computes that similarity, within [0, 1], also for empty and unequal vectors |
| JobRelevance.KeywordsAreTokens | apps/frontend/lib/jobRelevance.ts:4-11 | the backend's keywords are, as a set, the browser's tokens without the stop words |
| JobRelevance.TokensAreRuns | apps/frontend/lib/jobRelevance.ts:4-11 | the tokens are exactly the lower-cased maximal runs of more than two token characters |
| JobRelevance.TokensOfFields | apps/frontend/lib/jobRelevance.ts:23 | the tokens of the joined texts are those of title, description and requirements |
| JobRelevance.SkillCounts | apps/frontend/lib/jobRelevance.ts:26-33 | a token counts once for each skill it occurs in, and is a hit if the job has it |
| JobRelevance.RelevanceBounds | apps/frontend/lib/jobRelevance.ts:20-44 | the estimate is in 0..100, and 100 when all skill tokens are in the job and all job tokens in the resume |
| JobRelevance.WeightedExactly | apps/frontend/lib/jobRelevance.ts:40-43 | 70 parts skill hits and 30 parts overlap, rounded, and without skills 30 parts overlap alone, pinned down by integer inequalities |
| JobRelevance.ScoreJobRelevance | apps/frontend/lib/jobRelevance.ts:20-44 | the counting loops compute it: 0 without parsed data or job tokens, else 70 parts skill hits over skill tokens and 30 parts overlap over job tokens, rounded, without skill tokens the overlap alone |

## Left out

- HTTP routing, authentication, error middleware, request parsing and the React components: plumbing over libraries.
- Interviews (`apps/backend/src/modules/interviews/interview.service.ts`): one status check before each update, which would only add easy members.
- The input validators for titles, dates, e-mail addresses and uploaded files: single-branch checks. A job request is assumed to have passed the title, description and requirements checks; an upload's check is one flag.
- Prisma, Redis, BullMQ, the object store, PDF and DOCX extraction and the model service: tables, a retrying scheduler, a key set, and deterministic functions passed as parameters. A call either happens or does not; an ambiguous failure (a write that took effect although its caller saw an error) is not modelled.
- BullMQ's limit on stalled jobs: a crashed attempt is always redelivered, so a job fails for good only by throwing.
- Deletion of users, candidates, jobs and applications with its cascades: rows are never removed. A missing application, job or resume is modelled only where a worker or service checks for it.
- Floating-point rounding: scores and similarities are over the reals, and the square root is a parameter assumed to be one.
- Unicode: lower-casing and white space are ASCII.
- The LLM rationale and the ranking explanation stored beside the score, move reasons, timestamps, notification wording, and the notifications that requests send: none affects the state modelled here.
- Uniqueness of generated ids and storage keys: ids are positions in their tables and a key is its request's number, so they are fresh by construction.
- `notificationStreamHub.ts` heartbeats, and pub/sub messages that are valid JSON but not an event.
- The rank worker has no final-failure hook, so no claim is made that every application is eventually ranked.
- Dashboard figures that depend on the clock (stale applications, time to hire), open jobs and interview counts; each single query is taken from one snapshot.
- `mostRecentParsedResume` in `jobRelevance.ts`: a plain search.
