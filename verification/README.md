# Verified model of the LLM proxy

A Dafny 4.11 model of the stateful cores of an LLM proxy that forwards chat requests, keeps token ids between turns, and
archives what it has stored. `dafny verify dfyconfig.toml` checks it. Nothing here was run against the program.

Each core is a state machine written as functions over values, with one step per answer of the environment (a worker, the
database, the event loop, the next piece of model output). The theorems are about every sequence of such answers. Beside the
machine stands the code in the program's own form, classes and loops that update fields and local variables in place, each
method tied by its contract to the steps it performs.

| module | what it models |
|---|---|
| `ArchiveDispatch`, `ArchivePartition`, `ArchiveHistory`, `ArchiveQueue`, `ArchiveProgram` | the archiver's dispatch loop over crash-prone workers; when it partitions; what it records; in which order it works |
| `ArchiveData`, `ArchiveLoss`, `ArchiveStorage`, `ArchiveLocation` | export, upload and clean-up of archived rows; when rows are lost, when files are overwritten; where they are said to be |
| `ProcessorCache`, `ProcessorLoads`, `ProcessorProgram` | the processor cache, shared tokenizers, and configuration changes during loads; what a request and a registration lead to |
| `ModelSync` | how a worker's model table follows the registry through notifications |
| `HermesParser`, `Qwen3CoderParser`, `Qwen3CoderOutput`, `Qwen3CoderContent`, `Qwen3CoderValues`, `StreamMerge` | streaming tool-call parsers, and the merge of what they stream |
| `ReasoningParser`, `ParserManager`, `PromptCheck`, `LeadingThink` | the reasoning parsers, the three phases of `parse_delta`, the check of the prompt before them, and outputs that begin with `<think>` |
| `TokenConverter`, `PrefixCache` | incremental decoding and the prefix cache over whole sessions |
| `Offload`, `OffloadReady`, `BlobKey` | replacing a large field by a marker, with a background upload |
| `Text` | string searching and trimming |

## What the proofs found

These properties are false of the code. Each has the exact condition under which it holds, or a lemma that gives the failing
case for all inputs of that kind.

- A session can end both archived and failed as soon as there are two workers: the retry counts of deaths seen at collection
  persist into a sweep, so a single refused submission suffices (`PartitionIff`, `RefusedSweepCountsTwice`). The rebuild limit
  reached inside a sweep leaves accepted calls uncollected, in some run of every pool of two or more workers and in none of a
  smaller one (`UncollectedRunIff`, `LeftBehindIff`). These two are the only ways (`PartitionedIff`).
- A row can be deleted without ever having been uploaded, in two ways and no other (`LostIff`, `EveryRowIsKept`). It joins a
  session of the run being archived between the cursor of the session and the clean-up (`LateRowIsLost`). Or a call opens the
  temporary file of another that has not been sent: the path has only the safe names of run and session
  (traj_archiver/session_worker.py:97-99), and all workers share the directory (traj_archiver/archiver.py:342), so two sessions
  with one safe name that are exported at the same time suffice (`SharedTempFileLosesRow`).
- Archived rows can be overwritten in storage. The key of a file has no cycle or date (traj_archiver/session_worker.py:107-114),
  a run can expire again (traj_archiver/archiver.py:270-282), and the upload moves over the file that is there
  (traj_archiver/storage.py:35-40): a session archived in two cycles loses the rows of the first (`SecondCycleReplacesFile`). The
  default run with requests without a session is the everyday instance. Two sessions with one safe name overwrite each other
  within one cycle even when exported one after the other (`SharedFileIsReplaced`, `SameFileIff`); as an empty session id is
  stored as NULL (traj_proxy/serve/routes.py:263-264), NULL and a session that a client calls `_null_session` are such a pair.
  The exact condition is `EveryRowIsStoredIff`.
- A row that commits between the two statements of a clean-up is marked archived with its details still in the table
  (`MismarkedIff`, `RowBetweenIsMarked`).
- A tool call before `</think>` makes the split depend on the chunking (`StreamingAgreesIff`).
- The DeepSeek parser sends the tag of an output that begins with `<think>` to the client when it comes in one delta with other
  tokens (`DeepSeekThinkAgreesIff`).
- Without a reasoning parser and without prompt ids a configured tool parser is never asked (`NoPromptPassesThrough`). After a
  prompt that closes the reasoning, streaming sends everything as content, and the non-streaming extractor, which does not see the
  prompt, only does so in the cases of `ClosedPromptAgreesIff`.
- The Qwen3-Coder parsers disagree on the content of an output with a start tag and no function, and of one with a function and no
  start tag (`ContentAgreesIff`). Streaming drops the first delta behind a closed call even if it is text (`BehindClosedCall`), and
  white space behind a bare end tag (`PlainTextIsSent`).
- A notification or fallback for a cached model leaves a processor with an old configuration in the cache
  (`FreshThroughoutIff`, `NotificationMakesStale`); a raising constructor keeps its tokenizer in memory for good
  (`RaisingConstructorLeaks`, `LeakIsForGood`).
- A failed unregistration or roll-back leaves a worker different from the registry without any notification to repair it
  (`FailedWriteAgreesIff`, `FailedDeleteDisagrees`).
- An upload that fails is never repeated, and a fetch of its data is told to wait for ever (`FailedUploadNeverReady`).
- Cancelling the inner insert leaves the marker in the context (`CancelledKeepsMarker`): the comment at
  traj_proxy/store/decorators/offloading_repository.py:194-199 promises a restore for every failure, but only exceptions below
  `Exception` are caught.
- With a start tag and a body that is not a valid call, the non-streaming Hermes extractor returns the whole text as content, the
  streaming one the text before the tag (`ContentAgreesWithNonStreaming`).
- A record stored without response ids does not decode to its text (`StoredIsConsistentIff`).
- The abort branch of the archiver's first fill cannot be reached (`FillNeverAborts`), and neither can the loops that cancel other
  tasks of a dead worker (`CancelLoopsNeverFire`).

Blob keys are not on this list: sanitising maps different ids to one key (`UnsafeIdCollides`), but request ids are uuids, for which
keys never collide (`SafeIdsKeepKeysApart`, `ReadyMeansOriginal`).

## Model

| member | source | states |
|---|---|---|
| ArchiveDispatch.SessionsConserved | traj_archiver/archiver.py:437-736 | In every reachable state of every run, whatever the workers answer, the sessions that wait, run, are archived or were given up are together exactly the sessions of the run, each once; whatever was given up is recorded as failed; a finished run has nothing left waiting, the rebuild-limit exit and the empty pool included. |
| ArchiveDispatch.FinishedPartition | traj_archiver/archiver.py:437-736 | If death shows only when a result is collected (no submission of a sweep raises), or there is at most one worker, a finished run has put every session exactly once into exactly one of archived and failed, and no call is left running. |
| ArchivePartition.PartitionedIff | traj_archiver/archiver.py:503-550 | Exactly which finished runs partition: every session is once in exactly one of archived and failed, and no call is left running, if and only if no sweep hands on a session whose failures have reached the cap and none is aborted at the rebuild limit with calls running. |
| ArchivePartition.StepSound | traj_archiver/archiver.py:437-736 | Every other answer keeps the failure record exact. |
| ArchivePartition.StepSpoilt | traj_archiver/archiver.py:503-550 | After one of the two no answer can repair the record: a session stays recorded more often than it was given up, or a call stays uncollected. |
| ArchiveDispatch.PartitionIff | traj_archiver/archiver.py:503-550 | All runs with all sessions and answers partition exactly when the pool has at most one worker. |
| ArchiveDispatch.RefusedSweepCountsTwice | traj_archiver/archiver.py:509-549 | For every pool of two or more workers and every session, a run in which a refused submission of a sweep brings the session to the retry cap and the next worker of the same sweep accepts it: the session ends both failed and archived. |
| ArchiveDispatch.UncollectedRunIff | traj_archiver/archiver.py:526-535 | A finished run has left calls that nobody collects exactly when its last answer is a refused submission of a sweep that reaches the rebuild limit while submissions accepted before it are still running. |
| ArchiveDispatch.LeftBehindIff | traj_archiver/archiver.py:503-535 | Some run with some sessions ends that way exactly when the pool has at least two workers. |
| ArchiveDispatch.CallIsLeftBehind | traj_archiver/archiver.py:503-535 | Such a run for every pool of two or more workers: refused submissions bring the rebuild counter one below its limit, a sweep hands one session over and the next submission is refused. |
| ArchiveDispatch.UncollectedIff | traj_archiver/archiver.py:526-535 | The step behind it: from any state of the invariant, an answer ends the run with active calls exactly in that case. |
| ArchiveDispatch.PoolIsSafe | traj_archiver/archiver.py:219-262 | Over every run the pool keeps its size and stays pairwise distinct, every busy worker is in it and has one task, and no index of a worker to replace is ever missed. |
| ArchiveDispatch.CancelLoopsNeverFire | traj_archiver/archiver.py:591-638 | In every reachable state the loops that cancel other tasks of a dead worker find no such task, so a death concerns the one session of its call. |
| ArchiveDispatch.RetriesAndRebuildsBounded | traj_archiver/archiver.py:448-462 | A session is accepted by workers at most three times; fewer than 3W workers are rebuilt between two successes, and at most (successes + 1)(3W - 1) in the whole run. |
| ArchiveDispatch.RunsAreBounded | traj_archiver/archiver.py:501-690 | Apart from waits that time out, the number of submissions and completions of any run is bounded by a fixed function of the number of sessions and workers, so a run whose calls complete ends. |
| ArchiveDispatch.NeverStuck | traj_archiver/archiver.py:501-571 | A run that is not finished is waiting for an answer that can come; a finished one accepts none. |
| ArchiveDispatch.StepKeepsInv | traj_archiver/archiver.py:464-690 | One answer keeps the whole invariant: pool safety, conservation of sessions, retry caps and the rebuild ledger; and the strict partition unless the answer is a refused submission of a sweep with two or more workers. |
| ArchiveDispatch.ExecKeepsInv | traj_archiver/archiver.py:464-690 | The same for any sequence of answers. |
| ArchiveDispatch.StartInv | traj_archiver/archiver.py:436-469 | The invariant holds before the first submission, for every list of distinct workers and distinct sessions. |
| ArchiveDispatch.OnFillKeeps | traj_archiver/archiver.py:464-497 | One submission of the first fill keeps the invariant. |
| ArchiveDispatch.FillNeverAborts | traj_archiver/archiver.py:473-489 | In every reachable state of the first fill a refusal stays below the rebuild limit, so its abort branch can never be reached. |
| ArchiveDispatch.OnSweepKeeps | traj_archiver/archiver.py:503-550 | One submission of a sweep keeps the invariant, whether accepted, refused, or refused at the rebuild limit. |
| ArchiveDispatch.DropKeeps | traj_archiver/archiver.py:533-549 | The filter after a sweep loses no session, leaves only sessions that may be retried in the queue, and keeps the failure record exact. |
| ArchiveDispatch.OnRefillKeeps | traj_archiver/archiver.py:654-690 | Handing the next session to a worker that has just succeeded keeps the invariant, also when that worker has died. |
| ArchiveDispatch.OnDeathKeeps | traj_archiver/archiver.py:578-638 | A death or a result that times out keeps the invariant, below and at the rebuild limit. |
| ArchiveDispatch.OnBrokenKeeps | traj_archiver/archiver.py:640-650 | The step on an exception of the archiving itself keeps the invariant and the exactness of the failure record. |
| ArchiveDispatch.OnArchivedKeeps | traj_archiver/archiver.py:574-577 | A success keeps the invariant, with its bound on the rebuilds since the last success. |
| ArchiveDispatch.FinishKeeps | traj_archiver/archiver.py:692-727 | The book-keeping after the loop empties the queue, leaves running calls alone, and keeps the invariant and the exactness of the failure record. |
| ArchiveDispatch.PoolRebuild | traj_archiver/archiver.py:219-262 | Replacing an idle worker by a new one keeps the pool distinct and every other worker in its place. |
| ArchiveDispatch.StepCounts | traj_archiver/archiver.py:464-690 | Every answer except a wait that timed out is counted once as a submission, a refusal or a completion. |
| ArchiveHistory.RecordIsHistory | traj_archiver/archiver.py:437-736 | Over every run, read off the answers alone: the archived sessions are those of the answers with a result, in that order, so as many as there are such answers; a session whose call raised is failed and not archived; the retry count of a session is the number of failures answered for it, and the rebuild counter the number since the last success. |
| ArchiveHistory.GivenUpOnlyFor | traj_archiver/archiver.py:509-650 | A session is given up only for a reason: its call raised, it failed three times, or the failures in a row reached the rebuild limit. |
| ArchiveHistory.StepRecorded | traj_archiver/archiver.py:464-690 | Each answer is recorded as what it is: a result archives the session of its call and nothing else, an exception gives it up, a death or refusal counts against it; and a dead worker leaves the pool for a new one. |
| ArchiveHistory.RunDone | traj_archiver/archiver.py:574-577 | From any state, with or without the invariant, what a run archives are the sessions of the answers with a result. |
| ArchiveQueue.StepQueued | traj_archiver/archiver.py:464-690 | Every answer in every reachable state: an accepted submission takes the first session that waits, to the worker that was asked; a session that failed goes behind all others unless it is given up; nothing else changes the order, but for the sessions over the cap that a sweep drops. |
| ArchiveQueue.HandedOutInOrder | traj_archiver/archiver.py:464-690 | Over every run without a refusal and without a death, in whatever order the calls finish: the sessions are handed out in the order of the list. |
| ArchiveProgram.Dispatch.FillWorkers | traj_archiver/archiver.py:464-497 | The first loop, from its local variables, reaches the state that the answers consumed by it lead to. |
| ArchiveProgram.Dispatch.SweepWorkers | traj_archiver/archiver.py:503-550 | The sweep loop with its break and the filter behind it; it says whether the rebuild limit ended the main loop. |
| ArchiveProgram.Dispatch.DropOverCap | traj_archiver/archiver.py:533-549 | The two comprehensions after a sweep: the queue keeps the sessions below the cap in order, and those at the cap that are not yet recorded are recorded. |
| ArchiveProgram.Dispatch.HandleDone | traj_archiver/archiver.py:571-690 | One finished call: result, death, timeout or exception, and the refill; what each of them records is `ArchiveHistory.StepRecorded`. |
| ArchiveProgram.Dispatch.HandleDeath | traj_archiver/archiver.py:578-638 | The death branch with its counters, the rebuild and the retry decision. |
| ArchiveProgram.Dispatch.CancelOthers | traj_archiver/archiver.py:591-638 | The loop over a copy of the active calls leaves exactly those of other workers, in order, and retries or records the rest in order. |
| ArchiveProgram.Dispatch.RebuildWorker | traj_archiver/archiver.py:219-262 | `_rebuild_worker_in_list` on a worker of the list. |
| ArchiveProgram.Dispatch.FailAll | traj_archiver/archiver.py:473-489 | The abort of the first fill: every waiting session is counted and recorded as failed. |
| ArchiveProgram.Dispatch.FailRest | traj_archiver/archiver.py:695-727 | The loops behind the main loop: every waiting session that is not recorded yet is recorded once. |
| ArchiveProgram.Dispatch.ArchiveRun | traj_archiver/archiver.py:436-736 | The whole function up to the statistics: it ends, consumes all answers, ends in the state of the run, archives exactly the sessions whose calls were answered with a result, in that order, and raises exactly when nothing was archived and something failed. |
| ArchiveProgram.ArchiveSessions | traj_archiver/archiver.py:403-736 | For the caller: the archived sessions are those whose calls were answered with a result, each at most once; a session whose call raised is among the failed and not among the archived; with at most one worker archived and failed together are the sessions of the run. |
| ArchiveLoss.EveryRowIsKept | traj_archiver/archiver.py:760-832 | For every interleaving of arrivals, queries, writes, uploads, failures, crashes, lost replies and clean-ups, with any number of workers and cycles and one shared directory of temporary files: if no row is late and no query clashes, each row that ever arrived is in the details table or was, with its body, in a file that was uploaded. |
| ArchiveLoss.LostIff | traj_archiver/session_worker.py:97-142 | In every state reached without late rows and clashes, a step can lose a row by what follows, with nothing else late and no other clash, exactly if it is one of the two. Late: a row joins a session of the current run that was archived or has a call that can still succeed. Clash: a query opens a temporary file that a call the coordinator waits for has not sent yet, or that another call is still writing, and a row of the disturbed call was never uploaded. |
| ArchiveLoss.SharedTempFileLosesRow | traj_archiver/session_worker.py:97-142 | For any two sessions of a run with one file name, a reachable run in which both rows arrive before the run is archived: the second call truncates the file that the first has written, the first sends an empty file and succeeds, and the clean-up deletes its row, which was never uploaded. |
| ArchiveLoss.LateRowIsLost | traj_archiver/archiver.py:779-832 | The reachable case for every run and session: a second row arrives between the cursor and the upload of the first, and can be lost. |
| ArchiveLoss.StepKeepsRows | traj_archiver/session_worker.py:84-142 | Each step that is neither late nor a clash keeps: a call the coordinator waits for has saved its session, or has lost its file and will fail, or has an undisturbed file with every active row; rows of archived sessions and of a running clean-up are saved. |
| ArchiveLoss.UploadedIsSafe | traj_archiver/session_worker.py:107-114 | Such a call sends every active row of its session. |
| ArchiveStorage.EveryRowIsStored | traj_archiver/session_worker.py:101-142 | For every such run, if no row is late and no query overwrites: each row is in the details table or in the stored file of its session. Overwriting is a condition on the moment a query opens its file, below. |
| ArchiveStorage.EveryRowIsStoredIff | traj_archiver/session_worker.py:101-142 | In every state reached without late rows and overwriting queries, a step can lead to a row that is in neither table nor file exactly if it is one of the two. A query overwrites if a call the coordinator waits for would send the wrong file; or the new call would; or a deleted row, or one whose session was sent in this cycle, has its stored file under that key and the new call lacks the row, or another call would send the file first. |
| ArchiveStorage.OnceArchivedIsStored | traj_archiver/session_worker.py:101-142 | It holds for every run without late rows in which exported sessions have different files, and each is exported by one call at a time and only before any of its rows was archived. |
| ArchiveStorage.SecondCycleReplacesFile | traj_archiver/session_worker.py:107-114 | A reachable run with one session, nothing late and no clash, in which the session is archived in two cycles: the row of the first cycle ends in neither table nor storage, as the key has no cycle or date. |
| ArchiveStorage.SharedFileIsReplaced | traj_archiver/session_worker.py:107-114 | For any two sessions of a run with one file name, a reachable run that archives them one after the other in one cycle, with nothing late and no clash, after which the row of the first is in neither table nor storage. |
| ArchiveStorage.StepKeepsFiles | traj_archiver/session_worker.py:84-142 | Each step that is neither late nor overwriting keeps: rows that need their stored file are in it, and whatever a call under way may send has them. |
| ArchiveStorage.UploadHas | traj_archiver/session_worker.py:107-114 | An upload sends every row that needs the file it replaces, and every active row of its session if the coordinator waits for it. |
| ArchiveData.MarkedIffGone | traj_archiver/archiver.py:814-832 | In every run, late rows included, a metadata row has an archive location exactly when its detail row is gone, NULL sessions included, if no row of a session of a clean-up commits between its DELETE and its UPDATE. |
| ArchiveData.MismarkedIff | traj_archiver/archiver.py:814-832 | In every state reached without such rows, a step can lead to a wrong mark, with no other such row, exactly if it is one. |
| ArchiveData.RowBetweenIsMarked | traj_archiver/archiver.py:814-832 | The reachable case for every run and session: the row is marked archived while its details stay in the table. |
| ArchiveData.SameFileIff | traj_archiver/session_worker.py:50-51 | Two sessions have the same file exactly when the safe forms of their runs and of their displayed names are equal. |
| ArchiveData.NullSessionsShareAFile | traj_archiver/session_worker.py:91-93 | The NULL session, the empty session id (which the routes turn into NULL) and the placeholder name all have the same file. |
| ArchiveLocation.SafePathIs | traj_archiver/session_worker.py:50-51 | The safe form of an id differs from it exactly by an underscore for each comma and slash. |
| ArchiveLocation.PlainIsKept | traj_archiver/session_worker.py:50-51 | An id is left alone exactly if it has neither. |
| ArchiveLocation.KeyLiesInRun | traj_archiver/session_worker.py:92-114 | The file of a session lies directly in the directory of its run under its safe name; for plain ids the key is run, slash, session and the suffix. |
| ArchiveLocation.MarkedRowIsLocated | traj_archiver/archiver.py:761-831 | In every reachable state a marked row names the directory of its own run, in which the file of its session lies. |
| ArchiveData.StepKeepsData | traj_archiver/session_worker.py:84-142 | Each step keeps: tables, temporary and stored files hold rows as they arrived; a growing file has one writer and holds its rows; a session has one call at a time that the coordinator waits for; a clean-up deletes rows of exported sessions. |
| ArchiveData.DueIsDeleted | traj_archiver/archiver.py:746-832 | A row whose session was sent, was archived or is being cleaned up can be deleted without any further upload. |
| ArchiveData.Undisturbed | traj_archiver/session_worker.py:84-142 | A call whose file nobody else touches stores exactly the rows of its cursor and archives its session, and leaves nothing behind. |
| ArchiveData.StoresEachRowOnce | traj_archiver/session_worker.py:80-132 | So its file then has each active row of the session exactly once, with its body, and nothing else. |
| ArchiveData.ExportSession | traj_archiver/session_worker.py:188-246 | Fetching in batches of 500 writes every row of the cursor once and in order, and counts them. |
| ArchiveData.SessionArchiveWorker.Archive | traj_archiver/session_worker.py:84-142 | One call on the shared directory and storage: the file is removed in the end, and stored exactly if there are rows. |
| ArchiveData.RequestTables.CleanupRun | traj_archiver/archiver.py:779-832 | The DELETE and the UPDATE touch exactly the rows of the run whose session is in the list, and an empty list touches nothing. |
| ArchiveData.RollBackUndoes | traj_archiver/archiver.py:800-840 | A clean-up that is rolled back has deleted and marked nothing, and until it is the next run cannot begin. |
| ArchiveData.MatchesIsMembership | traj_archiver/archiver.py:800-813 | The three forms of the session filter select exactly the sessions of the list, NULL included. |
| HermesParser.StreamingIsChunkIndependent | traj_proxy/proxy_core/parsers/vllm_compat/tool_parsers/hermes_tool_parser.py:203-273 | However the text is cut: the content sent is the text up to the first tag, or up to what may become one; tool i has at most one header, with the name in its body; and its fragments add up to a prefix of its argument text. |
| HermesParser.ContentAgreesWithNonStreaming | traj_proxy/proxy_core/parsers/vllm_compat/tool_parsers/hermes_tool_parser.py:71-138 | The concatenated content equals the non-streaming content exactly when, with a start tag, every body that the pattern captures is the JSON of a call (otherwise the non-streaming extractor returns the whole text), and without one nothing is held back. |
| HermesParser.CapturesAreRegions | traj_proxy/proxy_core/parsers/vllm_compat/tool_parsers/hermes_tool_parser.py:36-165 | The bodies that the pattern captures are as many as the regions streaming reads, and the same up to white space when closed. |
| HermesParser.ArgumentsAreExact | traj_proxy/proxy_core/parsers/vllm_compat/tool_parsers/hermes_tool_parser.py:173-201 | For a closed object whose last member is the arguments, with named tools before it, every chunking emits one header with the name and exactly the argument value, without the outer brace. |
| HermesParser.ArgumentsValue | traj_proxy/proxy_core/parsers/vllm_compat/tool_parsers/hermes_tool_parser.py:173-189 | What that value is: for `head value gap }` with `head` ending after the key, it is `value`. |
| HermesParser.NameValue | traj_proxy/proxy_core/parsers/vllm_compat/tool_parsers/hermes_tool_parser.py:167-171 | What the name is: for a body with `"name" : "x"`, any white space around the colon and no such key before it, it is x. |
| HermesParser.ArgumentsAre | traj_proxy/proxy_core/parsers/vllm_compat/tool_parsers/hermes_tool_parser.py:173-189 | The arguments in the same terms: for a body that ends in `"arguments" : value }`, they are the value. |
| HermesParser.NoEndTagLeaks | traj_proxy/proxy_core/parsers/vllm_compat/tool_parsers/hermes_tool_parser.py:151-165 | No argument text that reaches the client contains an end tag, whatever the chunking. |
| HermesParser.StepKeepsInv | traj_proxy/proxy_core/parsers/vllm_compat/tool_parsers/hermes_tool_parser.py:203-273 | One delta keeps: the sent index is a function of the text alone, and for every tool what is remembered, what was emitted and what its body says agree. |
| HermesParser.RegionsGrow | traj_proxy/proxy_core/parsers/vllm_compat/tool_parsers/hermes_tool_parser.py:140-165 | A longer text has the old regions: closed ones unchanged, an open one extended. |
| HermesParser.RegionGrows | traj_proxy/proxy_core/parsers/vllm_compat/tool_parsers/hermes_tool_parser.py:150-165 | The body of one region only grows, and is final once its end tag is there. |
| HermesParser.NameStable | traj_proxy/proxy_core/parsers/vllm_compat/tool_parsers/hermes_tool_parser.py:167-171 | A tool name that can be read is the name in every extension of the body. |
| HermesParser.RawArgsGrow | traj_proxy/proxy_core/parsers/vllm_compat/tool_parsers/hermes_tool_parser.py:173-189 | The argument text of a growing body only grows at its end. |
| HermesParser.ArgsStayBelow | traj_proxy/proxy_core/parsers/vllm_compat/tool_parsers/hermes_tool_parser.py:173-201 | Nothing streamed for a body on its way to its final form goes beyond the final argument value, the optimistic end of an object included. |
| HermesParser.RunKeepsInv | traj_proxy/proxy_core/parsers/vllm_compat/tool_parsers/hermes_tool_parser.py:203-273 | The invariant over any number of deltas. |
| HermesParser.StreamedStep | traj_proxy/proxy_core/parsers/vllm_compat/tool_parsers/hermes_tool_parser.py:203-273 | Feeding the parser a longer text is one more chunk of some chunking. |
| HermesParser.Hermes2ProToolParser.ExtractContent | traj_proxy/proxy_core/parsers/vllm_compat/tool_parsers/hermes_tool_parser.py:121-138 | The method moves the sent index to the sendable length and returns the text between. |
| HermesParser.Hermes2ProToolParser.ExtractToolCallJsons | traj_proxy/proxy_core/parsers/vllm_compat/tool_parsers/hermes_tool_parser.py:140-165 | The search loop returns body and completeness of every region of the text, in order. |
| HermesParser.Hermes2ProToolParser.ComputeArgsDiff | traj_proxy/proxy_core/parsers/vllm_compat/tool_parsers/hermes_tool_parser.py:191-201 | The method returns what the arguments have gained and remembers the whole. |
| HermesParser.Hermes2ProToolParser.StreamTool | traj_proxy/proxy_core/parsers/vllm_compat/tool_parsers/hermes_tool_parser.py:228-261 | One round of the loop over the regions: room for the tool, its header, its fragment, or a stop before an unreadable name. |
| HermesParser.Hermes2ProToolParser.ExtractToolCallsStreaming | traj_proxy/proxy_core/parsers/vllm_compat/tool_parsers/hermes_tool_parser.py:203-273 | The method on the text so far, from the fields it keeps to the message it returns. |
| Text.SendableMonotone | traj_proxy/proxy_core/parsers/vllm_compat/vllm/tool_parsers/utils.py:36-46 | What may be passed on before a tag never shrinks when the text grows. |
| Text.SendableBeforeTag | traj_proxy/proxy_core/parsers/vllm_compat/vllm/tool_parsers/utils.py:36-46 | It never reaches into a tag that an extension of the text completes. |
| Text.SendableIsTight | traj_proxy/proxy_core/parsers/vllm_compat/vllm/tool_parsers/utils.py:36-46 | Holding back less would be wrong: some extension turns the held suffix into the tag. |
| Text.PartialTagOverlap | traj_proxy/proxy_core/parsers/vllm_compat/vllm/tool_parsers/utils.py:36-46 | The result is the longest proper prefix of the tag with which the text ends. |
| StreamMerge.MergeStreamToolCalls | traj_proxy/proxy_core/pipeline/direct_pipeline.py:42-82 | The merge yields one call per index, in the order of first appearance, with the last non-empty id, type and name and all argument fragments in order; empty dictionaries count for nothing. |
| StreamMerge.StoredCallIsParsed | traj_proxy/proxy_core/pipeline/direct_pipeline.py:42-82 | The stored form of a finished Hermes call has the name and the exact argument value of its body, however the text was cut. |
| StreamMerge.MergeOneMore | traj_proxy/proxy_core/pipeline/direct_pipeline.py:58-80 | One more delta changes exactly the call of its index, and starts it if it is new. |
| ReasoningParser.NonStreamingSplit | traj_proxy/proxy_core/parsers/vllm_compat/reasoning_parsers/qwen3_reasoning_parser.py:115-158 | For an output whose markers in the text are those in the tokens, the non-streaming extractor splits at the first marker, unless a tool call opens before the end of the reasoning. |
| ReasoningParser.NonStreamingKeepsToolCall | traj_proxy/proxy_core/parsers/vllm_compat/reasoning_parsers/qwen3_reasoning_parser.py:130-145 | In that case it keeps the tool call in the reasoning, so it differs from the split at the first marker. |
| ReasoningParser.StreamingInside | traj_proxy/proxy_core/parsers/vllm_compat/reasoning_parsers/qwen3_reasoning_parser.py:160-231 | A delta without markers is passed on as reasoning, all of it. |
| ReasoningParser.StreamingAtMarker | traj_proxy/proxy_core/parsers/vllm_compat/reasoning_parsers/qwen3_reasoning_parser.py:160-231 | The delta with the first marker is split at it, `</think>` in neither part and `<tool_call>` in the content; for the DeepSeek parser too. |
| ReasoningParser.DeepSeekAtMarker | traj_proxy/proxy_core/parsers/vllm_compat/reasoning_parsers/deepseek_r1_reasoning_parser.py:28-67 | The DeepSeek override splits a marker delta at its end tag even when the start tag was never generated. |
| ReasoningParser.MarkerDeltaIsAligned | traj_proxy/proxy_core/parsers/vllm_compat/vllm/reasoning/basic_parsers.py:98-155 | The delta that holds the first marker of an aligned stream is aligned itself, wherever the stream is cut. |
| ParserManager.StreamingAgreesIff | traj_proxy/proxy_core/parsers/parser_manager.py:260-345 | For a prompt that does not close the reasoning, or none, and an aligned stream, every way of cutting it into deltas gives the client the reasoning and the content of the non-streaming extractor exactly when no tool call opens before `</think>`. |
| ParserManager.StreamSplitsAtFirstMarker | traj_proxy/proxy_core/parsers/parser_manager.py:260-345 | Every chunking whose boundary delta has no tool call before its `</think>` is split at the first marker, and the content reaches the tool parser under some chunking, or the client as it is. |
| ParserManager.FinishedCallIsExact | traj_proxy/proxy_core/parsers/parser_manager.py:296-331 | Through all phases, a finished tool call of the content reaches the client with its name and exactly its arguments, and the plain content stops before the first tag. |
| PromptCheck.ReasoningEndsIff | traj_proxy/proxy_core/parsers/vllm_compat/reasoning_parsers/qwen3_reasoning_parser.py:63-86 | The prompt check says that the reasoning is over exactly if some token closes it: an end tag, or for Qwen3 a tool call with no end tag of one behind it, with no start tag after. |
| PromptCheck.ClosedPromptDelivers | traj_proxy/proxy_core/parsers/parser_manager.py:260-345 | For every prompt that closes the reasoning, every configuration without a reasoning parser, every output and every chunking: no reasoning is sent, and the whole output goes through the tool parser, or to the client as it is. |
| PromptCheck.ClosedPromptCallIsExact | traj_proxy/proxy_core/parsers/parser_manager.py:296-331 | After such a prompt a finished tool call of the output reaches the client with its name and exactly its arguments. |
| PromptCheck.OnlyFirstPromptCounts | traj_proxy/proxy_core/parsers/parser_manager.py:260-268 | A run that brings a prompt with every call is the run that brings only the first. |
| PromptCheck.NoPromptPassesThrough | traj_proxy/proxy_core/parsers/parser_manager.py:260-345 | Without a reasoning parser and without prompt ids the tool parser is never asked: every output reaches the client unparsed. |
| PromptCheck.ClosedPromptAgreesIff | traj_proxy/proxy_core/parsers/vllm_compat/reasoning_parsers/qwen3_reasoning_parser.py:115-158 | The non-streaming extractor does not see the prompt: it keeps the whole output as content, as streaming does after a closed prompt, exactly if the output is empty, or for Qwen3 if it has no think tag and thinking is off or a tool call comes first. |
| PromptCheck.ContentIdsAgreeIff | traj_proxy/proxy_core/parsers/vllm_compat/reasoning_parsers/qwen3_reasoning_parser.py:97-113 | The ids kept of the boundary delta are those of its content, exactly if it has an end tag or no second tool call. |
| LeadingThink.ThinkStreamSplits | traj_proxy/proxy_core/parsers/parser_manager.py:260-345 | Streams that begin with `<think>`: every chunking whose boundary delta has no tool call before its `</think>` is split at the first marker, and the tag is sent nowhere, but for what leaks. |
| LeadingThink.Qwen3ThinkAgreesIff | traj_proxy/proxy_core/parsers/vllm_compat/reasoning_parsers/qwen3_reasoning_parser.py:160-231 | For Qwen3 every chunking of such a stream agrees with the non-streaming extractor exactly when no tool call opens before `</think>`. |
| LeadingThink.DeepSeekThinkAgreesIff | traj_proxy/proxy_core/parsers/vllm_compat/vllm/reasoning/basic_parsers.py:98-172 | For DeepSeek a chunking of such a stream agrees with it exactly if the tag does not come in one delta with other tokens and no end tag; otherwise the client is sent the tag as reasoning. |
| LeadingThink.ThinkIsSkipped | traj_proxy/proxy_core/parsers/vllm_compat/reasoning_parsers/qwen3_reasoning_parser.py:115-158 | The non-streaming extractor takes no notice of the tag. |
| ParserManager.StepAtMarker | traj_proxy/proxy_core/parsers/parser_manager.py:272-331 | After the call at the boundary the client has exactly the reasoning before the marker, and the content after it has gone through the tool parser under some chunking, or out as it is. |
| ParserManager.RunKeepsInv | traj_proxy/proxy_core/parsers/parser_manager.py:260-345 | The three-phase machine over any number of calls: reasoning until the first marker, then the content. |
| ParserManager.Parser.ParseDelta | traj_proxy/proxy_core/parsers/parser_manager.py:234-345 | The method: prompt check, reasoning phase, tool phase and pass-through on the stream state it updates; what they give the client over whole streams is `StreamSplitsAtFirstMarker` for open prompts and `PromptCheck.ClosedPromptDelivers` for closed ones. |
| ParserManager.Parser.ExtractReasoningDelta | traj_proxy/proxy_core/parsers/parser_manager.py:272-294 | The reasoning phase with the hand-over of text and ids at the marker. |
| ParserManager.Parser.ExtractToolDelta | traj_proxy/proxy_core/parsers/parser_manager.py:296-331 | The tool phase with its one-time reset of the previous text. |
| ParserManager.Parser.AddToolCalls | traj_proxy/proxy_core/parsers/parser_manager.py:312-331 | The message of the tool phase keeps the reasoning of a boundary delta. |
| Qwen3CoderParser.StreamedEqualsParsed | traj_proxy/proxy_core/parsers/vllm_compat/tool_parsers/qwen3coder_tool_parser.py:234-591 | Whatever the chunking: once the closing brace of a well-formed call with distinct plain names was sent, what was sent for it is one header with its name and exactly the arguments that the non-streaming parser serialises, and the arguments kept for the end of the stream are the same. |
| Qwen3CoderOutput.StreamedOutputIsExtracted | traj_proxy/proxy_core/parsers/vllm_compat/tool_parsers/qwen3coder_tool_parser.py:163-232 | For a whole output of well-formed calls side by side, cut in any way: once all are closed, the headers and arguments sent are, call by call, the list that the non-streaming extractor takes from the output, and nothing else was sent for any index. |
| Qwen3CoderOutput.OutputFunctions | traj_proxy/proxy_core/parsers/vllm_compat/tool_parsers/qwen3coder_tool_parser.py:163-182 | The two patterns of the non-streaming extractor find exactly one function per tool call, in order. |
| Qwen3CoderOutput.EndMessageIsSent | traj_proxy/proxy_core/parsers/vllm_compat/tool_parsers/qwen3coder_tool_parser.py:250-275 | After such an output, token ids without text get the empty message, and the state stays as it is. |
| Qwen3CoderContent.PlainTextIsSent | traj_proxy/proxy_core/parsers/vllm_compat/tool_parsers/qwen3coder_tool_parser.py:234-324 | For every output without a tool call and every chunking: the content sent is the whole output, exactly if no delta is white space right behind an end tag; ids without text then get the empty message. |
| Qwen3CoderContent.ContentBeforeFirstCall | traj_proxy/proxy_core/parsers/vllm_compat/tool_parsers/qwen3coder_tool_parser.py:298-324 | For every output and chunking, up to the delta with the first start tag: the content sent is the text before the tag, under the same condition. |
| Qwen3CoderContent.NothingAfterCalls | traj_proxy/proxy_core/parsers/vllm_compat/tool_parsers/qwen3coder_tool_parser.py:278-324 | For calls side by side with white space between and behind them, and every chunking that cuts no start tag: the content sent is the text before the first call, and after it nothing but white space, none at all if every further start tag begins its delta. |
| Qwen3CoderContent.BehindClosedCall | traj_proxy/proxy_core/parsers/vllm_compat/tool_parsers/qwen3coder_tool_parser.py:278-324 | Of text behind a closed call the first delta after the end tag is dropped, whatever it is; later ones are sent, but for white space right behind the tag. |
| Qwen3CoderContent.TextBehindLastCall | traj_proxy/proxy_core/parsers/vllm_compat/tool_parsers/qwen3coder_tool_parser.py:278-324 | Behind the last call, of two deltas of text the first is dropped and the second sent, unless it is white space right behind the end tag. |
| Qwen3CoderContent.NoMessageDuringCall | traj_proxy/proxy_core/parsers/vllm_compat/tool_parsers/qwen3coder_tool_parser.py:250-275 | While a call is under way and none is complete, ids without text get no message. |
| Qwen3CoderContent.OpenCallIsCaptured | traj_proxy/proxy_core/parsers/vllm_compat/tool_parsers/qwen3coder_tool_parser.py:66-69 | The non-streaming pattern captures an unfinished call up to the end of the output, without one final newline. |
| Qwen3CoderContent.ContentAgreesIff | traj_proxy/proxy_core/parsers/vllm_compat/tool_parsers/qwen3coder_tool_parser.py:184-232 | For such outputs the content sent is the content that the non-streaming extractor returns, exactly if the extractor takes calls just when there is a start tag. |
| Qwen3CoderContent.GoodContentAgrees | traj_proxy/proxy_core/parsers/vllm_compat/tool_parsers/qwen3coder_tool_parser.py:184-232 | That holds of every output of well-formed calls. |
| Qwen3CoderValues.ParameterIs | traj_proxy/proxy_core/parsers/vllm_compat/tool_parsers/qwen3coder_tool_parser.py:424-500 | Streaming: a closed parameter anywhere in a call is read as its name and its value, without one newline on either side if it was written with one. |
| Qwen3CoderValues.BothReadAlike | traj_proxy/proxy_core/parsers/vllm_compat/tool_parsers/qwen3coder_tool_parser.py:143-154 | The non-streaming parser reads the same name and value from the match. |
| Qwen3CoderValues.OpenValueEnds | traj_proxy/proxy_core/parsers/vllm_compat/tool_parsers/qwen3coder_tool_parser.py:446-485 | A value without an end tag of its own ends at the first tag that opens the next parameter or ends the function, and only without one at the end of the call; without any the parameter is not complete. |
| Qwen3CoderValues.MatchStopsFirst | traj_proxy/proxy_core/parsers/vllm_compat/tool_parsers/qwen3coder_tool_parser.py:78-81 | A match of the non-streaming parameter pattern stops at the first tag, at the end, or before a final newline. |
| Qwen3CoderParser.ProtocolHolds | traj_proxy/proxy_core/parsers/vllm_compat/tool_parsers/qwen3coder_tool_parser.py:278-589 | For any text and any chunking: each call has one header, one opening brace, comma-joined parameters in text order and at most one closing brace, with one remembered entry per header. |
| Qwen3CoderParser.StepKeepsInv | traj_proxy/proxy_core/parsers/vllm_compat/tool_parsers/qwen3coder_tool_parser.py:234-591 | One delta keeps that protocol, whatever the text is. |
| Qwen3CoderParser.ReadIsFinal | traj_proxy/proxy_core/parsers/vllm_compat/tool_parsers/qwen3coder_tool_parser.py:424-500 | What is read for a closed parameter from an unfinished text is what the finished text has. |
| Qwen3CoderParser.ExhaustedMeansAll | traj_proxy/proxy_core/parsers/vllm_compat/tool_parsers/qwen3coder_tool_parser.py:535-589 | When the function end is seen and nothing is left to read, every parameter was read. |
| Qwen3CoderParser.MatchesAreParams | traj_proxy/proxy_core/parsers/vllm_compat/tool_parsers/qwen3coder_tool_parser.py:70-81 | The regular expression of the non-streaming parser finds exactly the parameters that the streaming parser reads. |
| Qwen3CoderParser.ParsedIsRendered | traj_proxy/proxy_core/parsers/vllm_compat/tool_parsers/qwen3coder_tool_parser.py:133-161 | Parsing the body and serialising the dictionary gives the comma-joined rendering of its parameters. |
| Qwen3CoderParser.HeaderNameStable | traj_proxy/proxy_core/parsers/vllm_compat/tool_parsers/qwen3coder_tool_parser.py:358-403 | A function name that can be read stays the name as the text grows. |
| Qwen3CoderParser.CallsGrow | traj_proxy/proxy_core/parsers/vllm_compat/tool_parsers/qwen3coder_tool_parser.py:333-356 | What was read for earlier calls stays true of a longer text. |
| Qwen3CoderParser.AllStarts | traj_proxy/proxy_core/parsers/vllm_compat/tool_parsers/qwen3coder_tool_parser.py:333-343 | The loop that collects the positions of a tag finds all of them, in order. |
| Qwen3CoderParser.Qwen3CoderToolParser.StreamBody | traj_proxy/proxy_core/parsers/vllm_compat/tool_parsers/qwen3coder_tool_parser.py:406-589 | The body part of a call: brace, parameters, closing. |
| Qwen3CoderParser.Qwen3CoderToolParser.StreamHeader | traj_proxy/proxy_core/parsers/vllm_compat/tool_parsers/qwen3coder_tool_parser.py:358-403 | The header part of a call. |
| Qwen3CoderParser.Qwen3CoderToolParser.ExtractToolCallsStreaming | traj_proxy/proxy_core/parsers/vllm_compat/tool_parsers/qwen3coder_tool_parser.py:234-591 | The method on its flags and counters, for one delta, with the empty message of an empty delta at the end of the stream; what it sends over whole outputs is `StreamedOutputIsExtracted` and `Qwen3CoderContent.ContentAgreesIff`. |
| Qwen3CoderParser.Qwen3CoderToolParser.StreamEnd | traj_proxy/proxy_core/parsers/vllm_compat/tool_parsers/qwen3coder_tool_parser.py:250-275 | Token ids without text and without the end tag give an empty message exactly if, with a complete call and a remembered one, there are as many start as end tags, or else no call is under way and there is text. |
| TokenConverter.DecodingIsExact | traj_proxy/proxy_core/converters/token_converter.py:97-193 | For a decoder whose text per token depends on at most the four tokens before it, every chunking returns pieces that add up to the decoding of all ids, the fallback is never taken, and the checkpoint is the buffer length after every call. |
| TokenConverter.WindowCoversReach | traj_proxy/proxy_core/converters/token_converter.py:97-193 | Decoding is exact for every decoder of a given look-back exactly when the look-back is at most four tokens. |
| TokenConverter.LongerReachFails | traj_proxy/proxy_core/converters/token_converter.py:160-185 | For every longer look-back some decoder gives a wrong sixth token. |
| TokenConverter.StepIsExact | traj_proxy/proxy_core/converters/token_converter.py:125-193 | One call returns exactly what the new tokens add. |
| TokenConverter.RunIsExact | traj_proxy/proxy_core/converters/token_converter.py:97-193 | Any number of calls from any aligned buffer. |
| TokenConverter.ProcessContext.DecodeStreaming | traj_proxy/proxy_core/converters/token_converter.py:97-193 | The method on the three streaming fields of the context. |
| PrefixCache.TokensNest | traj_proxy/proxy_core/pipeline/token_pipeline.py:402-421 | In a session where each turn continues the whole conversation before it, the prompt ids of every turn begin with the prompt ids and response ids of the turn before, verbatim. |
| PrefixCache.SessionRoundTrip | traj_proxy/proxy_core/pipeline/token_pipeline.py:505-515 | Over a session with any branching, the ids of every prompt decode to the prompt, and every stored record decodes to its text. |
| PrefixCache.StoredIsConsistentIff | traj_proxy/proxy_core/pipeline/token_pipeline.py:817-826 | What a turn stores decodes to its text exactly when ids came back for a prompt with ids, or a non-streaming turn had no response text. |
| PrefixCache.EncodeDecodes | traj_proxy/proxy_core/cache/prefix_cache.py:39-112 | For every history of consistent records, the ids returned for a text decode to that text. |
| PrefixCache.LongestMatch | traj_proxy/proxy_core/cache/prefix_cache.py:114-145 | The record that is reused is the first of those with the most tokens among all that are prefixes of the text, and none is reused only if none matches. |
| PrefixCache.SortSorts | traj_proxy/proxy_core/cache/prefix_cache.py:128-132 | The sort is a permutation in descending order of length. |
| PrefixCache.FindLongestPrefixMatch | traj_proxy/proxy_core/cache/prefix_cache.py:114-145 | The scan over the sorted history. |
| PrefixCache.ProcessContext.EncodeWithCache | traj_proxy/proxy_core/cache/prefix_cache.py:39-112 | The method with the cache fields it writes. |
| ProcessorCache.CacheIsSafe | traj_proxy/proxy_core/processor_manager.py:237-308 | Under every interleaving of loads with registrations, roll-backs, removals, synchronisations, fallbacks, evictions and clearing: the cache is within its bound, every cached model has a configuration, last accesses and cache have the same keys in the same order, and each tokenizer count is the number of cached processors that use it plus the references leaked. |
| ProcessorCache.StepKeepsInv | traj_proxy/proxy_core/processor_manager.py:277-308 | Each step keeps that invariant, and a processor that is new in the cache was built from what is the configuration of its key after the step. |
| ProcessorCache.FreshThroughoutIff | traj_proxy/proxy_core/processor_manager.py:313-383 | For every run from the start: all cached processors are up to date in all states exactly if no notification or fallback ever replaces the configuration of a model cached at that moment. |
| ProcessorCache.StepFreshIff | traj_proxy/proxy_core/processor_manager.py:313-383 | The step behind it: from a cache of up-to-date processors, a step keeps it so exactly if it is not such a notification or fallback. |
| ProcessorCache.NotificationMakesStale | traj_proxy/proxy_core/processor_manager.py:313-325 | A reachable run: a model is registered and used, a notification brings another configuration, and the old processor stays in the cache. |
| ProcessorCache.RaisingConstructorLeaks | traj_proxy/proxy_core/processor_manager.py:156-184 | A reachable run after which the cache is empty and the tokenizer is held. |
| ProcessorCache.TokenizerCountsAreExact | traj_proxy/proxy_core/tokenizer_cache.py:26-71 | If no constructor raises, a tokenizer is in memory exactly while a cached processor uses it, and its count is their number. |
| ProcessorCache.LeakIsForGood | traj_proxy/proxy_core/processor_manager.py:156-184 | A reference held by a processor whose constructor raised keeps its tokenizer in memory in every later state, clearing the cache included. |
| ProcessorCache.StepLeak | traj_proxy/proxy_core/processor_manager.py:156-184 | Only a raising constructor leaks, and no step takes a leaked reference back. |
| ProcessorCache.VictimIsOldest | traj_proxy/proxy_core/processor_manager.py:203-212 | The processor that makes room is one whose last access is furthest back, and only it goes. |
| ProcessorCache.IdleEvictionIsExact | traj_proxy/proxy_core/processor_manager.py:784-806 | Idle eviction removes exactly the processors whose last access is further back than the timeout. |
| ProcessorCache.FullSyncAgrees | traj_proxy/proxy_core/processor_manager.py:339-383 | After a full synchronisation the dynamic models are those of the database, with equal contents, and static models are untouched. |
| ProcessorCache.EnterKeeps | traj_proxy/proxy_core/processor_manager.py:262-308 | The part of a load under the lock keeps the invariant up to its next suspension, on a hit, a miss, an invalid configuration and a raising constructor. |
| ProcessorCache.TokenizerLoadedKeeps | traj_proxy/proxy_core/processor_manager.py:277-308 | The part after the tokenizer load keeps the invariant, when the configuration was removed or replaced meanwhile too; what it caches is `ProcessorLoads.FinishedLoadIsCached`. |
| ProcessorCache.FullSyncKeeps | traj_proxy/proxy_core/processor_manager.py:339-383 | A full synchronisation during a load keeps the invariant. |
| ProcessorCache.DropKeeps | traj_proxy/proxy_core/processor_manager.py:194-201 | Removing any set of processors with the release of their tokenizers keeps counts, order and bound. |
| ProcessorCache.TouchKeeps | traj_proxy/proxy_core/processor_manager.py:188-192 | Marking a processor as used keeps the cache in the order of the accesses. |
| ProcessorLoads.FinishedLoadIsCached | traj_proxy/proxy_core/processor_manager.py:262-308 | From every reachable state, whether the load needs no tokenizer, finds it in memory, was waiting for it or resumed after another load: the call that finishes it leaves the processor at the recent end of the cache, accessed now, exactly if its configuration is still that of the model; beside it stay all others, or all but the least recently used of a full cache. |
| ProcessorLoads.LoadsAreCached | traj_proxy/proxy_core/processor_manager.py:262-308 | The same over every run from the start. |
| ProcessorLoads.LoadAwaitsTokenizer | traj_proxy/proxy_core/processor_manager.py:158-163 | A load whose tokenizer is not in memory keeps the lock, and any answer for it frees the lock. |
| ProcessorLoads.NeverStuck | traj_proxy/proxy_core/processor_manager.py:265-308 | No load waits for ever: a held lock is freed by an answer that can come, and a free one can be taken by every waiting load. |
| ProcessorLoads.LoadIsQueued | traj_proxy/proxy_core/processor_manager.py:253-265 | A request during another load waits with the configuration it has read. |
| ProcessorLoads.HitIsTouched | traj_proxy/proxy_core/processor_manager.py:188-192 | A request for a cached model moves its processor to the recent end, accessed now, and changes nothing else in the cache. |
| ProcessorLoads.LeavesOnlyFor | traj_proxy/proxy_core/processor_manager.py:203-212 | For every state and event, a processor leaves the cache exactly for a reason: it is the least recently used of a full cache while a load takes the lock; its model is unregistered, rolled back, or changed or gone in a synchronisation; it is idle; or the cache is cleared. |
| ProcessorLoads.UnusedAreEvicted | traj_proxy/proxy_core/processor_manager.py:784-806 | After a time longer than the timeout in which no processor is used, idle eviction empties the cache. |
| ProcessorLoads.ConfigurationAfter | traj_proxy/proxy_core/processor_manager.py:313-541 | For every state, event and model, which configuration the model has afterwards: registrations take effect exactly for a new model with a valid configuration, notifications unless the model is preset, removals take only dynamic models, and nothing else changes any. |
| ProcessorLoads.RegistrationAwaitsAnswer | traj_proxy/proxy_core/processor_manager.py:513-541 | A registration waits for the database exactly if it is accepted and to be stored, and for one answer. |
| ProcessorLoads.NewModelIsServed | traj_proxy/proxy_core/processor_manager.py:447-614 | A valid new model is registered and requested: its processor ends at the recent end of the cache, after its tokenizer has come if one is needed. |
| ProcessorProgram.TokenizerCache.Acquire | traj_proxy/proxy_core/tokenizer_cache.py:26-36 | A path in memory gains a reference; a miss changes nothing before the load. |
| ProcessorProgram.TokenizerCache.Store | traj_proxy/proxy_core/tokenizer_cache.py:43-55 | The end of a successful load. |
| ProcessorProgram.TokenizerCache.Release | traj_proxy/proxy_core/tokenizer_cache.py:57-71 | A reference less, and the tokenizer goes with the last one. |
| ProcessorProgram.ProcessorManager.MakeRoom | traj_proxy/proxy_core/processor_manager.py:272-275 | The eviction loop before a load. |
| ProcessorProgram.ProcessorManager.Cache | traj_proxy/proxy_core/processor_manager.py:282-308 | The second look at the configuration, as the step whose effect is `ProcessorLoads.FinishedLoadIsCached`. |
| ProcessorProgram.ProcessorManager.LoadUnderLock | traj_proxy/proxy_core/processor_manager.py:262-308 | The critical section up to its suspension. |
| ProcessorProgram.ProcessorManager.TokenizerArrived | traj_proxy/proxy_core/processor_manager.py:277-308 | The rest of a load after its tokenizer has come or failed to. |
| ProcessorProgram.ProcessorManager.StoreConfig | traj_proxy/proxy_core/processor_manager.py:313-325 | Registration by notification replaces the configuration and leaves the cache alone. |
| ProcessorProgram.ProcessorManager.GetProcessor | traj_proxy/proxy_core/processor_manager.py:594-614 | A request for a processor up to its first suspension. |
| ProcessorProgram.ProcessorManager.RegisterStaticProcessor | traj_proxy/proxy_core/processor_manager.py:387-445 | Accepted exactly for a new key with a valid configuration. |
| ProcessorProgram.ProcessorManager.RegisterDynamicProcessor | traj_proxy/proxy_core/processor_manager.py:447-512 | Accepted exactly for a new key with a valid configuration, before the database is asked. |
| ProcessorProgram.ProcessorManager.RollBack | traj_proxy/proxy_core/processor_manager.py:528-541 | The roll-back of a refused registration, and its KeyError when the key is already gone. |
| ProcessorProgram.ProcessorManager.UnregisterDynamicProcessor | traj_proxy/proxy_core/processor_manager.py:545-580 | Deletes exactly dynamic models, with their processor. |
| ProcessorProgram.ProcessorManager.RemoveByKey | traj_proxy/proxy_core/processor_manager.py:326-337 | Removal by notification. |
| ProcessorProgram.ProcessorManager.SyncModels | traj_proxy/proxy_core/processor_manager.py:339-383 | The two loops of the full synchronisation. |
| ProcessorProgram.ProcessorManager.EvictIdleProcessors | traj_proxy/proxy_core/processor_manager.py:784-806 | The loop over the idle keys. |
| ProcessorProgram.ProcessorManager.ClearCache | traj_proxy/proxy_core/processor_manager.py:808-814 | The loop that releases every processor. |
| ModelSync.Converges | traj_proxy/store/model_synchronizer.py:146-188 | For every interleaving of writes of this and other workers, notifications, reads and failures: while notifications of a model are queued the last one says what the registry says; once none is queued or handled and no local write is in flight, worker and registry agree about it unless a write or handler failed. |
| ModelSync.DrainedMeansEqual | traj_proxy/store/model_synchronizer.py:146-197 | Without failures, a worker that has handled every notification and has no write in flight holds exactly the registry, although a handler reads first and applies later. |
| ModelSync.RowIsLastRegistration | traj_proxy/store/model_repository.py:67-154 | For every interleaving: the row of a model says, field by field, what the last committed registration of it said, with an empty path for an absent one; there is none exactly if a delete came last, or nothing was committed and there was none. |
| ModelSync.WorkerHoldsLastRegistration | traj_proxy/store/model_synchronizer.py:146-188 | So does the worker, once nothing about the model is pending and nothing has failed. |
| ModelSync.WritesAreConserved | traj_proxy/proxy_core/processor_manager.py:513-580 | For every interleaving, the local writes in flight are those begun and not yet answered, so every commit writes what one local registration asked for. |
| ModelSync.LocalEffect | traj_proxy/proxy_core/processor_manager.py:507-560 | A registration and a removal take effect in the worker before the registry is asked, and a fallback finds what the registry has. |
| ModelSync.FailedWriteAgreesIff | traj_proxy/proxy_core/processor_manager.py:526-541 | A failed local write with nothing else pending for the model leaves agreement exactly if the registry does not have the model; otherwise no notification will repair it. |
| ModelSync.FailedDeleteDisagrees | traj_proxy/proxy_core/processor_manager.py:545-580 | The reachable case for every model of the registry: the worker unregisters it, the delete fails, and they disagree with nothing pending. |
| ModelSync.MarkedOnlyIfLeft | traj_proxy/proxy_core/processor_manager.py:526-541 | A model counts as left different only if, at some point of the run, a write or a handler failed and left the worker different from the registry about it with nothing pending. |
| ModelSync.SyncRepairs | traj_proxy/store/model_synchronizer.py:190-197 | Whatever has failed before: after a full synchronisation and any steps without a failure, a worker that has handled every notification holds exactly the registry again. |
| ModelSync.StepKeepsOk | traj_proxy/store/model_synchronizer.py:146-188 | Each step keeps, for each model, that what is pending brings the worker to the state of the registry. |
| ModelSync.CommitKeeps | traj_proxy/store/model_repository.py:67-154 | A commit with its notification keeps it, also a delete that finds no row and sends none; what the row then says is `RowIsLastRegistration`. |
| ModelSync.FailKeeps | traj_proxy/proxy_core/processor_manager.py:526-541 | A failed write keeps it, marking the model if nothing pending will repair it. |
| ModelSync.ManagerFollows | traj_proxy/proxy_core/processor_manager.py:313-337 | The callbacks change the manager's dynamic models exactly as the handler changes the worker's table. |
| ModelSync.ManagerRegisters | traj_proxy/proxy_core/processor_manager.py:447-560 | A registration or removal by the worker itself is accepted exactly if the step of the worker is possible, and changes the manager's dynamic models as that step does. |
| ModelSync.ManagerSyncs | traj_proxy/proxy_core/processor_manager.py:339-383 | A full synchronisation makes the manager's dynamic models the rows of the registry. |
| ModelSync.ModelRepository.RegisterModel | traj_proxy/store/model_repository.py:38-116 | Each argument is stored in its column and the other rows are left alone, with one notification in the same transaction; table and channel are those after the step of a worker that registers the model. |
| ModelSync.ModelRepository.UnregisterModel | traj_proxy/store/model_repository.py:118-156 | Only a delete that finds a row succeeds and notifies; table and channel are those after the step of a worker that removes the model. |
| ModelSync.ModelRepository.GetByKey | traj_proxy/store/model_repository.py:199-236 | A reader finds a model exactly if the last notification ever committed about it is a registration, and gets its row. |
| ModelSync.ModelSynchronizer.HandleNotification | traj_proxy/store/model_synchronizer.py:146-188 | The handler without interruption, with its two falls back to a full synchronisation; an exception reaches the listener only if the last of them fails. |
| Offload.NothingIsLost | traj_proxy/store/decorators/offloading_repository.py:103-209 | For every interleaving of inserts, uploads, failures and cancellations with unique request ids: every context and every stored record is as it was passed in, or holds a marker with the key of an existing row; an insert that raises leaves the context as it was. |
| Offload.ReadyMeansOriginal | traj_proxy/store/decorators/offloading_repository.py:211-243 | For every interleaving with distinct safe request ids, which uuids are, and whatever runs and sessions the clients name: a row that has left `uploading` names a blob that is there, and the blob is what this request has serialised. |
| Offload.BlobsNeverChange | traj_proxy/store/decorators/offloading_repository.py:229-231 | In those runs no step ever changes or removes a stored blob. |
| Offload.CancelledKeepsMarker | traj_proxy/store/decorators/offloading_repository.py:196-209 | A cancelled insert leaves the context as it was exactly if it was cancelled before the marker: the restore does not run for a cancellation. |
| Offload.UploadSparesIff | traj_proxy/store/decorators/offloading_repository.py:229-231 | For any ids at all: what another request has uploaded survives an upload exactly if the keys differ or the data is the same. |
| Offload.FetchIsOwn | traj_proxy/proxy_core/provider.py:183-262 | With safe request ids, only the session that a request came with gets anything but not-found, and what it streams is that request's data; the three states map to their answers. A request without a session is stored under the session "unknown", so any client that asks for that session gets it. |
| OffloadReady.UploadMakesReady | traj_proxy/store/decorators/offloading_repository.py:211-243 | In every reachable state with an upload under way a fetch is told to wait; if storage and database accept the upload, the row becomes ready and the own session is sent the original data. |
| OffloadReady.OffloadedIsFetched | traj_proxy/store/decorators/offloading_repository.py:103-243 | An insert whose data fits and whose row is committed, followed by a successful upload: from then on, over every run of other calls in which the row is not consumed, the own session fetches exactly the data that was passed in, and the stored record names its key. |
| OffloadReady.FailedUploadNeverReady | traj_proxy/store/decorators/offloading_repository.py:211-243 | Nothing repeats an upload: once it has failed or was cancelled, a fetch is told to wait in every later state. |
| OffloadReady.PlainIsStored | traj_proxy/store/decorators/offloading_repository.py:133-173 | An insert that does not offload, because there is no data, it cannot be serialised, it is too large or its row is refused, stores the context as it was passed in and touches no row and no upload. |
| OffloadReady.StepAwaited | traj_proxy/store/decorators/offloading_repository.py:161-181 | A running upload always has a row that waits for it. |
| Offload.StepKeepsInv | traj_proxy/store/decorators/offloading_repository.py:133-243 | Each step keeps the invariant; rows are never removed or re-keyed and their status only moves on, one state at a time. |
| Offload.RestoreUndoes | traj_proxy/store/decorators/offloading_repository.py:311-329 | Putting the data back undoes the marker, which does change the context. |
| Offload.InnerFails | traj_proxy/store/decorators/offloading_repository.py:196-209 | A failure of the inner insert leaves an unchanged context, also at the second attempt of an oversized record. |
| Offload.RowInserted | traj_proxy/store/decorators/offloading_repository.py:174-194 | Inserting the row, starting the upload and placing the marker keep the invariant, also when the row already exists. |
| Offload.AdvanceKeeps | traj_proxy/store/r3_ref_repository.py:161-236 | The guarded updates keep the invariant. |
| Offload.InsertionSteps | traj_proxy/store/decorators/offloading_repository.py:133-209 | An insert without interruption ends with the context delegated as it is or as a marker, in each of its branches. |
| Offload.OffloadingRepository.Insert | traj_proxy/store/decorators/offloading_repository.py:103-209 | The method: its steps are possible, it ends in their state, and if it raises the context is unchanged. |
| Offload.OffloadingRepository.InsertMarked | traj_proxy/store/decorators/offloading_repository.py:174-209 | The marker branch with the restore in place. |
| Offload.ProcessContext.FindExperts | traj_proxy/store/decorators/offloading_repository.py:245-290 | The first of the two responses with data that is not a marker. |
| Offload.R3RefRepository.InsertRef | traj_proxy/store/r3_ref_repository.py:56-107 | An existing row is left alone. |
| Offload.R3RefRepository.Move | traj_proxy/store/r3_ref_repository.py:161-236 | The guarded status update matches exactly a row in the expected state. |
| Offload.R3RefRepository.GetForFetch | traj_proxy/store/r3_ref_repository.py:109-159 | A row is found exactly for its own session. |
| BlobKey.SanitizeIsSafe | traj_proxy/store/decorators/offloading_repository.py:393-401 | A sanitised segment is not empty and has no slash, backslash or two dots, and a segment is left alone exactly if that already holds. |
| BlobKey.SameKeyIff | traj_proxy/store/decorators/offloading_repository.py:368-391 | Two blobs share a key exactly if their three sanitised segments are equal. |
| BlobKey.KeyNames | traj_proxy/store/decorators/offloading_repository.py:368-401 | For safe names the key is the prefix, run, session and request with slashes between and the suffix; an absent or empty run or session is named unknown. |
| BlobKey.SafeIdsKeepKeysApart | traj_proxy/store/decorators/offloading_repository.py:368-401 | Different requests with safe ids have different keys, whatever their runs and sessions are. |
| BlobKey.UuidIsSafe | traj_proxy/workers/worker.py:244-245 | The id a worker issues for a request, a uuid in its usual form, is safe. |
| BlobKey.UnsafeIdCollides | traj_proxy/store/decorators/offloading_repository.py:393-401 | An id that is not safe shares its key with the safe id it is sanitised to; no such id is issued. |

## Left out

- ArchiveDispatch.RunsAreBounded: bounds submissions and completions, not waits that time out, because a call that never completes keeps the program waiting.
- ArchiveStorage.EveryRowIsStored: about plain names of files with the suffix of compressed ones; the uncompressed suffix, which a configuration fixes for all files, the location prefix of the storage and compression are not modelled. An upload sends what the file holds at one moment and a failed upload leaves the storage as it was; a writer that goes on writing into a file the storage has taken over is not modelled.
- ArchiveLoss.LostIff: the query and the truncation of the file are one step; a worker process that is declared dead is dead.
- ArchiveData.SessionArchiveWorker.Archive: a call that no other call disturbs; what happens under interference is proved of the steps.
- HermesParser.ArgumentsAreExact: `is_complete_json` is an arbitrary predicate, true of the finished body; full JSON parsing is not part of this model.
- ReasoningParser.NonStreamingSplit: for outputs without `<think>`, or with one at the start (`LeadingThink`), whose markers in the text are those of the tokens; a tag later on, and text that spells a marker with other tokens, are not covered.
- Qwen3CoderParser.StreamedEqualsParsed: for tag-free values, closed parameters and distinct plain names; conversion by parameter schema is an arbitrary function.
- TokenConverter.DecodingIsExact: for decoders with a bounded look-back; replacement characters of byte fallback are outside it.
- PrefixCache.TokensNest: every turn brings response ids and the first prompt has at least one id; records without them are characterised by `StoredIsConsistentIff`.
- ModelSync.Converges: reading all models and applying them is one step, and so is the database fallback of a request; their races, which the next full synchronisation repairs, are not modelled. Notifications are neither lost nor reordered while the listener is connected.
- ProcessorCache.CacheIsSafe: the cache bound is at least 1, as with 0 the eviction loop does not end.
- Offload.NothingIsLost: request ids are unique; retries of one id are not modelled.
- The order of last-access entries, waiting loads and idle keys: any order is allowed, which includes the program's.
- The RuntimeError texts, statistics, metrics, events and logs.
- Finding expired runs, partitions, and the calendar arithmetic of both.
- ParserManager.FinishedCallIsExact: over the Hermes tool parser only; `parse_delta` with the other tool parsers is not modelled.
- Text.RStrip: white space is that of `str.isspace`; the four control characters U+001C to U+001F, which the pattern `\s` of the Hermes parser does not match, count as white space there too.
- The named and required tool-choice paths of `parse_delta`.
- The `qwen3xml` and `deepseekv4` parsers and the copies under `custom_parsers`: they depend on libraries not shown or repeat what is here.
- Prompt rendering, HTTP routes, headers, semaphores and process start-up.
- Cleaning up expired references and closing the repository.
- Accumulating the other fields of a stream in the direct pipeline: plain assignments.
