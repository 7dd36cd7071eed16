# Actant, modelled and proved in Dafny

Actant runs agents as durable threads: a workflow delivers messages to turns, turns ask a model
and call tools, the transcript is compacted into summaries when it grows past a limit, tools run
in sandboxes that any worker can reach by id, and a container's workspace is restored from a
bucket. What makes this hard is that almost every piece can be lost, retried, cancelled or raced
by another at any store call. This project states what survives all of that and proves it.

Code that only computes is modelled as functions. Stores, the rate limiter, the service host, the
pusher, the thread workflow and the cancel recursion are classes whose methods are proved against
those functions or against what they promise. Protocols are state machines: `Next` is what the
code does at one store call, `Allowed` is which call may come next, and every theorem is about
every run of such steps.

| file | models |
|---|---|
| `Messages.dfy` | messages, rows and compaction blocks |
| `Views.dfy` | the model's view of the rows, what a compaction keeps, and measuring a request |
| `Transcript.dfy` | the rows read for the model, writing a summary and storing one |
| `Store.dfy` | the in-memory message store and storing a summary into it |
| `Measuring.dfy` | what measuring a request counts |
| `CompactionRuns.dfy` | runs in which summaries are written beside the turns and stored later |
| `Summaries.dfy` | what the stored summaries say and replace |
| `Pairs.dfy`, `PairedRuns.dfy` | calls and results paired in every view of every run |
| `Images.dfy` | dropping the oldest images of a request in chunks |
| `ToolRecords.dfy` | tool results, records, their store, and recording a cancelled thread |
| `ToolRuns.dfy`, `ToolSafety.dfy`, `ToolTheorems.dfy` | admission, attempts, resolution, finalization and cancellation racing on the records |
| `ToolOrigins.dfy`, `ToolResults.dfy` | which verdict decides a call, and where every final result comes from |
| `Turns.dfy` | one turn under lost and retried attempts |
| `Sandboxes.dfy`, `SandboxSpecs.dfy`, `SandboxResolve.dfy` | keyed sandboxes as a protocol between workers, the specs they leave recorded, and the resolve loop |
| `Host.dfy` | call ids of the service host, forgetting finished ones, and the storage push |
| `Restore.dfy` | container startups that seed and restore a prefix |
| `RateWindows.dfy`, `RateLedger.dfy`, `RateWait.dfy`, `RateLimit.dfy` | windows of admissions, whose figures are recorded, how long is waited, and the rate limiter |
| `Pairing.dfy`, `PairingOrder.dfy` | pairing calls with results for the providers |
| `Workflow.dfy`, `Loops.dfy` | the inbox of the thread workflow, and the two turn loops |
| `Threads.dfy` | cancelling a thread and its descendants |

## What is assumed

- Compaction runs: call ids are new, a result answers a recorded call, all results of a message
  are stored before the next answer, and a blocking summary is written before anything else is
  said. Ids come from the store's counter.
- Tool runs: call ids and group ids are new, one admission and one resolution per call (both are
  started with one attempt), any number of execution attempts, which may overlap; a body's error
  is none or not empty (`ToolRecords.EmptyErrorTurnsToSuccess` says why); `record_cancelled` is
  one step. The store itself does not fail.
- Turns: a lost attempt takes no more steps, no other turn of the thread runs meanwhile, and a
  store's `get` returns a copy, as the SQL stores do: in memory it is the live run, whose count
  shows before `update` (actant/runtime/stores/in_memory.py:84-88).
- Sandboxes: provider ids are unique, a sandbox that is gone stays gone, every backend named is
  registered, and a close reads and forgets the record in one step. Only its opener records a sandbox
  first.
- Pairing: call ids that were given are distinct, generated ids are fresh, and only assistant messages
  make calls.
- Cancelling threads: parent links have no cycle, and no thread starts meanwhile.

## What the code does not keep

- A turn that measures its request is gated before its messages are stored, so a refusal drops
  them; one that does not measure stores them first. `Turns.RefusalLosesMessages` says exactly
  when.
- A crash between the thread's and the run's count leaves the run one behind for good
  (`Turns.LostBetweenCounts`, and `Turns.AnsweredTurnIsWhole` for when it does not).
- An empty error string is written as a failure and read back as a success.
- The comment in `_compute_wait` promises the earliest sufficient wait; the code always waits the
  whole window and the slack. `RateWait.EnoughWait` says which waits are enough and when the two
  agree.
- A correction rewrites the newest entry, whoever reserved it. The recorded figures are the
  reservations' own exactly when every correction lands on its own admission
  (`RateLedger.OwnFiguresIffAllLand`), as it does for reservations one after the other
  (`RateLimit.RateLimiter.Reserve`).
- Reopening an id on another backend leaves its live sandbox unrecorded
  (`Sandboxes.ChangedBackendStrands`). A look at a recorded sandbox leads there exactly when its
  open names another backend than the record and the sandbox is neither gone nor being closed
  (`Sandboxes.LookStrandsIff`); so an id may move to another backend once its sandbox was lost or
  closed.
- Two callers can hold different live sandboxes. With no owner's close, a look leads there exactly
  when its open names another backend while the sandbox is not gone, though it may be closing
  (`Sandboxes.LookPartsIff`).
- An empty seed is marked as copied, and an emptied prefix keeps its marker. From an empty prefix a
  seed copy that is cut off can be served exactly when the marker is there
  (`Restore.PartIsServedIffMarked`); emptying a prefix before it is marked, which the startup itself
  asks for, is safe.

## Model

| member | source | states |
|---|---|---|
| Views.BuildView | actant/runtime/compaction.py:122-145 | the loop over rows and the set of calls seen yields the view the fold over the rows defines; what its messages, ids and usage point mean is stated by `PairedRuns.EveryViewIsPaired`, `Transcript.ViewIds` and `Measuring.UsageStartsAfterSummary` |
| Views.RenderAt | actant/runtime/compaction.py:134-144 | every conversation row has exactly its own place in the view, with its id, shown by the calls before it alone |
| Views.RenderCalls | actant/runtime/compaction.py:133-142 | the calls the loop has collected are exactly those of the messages it shows |
| Views.KeptIsLatest | actant/runtime/compaction.py:148-155 | what a compaction keeps by tag is, for each kept tag and no other, the latest stored message of that tag |
| Views.FindPendingStart | actant/runtime/compaction.py:158-166 | the backward scan finds where the pending part starts, for every floor |
| Views.PendingStartAtCall | actant/runtime/compaction.py:158-166 | the pending part starts at the last assistant message when it made calls, and after it when not, so no call is cut from its results |
| Transcript.ViewIds | actant/runtime/compaction.py:122-145 | view ids rise, the summary alone has none, and they are exactly the ids of the messages the model rows hold |
| Transcript.ViewPrefix | actant/runtime/temporal/activities/runs.py:508-548 | the messages before a boundary in the view are exactly the visible ones with no later id |
| Transcript.MeasuredViewIsNextView | actant/runtime/temporal/activities/runs.py:677-700 | the view measured while a summary is stored is the view the next turn reads: the stored tokens are that request's, and the stored images are those of that view prepared without a limit |
| Transcript.VisibleAfterStore | actant/runtime/temporal/activities/runs.py:662-700 | storing a summary leaves visible exactly what was visible past its boundary and the latest message of each kept tag up to it: nothing after the boundary is removed and nothing else comes back |
| Transcript.VisibleAfterAppend | actant/runtime/stores/in_memory.py:264-287 | an appended message becomes visible and hides nothing |
| Turns.RetryMeasuresSameRequest | actant/runtime/temporal/activities/runs.py:248-311 | a retry that finds some of its messages stored measures the same request, from the same usage point, as the attempt before it |
| Measuring.UsageStartsAfterSummary | actant/runtime/compaction.py:143-144 | a message of a view counts for usage if and only if it was stored after the compaction row; without one every message does |
| Measuring.OldUsageIsNotMeasured | actant/runtime/compaction.py:197-209 | a measure is the latest usage reported after the compaction row and the text after it, or the text of the whole view when none was; what was reported before that row never counts |
| Measuring.TokensAfterIsEstimate | actant/runtime/temporal/activities/runs.py:691-696 | a summary is stored with the text estimate of the view it leaves, whatever the messages it carries reported |
| Measuring.EstimateIsLeast | actant/runtime/compaction.py:180-194 | the estimate is the least number of tokens that hold, at four characters each, the system prompt and everything the messages say |
| Store.MessageStore.Append | actant/runtime/stores/in_memory.py:273-287 | one counter numbers every thread's rows; only the named thread grows |
| Store.MessageStore.AppendToolResult | actant/runtime/stores/in_memory.py:224-255 | a second result for a call changes nothing; a first one is appended |
| Store.MessageStore.ListForTurn | actant/runtime/stores/in_memory.py:260-262 | exactly the rows the turn stored, in order |
| Store.MessageStore.ReadForModel | actant/runtime/stores/in_memory.py:264-271 | the comprehension equals the latest compaction row, what follows it and what it keeps |
| Store.StoreSummary | actant/runtime/temporal/activities/runs.py:646-702 | stores the block that the specification gives, with the summary's text and the trigger's reason and figures, or nothing at all when the context was compacted since or the boundary is unknown |
| Summaries.SummaryIsWhatWasWritten | actant/runtime/temporal/activities/runs.py:680-689 | over every run a compaction row holds the text the model wrote for it, and the reason and figures of the turn that triggered it |
| Summaries.ViewStartsWithSummary | actant/runtime/compaction.py:95-96 | over every run with a stored summary the first message of the view is the prefix, the latest text the model wrote, and the suffix |
| Summaries.SummaryLeavesPending | actant/runtime/temporal/activities/runs.py:870-893 | a turn past a limit triggers a summary if and only if something was answered since the last one, and the summary replaces the view up to its pending part and nothing of it, a background one whatever was said since |
| CompactionRuns.NothingIsLost | actant/runtime/temporal/activities/runs.py:490-573 | over every run of messages, answers, results, measures, summaries written and stored, what is visible and the chain of summaries cover every stored message |
| CompactionRuns.EveryMessageIsSeenOrSummarized | actant/runtime/temporal/activities/runs.py:490-702 | the same for each message by id; a written summary's boundary is always found, and storing it fails exactly when it is stale |
| CompactionRuns.OneSummaryPerBase | actant/runtime/temporal/activities/runs.py:664-670 | of the summaries started over one compaction, at most one is ever stored |
| CompactionRuns.ReachableCutIsPositive | actant/runtime/temporal/activities/runs.py:511-548 | in every run the cut of a measured turn's summary is past the start of the view, so the index of -1 that a cut of 0 would read is not reached |
| PairedRuns.EveryRunIsSafe | actant/runtime/temporal/activities/runs.py:840-893 | calls still open stay in the view whatever summaries are stored, because a boundary never passes an open call |
| PairedRuns.EveryViewIsPaired | actant/runtime/compaction.py:99-145 | in every reachable view each tool message follows its assistant call, a visible call's stored results all follow it, a kept result whose call was replaced is a user message that says so and then has its content, and past the summary nothing but stored rows is shown |
| Pairs.ToolFollowsCall | actant/runtime/compaction.py:134-142 | a tool message in a view comes after the call it answers |
| Pairs.CallShowsResults | actant/runtime/compaction.py:122-145 | a call in a view has each of its stored results after it |
| Pairs.OrphanIsRetained | actant/runtime/compaction.py:99-119 | a kept result whose call is not in the view is shown as a user message: its tag, a first block that says what it is, and its content block by block |
| Images.DropOldestImages | actant/runtime/compaction.py:264-286 | the nested loops replace exactly the oldest images, as many as the chunked count says, each by its own label, and no other block |
| Images.LimitHeld | actant/runtime/compaction.py:264-286 | at most the limit is left, more than the limit less a chunk when any is dropped, the request itself when none is, and what is dropped is a multiple of half the limit |
| Images.DropsLeast | actant/runtime/compaction.py:271-272 | no smaller number of whole chunks would do |
| Images.OnlyLabelsLeft | actant/runtime/compaction.py:264-299 | once as many images are dropped as there are, no inline, linked or stored image is left |
| Images.NextChunk | actant/runtime/compaction.py:264-286 | appending messages changes how many are dropped if and only if the kept images and the new ones pass the limit |
| Images.EarlierPartIsStable | actant/runtime/compaction.py:264-286 | the earlier part of a longer request drops at least the same images, and is the earlier output itself until another chunk is needed |
| ToolRecords.StoredResultReadsBack | actant/runtime/temporal/activities/tools.py:393-400 | a stored result reads back as itself if and only if its error is not the empty string, a failure has no output, and no content blocks are set |
| ToolRecords.StoredOutcomeReadsBack | actant/runtime/temporal/activities/tools.py:403-412 | the status and terminal flag read from the record are those of the result if and only if its error is not the empty string |
| ToolRecords.EmptyErrorTurnsToSuccess | actant/tools/base.py:78-90 | an empty error is stored as a failure and read back as a success |
| ToolRecords.StoredFields | actant/tools/base.py:78-90 | a stored result has an error or an output, and its id, metadata and content blocks exactly when there are any |
| ToolRecords.ToolCallStore.UpdateStatus | actant/runtime/stores/in_memory.py:116-135 | a status update is refused exactly on a final record, and then changes nothing; else it writes the status, and the result, prompt and wait request that are given |
| ToolRecords.ToolCallStore.FinishWaiting | actant/runtime/stores/in_memory.py:137-149 | a resolution is accepted exactly while the record waits |
| ToolRecords.RecordCancelled | actant/runtime/cancellation.py:20-49 | the loops over open calls and unanswered ids close every record and answer every recorded call once |
| ToolRecords.CancellingAgainChangesNothing | actant/runtime/cancellation.py:20-49 | recording a cancel on a cancelled thread is the identity on records and transcript |
| ToolRecords.AnswerMissing | actant/runtime/cancellation.py:29-44 | exactly the recorded calls without a result get one |
| ToolRecords.FinalizeToolGroup | actant/runtime/temporal/activities/tools.py:365-377 | every member of the group and no other call gets a result, its record's own when it has one |
| ToolRecords.CloseRun | actant/runtime/temporal/activities/runs.py:744-774 | exactly the run's open calls are closed, other records stay, every call of the run and no other is answered, and each new answer is its record's own result |
| ToolRecords.ClosedCallReports | actant/runtime/temporal/activities/runs.py:750-762 | a call closed with its run reads as a success when the run was cancelled and as a failure when it failed; one that was final keeps its own report |
| ToolSafety.SafeNext | actant/runtime/temporal/activities/tools.py:53-377 | every store step of admission, execution, resolution, finalization and cancellation keeps the invariant that ties records, messages, decisions, attempts and reports |
| ToolTheorems.FinalForever | actant/runtime/stores/in_memory.py:116-149 | a final record is never written again, by any activity under any schedule |
| ToolTheorems.AtMostOneFinalTransition | actant/runtime/stores/in_memory.py:116-149 | over a whole run a call makes exactly one final transition if its record is final and none if it is not |
| ToolTheorems.OneMessagePerCall | actant/runtime/temporal/activities/runs.py:744-774 | a call has at most one message, exactly one once its group or its closed run is finalized, and it carries the record's final result |
| ToolTheorems.GroupsFinalizeFinalRecords | actant/runtime/temporal/workflow.py:484-513 | when a group is finalized every record of it is final with a result |
| ToolTheorems.AttemptsAgree | actant/runtime/temporal/activities/tools.py:162-211 | a tool that is not safe to retry runs its body at most once over all attempts; every attempt that returns reports what the record says |
| ToolTheorems.OutcomesAgree | actant/runtime/temporal/activities/tools.py:289-299 | two attempts of one call, whenever they return, report the same outcome |
| ToolTheorems.CancelSettles | actant/runtime/cancellation.py:20-49 | cancelling a thread in any reachable state closes every record and answers every recorded call |
| ToolResults.VerdictIsRecorded | actant/runtime/temporal/activities/tools.py:89-143 | unless its record was final, an admitted call is running, waiting with the tool's prompt and wait request, or blocked for the reason, and its record holds nothing else |
| ToolOrigins.VerdictDecides | actant/runtime/temporal/activities/tools.py:89-143 | over every run a call is decided EXECUTE only if its verdict allowed it, AWAIT_HUMAN only if it asked, and DENY only if it refused, the record was final or the admission failed; a call not allowed never starts its body |
| ToolOrigins.BodiesWereAllowed | actant/runtime/temporal/activities/tools.py:89-143 | no body runs in any attempt unless a verdict allowed its call while its record was open |
| ToolResults.BodyResultIsStored | actant/runtime/temporal/activities/tools.py:193-211 | what a body returned is stored as it is, as COMPLETED if and only if it has no error, and reported, unless the record was final by then |
| ToolResults.ResolutionIsStored | actant/runtime/temporal/activities/tools.py:302-338 | the same for what an answer resolved to, and the record still waits unless it is final |
| ToolResults.ReportIsReturned | actant/runtime/temporal/activities/tools.py:193-211 | what an attempt wrote, or read when it came too late, is what it returns |
| ToolResults.FinalResultHasOrigin | actant/runtime/temporal/activities/tools.py:53-338 | every final record was made final by one step and keeps what that step gave it: what a body returned, a missing tool, an interrupted attempt, a failure's reason, an answer read while the call waited, a refusal's reason, or that its run or thread was closed |
| Turns.EveryTurnFits | actant/runtime/temporal/activities/runs.py:155-183 | over every schedule of lost attempts a turn's rows are the first of its messages once each in order, at most one answer, and at most one reminder after it |
| Turns.AnsweredTurnIsWhole | actant/runtime/temporal/activities/runs.py:355-430 | a turn that reports an answer has stored all its messages, that answer and the reminder exactly when it reports it; the model is never asked after an answer is stored; the thread count is the turn index and the run count follows unless an attempt was lost between the two updates |
| Turns.RunCanStayBehind | actant/runtime/temporal/activities/runs.py:349-352 | for every turn: some schedule reports an answer with the run one behind if and only if the turn can answer at all |
| Turns.LostBetweenCounts | actant/runtime/temporal/activities/runs.py:349-377 | for every turn that can answer and every tool calls, the schedule that leaves the run one behind |
| Turns.CrossedTurnStoredNothing | actant/runtime/temporal/activities/runs.py:282-297 | a turn that reports a crossed limit stored none of its messages |
| Turns.RefusedTurnKeepsMessages | actant/runtime/temporal/activities/runs.py:224-245 | a turn that does not measure has its messages stored before the gate can refuse it |
| Turns.RefusalLosesMessages | actant/runtime/temporal/activities/runs.py:224-245 | a refused turn can leave messages unstored if and only if it measures and has any |
| Turns.AsksPastTheGate | actant/runtime/temporal/activities/runs.py:231-313 | a gated turn asks the model only in an attempt that the gate let through, and one that measures only when its request crosses no limit |
| Turns.RefusedAsksNothing | actant/runtime/temporal/activities/runs.py:233-245 | a refused attempt is over: it asks nothing and stores nothing more |
| Sandboxes.SandboxStore.Claim | actant/sandbox/store.py:105-112 | compare and set: the record changes exactly when it names what was expected, and the result is the record afterwards |
| Sandboxes.SandboxStore.Forget | actant/sandbox/store.py:114-115 | the id has no record and others keep theirs |
| Sandboxes.EveryRunIsSafe | actant/sandbox/registry.py:129-207 | the invariant of the protocol over every interleaving of resolves, cancels, reclaims and closes on any backends, while no look strands a sandbox |
| Sandboxes.NoSandboxIsStray | actant/sandbox/registry.py:145-168 | while no look names another backend than the live sandbox it finds recorded, every sandbox opened is the recorded one, with its opener before the claim, being closed, or gone |
| Sandboxes.LookStrandsIff | actant/sandbox/registry.py:138-145 | in every state reached without such a look, the next look can lead to a stray sandbox, with no such look after it, if and only if it is one |
| Sandboxes.OneLiveSandbox | actant/sandbox/registry.py:62-92 | with no owner's close, and no look that names another backend than a recorded sandbox that is not gone, all callers that hold a live sandbox hold the same one, also when a cancelled resolve's claim was recorded |
| Sandboxes.OneLiveUnlessClosing | actant/sandbox/registry.py:171-207 | with closes too: two callers hold different live sandboxes only while one of the two is being closed, and that takes an owner's close or a look for another backend at a sandbox being closed |
| Sandboxes.LookPartsIff | actant/sandbox/registry.py:138-145 | in every state reached without closes and such looks, the next look can lead to two callers with different live sandboxes if and only if it is one |
| Sandboxes.ResolvesComeToAnEnd | actant/sandbox/registry.py:130-169 | a resolve goes round no more often than the record came to name another sandbox since it began, and that happens no more often than there are resolves and closes |
| Sandboxes.ChangedBackendStrands | actant/sandbox/registry.py:140-145 | for any two different backends, reopening an id on the second strands the live sandbox of the first, which callers still hold |
| SandboxSpecs.HeldWithItsSpec | actant/sandbox/registry.py:129-173 | a resolve that ends with a sandbox found or left the record naming exactly that sandbox with its caller's spec, settings too; without a spec, with one that was recorded under the id while it resolved |
| SandboxResolve.World.Resolve | actant/sandbox/registry.py:129-169 | the retry loop ends for any spec, leaves stray no sandbox but those on another backend than the spec names, returns one on the backend named that is recorded, gone or being closed, leaves none of its own stray, and fails only without a spec on an id with no record; what it returns was recorded with exactly the spec named, and with nobody else at the record it is at the end |
| Host.Host.ForgetFinished | actant/sandbox/host.py:513-525 | the sorted deletion drops every expired call and the oldest past the limit and no other: of the finished calls that are not expired, all remain up to 1024 |
| Host.KeptAreLater | actant/sandbox/host.py:516-525 | no finished call kept is older than one dropped |
| Host.Host.Arrive | actant/sandbox/host.py:469-492 | a known id joins its call or is refused as a different one and changes nothing; a new one starts after forgetting |
| Host.Host.Cancel | actant/sandbox/host.py:494-511 | an id that has not arrived is remembered as cancelled; a known one is left in place |
| Host.Host.Finish | actant/sandbox/host.py:415-418 | a call ends once, with the outcome everyone waiting for it gets |
| Host.StartsOnce | actant/sandbox/host.py:478-483 | between a start, or a cancel before arrival, and the next start of an id, the id was forgotten |
| Host.RunningIsNotForgotten | actant/sandbox/host.py:513-525 | a started call ended before it was forgotten |
| Host.Pusher.Complete | actant/sandbox/host.py:538-542 | a completed call is pending and due |
| Host.Pusher.Wake | actant/sandbox/host.py:555-564 | with a completed call that no successful push covers, the next wake pushes it, and one with nothing due or pending pushes nothing |
| Host.Pusher.End | actant/sandbox/host.py:566-581 | a success covers the calls completed before the push began, a failure keeps them pending; failures count since the last success |
| Restore.EveryStartupIsSound | actant/sandbox/entry.py:148-178 | the invariant of startups cut off at any command |
| Restore.ServedRunsWereSeeded | actant/sandbox/entry.py:148-178 | a seeded run that serves has had a complete seed copy, unless a copy had begun with the marker already there, its marker is there, and its last pull onto the disk did not fail |
| Restore.UnmarkedEmptyingIsSafe | actant/sandbox/entry.py:148-178 | with something in the seed, and the prefix emptied only while it has no marker, no copy begins with the marker there and whatever is served was seeded whole |
| Restore.RecoveryServesWhole | actant/sandbox/entry.py:65-70 | a copy cut off, the prefix emptied and seeded again is such a run, and serves exactly the seed, for any seed |
| Restore.PartIsServedIffMarked | actant/sandbox/entry.py:148-178 | from any stopped state with an empty prefix and a seed of two objects or more, a part of the seed can be served without emptying again if and only if the marker is there |
| Restore.MarkedEmptyPrefixServesPart | actant/sandbox/entry.py:157-178 | from any emptied prefix with its marker left and a seed of two objects, one cut startup and the next serve a part of the seed |
| Restore.EmptySeedIsMarked | actant/sandbox/entry.py:119-125 | an empty seed counts as a finished copy and is marked, which leaves such a prefix |
| RateLimit.RateLimiter.Acquire | actant/llm/rate_limit.py:58-86 | for every estimate, limit and number of tries: from two tries on it admits if and only if the request fits an empty window, after at most one sleep; it never admits another; the admission fits the closed window that ends now over the whole history; the request bound holds in every closed window, and the token bound too when it held before |
| RateLimit.RateLimiter.Commit | actant/llm/rate_limit.py:128-139 | a reservation that reports its estimate or nothing changes no admission; another figure rewrites the last admission, and the reservation is misplaced unless that is its own and still in the deque |
| RateLimit.RateLimiter.Reserve | actant/llm/rate_limit.py:46-56 | with no other reservation open it ends with its own figure recorded on its own admission, and the token bound survives if and only if that figure fits the window its admission closes |
| RateLimit.RateLimiter.ComputeWait | actant/llm/rate_limit.py:88-109 | whatever the deques hold the wait is the whole window and the slack |
| RateLimit.RateLimiter.Evict | actant/llm/rate_limit.py:111-116 | the deques keep holding the end of the history, with nothing older than the window at their head |
| RateLimit.RateLimiter.RecordActual | actant/llm/rate_limit.py:118-126 | rewrites the last admission alone, or none when the deque is empty; the token bound survives if and only if the window ending at that admission still fits |
| RateLedger.CorrectionRewrites | actant/llm/rate_limit.py:118-126 | a correction by a reservation rewrites its own admission if and only if that is the last one and the deque is not empty, and no admission but the last |
| RateLedger.RecordedAreOwn | actant/llm/rate_limit.py:118-126 | the recorded figures are the reservations' own if and only if no correction went astray |
| RateLedger.OwnFiguresIffAllLand | actant/llm/rate_limit.py:118-139 | over every run of admissions, evictions and commits the recorded figures are the reservations' own if and only if every correction landed while its own admission was the last and still in the deque |
| RateWait.EnoughWait | actant/llm/rate_limit.py:96-109 | a wait is enough if and only if it outlasts the entry that frees the budget; what is waited is that bound and the slack if and only if that entry was admitted just now |
| RateWait.LongerThanNeeded | actant/llm/rate_limit.py:96-109 | an entry of 59 seconds ago fills the budget: two seconds would do, and the whole window and the slack is waited |
| RateWindows.AdmittingKeepsBounds | actant/llm/rate_limit.py:58-71 | one more admission keeps every closed window within each limit if and only if the window that ends with it has room |
| RateWindows.AmendingKeepsBounds | actant/llm/rate_limit.py:118-126 | a correction never changes a request count, and keeps the token bound if and only if the window ending at the corrected entry fits |
| RateWindows.RaisingBreaksBound | actant/llm/rate_limit.py:118-126 | a correction upwards can break the token bound |
| RateWindows.MisplacedCorrection | actant/llm/rate_limit.py:118-126 | a correction of an earlier reservation lands on a later one, and lets in more than the reservations' own figures allow |
| Pairing.NameMessages | actant/llm/providers/_shared.py:107-130 | the naming loop yields the naming the specification defines |
| Pairing.SanitizeToolMessages | actant/llm/providers/_shared.py:103-148 | both loops together yield the specified request |
| Pairing.NamelessAnswerInOrder | actant/llm/providers/_shared.py:110-130 | results without ids answer the waiting calls in the order the calls were made, also calls whose ids were generated |
| PairingOrder.NamelessAnswersOldest | actant/llm/providers/_shared.py:110-130 | a result without an id answers the oldest call that no result has answered since it was made, and gets a generated id if and only if there is none |
| PairingOrder.PendingWaits | actant/llm/providers/_shared.py:107-130 | what the naming keeps as pending is exactly those calls, oldest first |
| PairingOrder.MissingSays | actant/llm/providers/_shared.py:132-148 | what stands in for an unanswered call is an interrupted result under the call's own id and name |
| Pairing.NameKeeps | actant/llm/providers/_shared.py:107-130 | naming gives ids to calls and results that had none and changes nothing else |
| Pairing.NamedAreDistinct | actant/llm/providers/_shared.py:107-130 | once named every call has an id of its own |
| Pairing.EveryCallHasOneResult | actant/llm/providers/_shared.py:107-148 | with distinct given ids, every call, one with a generated id too, is sent once with exactly one result; a result id is sent once when something answers it and as an interrupted result only for a call nothing answers; given ids stay |
| Pairing.OrderIsKept | actant/llm/providers/_shared.py:132-148 | the named messages in order without later duplicates of a result, each followed at once by the interrupted results of its unanswered calls, and no interrupted result elsewhere |
| Pairing.SanitizeIsIdempotent | actant/llm/providers/_shared.py:103-148 | sanitizing a sanitized request changes nothing |
| Workflow.ThreadWorkflow.Run | actant/runtime/temporal/workflow.py:179-210 | however it ends, every signalled message is in exactly one batch or still in the inbox, in arrival order; batches are turns' but those of runs that failed to start and, when the thread was stopped, at most the last, so with neither all were handed to turns; it stops by itself only with an empty inbox |
| Workflow.ThreadWorkflow.RunAgent | actant/runtime/temporal/workflow.py:261-403 | cancelled before its first turn it leaves exactly the drained messages undelivered; else every batch is a turn's and the first begins with those messages; CANCELLED is reported only when stopped |
| Workflow.ThreadWorkflow.RunTurn | actant/runtime/temporal/workflow.py:290-360 | a turn called again after a summary or compaction is one batch: its own messages first, then what arrived meanwhile if the thread interleaves and nothing if not |
| Workflow.ThreadWorkflow.RunNext | actant/runtime/temporal/workflow.py:216-259 | exactly the queued messages are dropped when the run fails to start, or undelivered when the thread is stopped before its first turn; nothing else is lost; unless the thread interleaves the run is given those messages and no others |
| Loops.RunInProcess | actant/runtime/local.py:113-199 | the in-process loop ends as the script says, calls those turns, and counts the failed one |
| Loops.RunInWorkflow | actant/runtime/temporal/workflow.py:261-403 | the workflow loop ends as the script says, calls the same turns, and does not count the failed one |
| Loops.BothLoops | actant/runtime/local.py:113-199 | both loops end with the same outcome and stop reason; the counts differ, by one, exactly when a turn failed |
| Loops.RunIsNumbered | actant/runtime/temporal/workflow.py:273-282 | turns are within the budget and numbered on from the thread's count; a run is exhausted without a reason only when its budget is spent |
| Loops.RunIsDecided | actant/runtime/temporal/workflow.py:273-403 | a run goes on exactly while its turns are reminded or their tools end without a terminal one and its budget lasts; its outcome and reason are those its last turn says; each turn is told how many before it were reminded |
| Threads.Stores.CancelThread | actant/runtime/runtime.py:287-316 | fails exactly on a thread neither running nor known, changing nothing; else cancels the root and marks its descendants |
| Threads.Stores.CancelChildren | actant/runtime/runtime.py:318-324 | the recursion over a snapshot of children cancels exactly the active descendants |
| Threads.CancelReachesAll | actant/runtime/runtime.py:287-324 | root and every active descendant, below finished threads too, are CANCELLED; every other thread keeps status and parent |
| Threads.CancelAgain | actant/runtime/runtime.py:287-324 | cancelling again changes nothing |

## Left out

- Temporal, asyncio, SQL, sockets and HTTP: they appear as atomic or interleaved steps. The SQL
  stores order rows by time and random id; the in-memory stores are modelled.
- Provider adapters, prompts, streaming, token usage parsing, Pillow, s5cmd and S3, the demo: they
  are not part of this model.
- Content of results and messages is opaque; a tool message carries the stored result as it is.
- Events and logging.
- Comparing a measure with the limits (`crossed_limits`): whether a request crosses one is given with the
  turn.
- The in-process tool group, which leaves a call that awaits a human without a resolution and
  finalizes it as "No result".
- Finalizing in order of id: the model finalizes in any order, which includes it.
- The five-second cache of verified sandbox handles: it returns a handle already held.
- A cancel that arrives while a losing resolve closes what it opened: the close is taken as issued
  and in progress from then on.
- A worker that dies between opening a sandbox and claiming it: its sandbox stays with its opener.
- `summarize` of a resumed turn: a stored turn reports none.
- A call cancelled while its body ran does not mark the storage as pending; only completed calls
  count for the push.
- Rotation takes the carried messages before any signal of the new execution.
- RateLimit.RateLimiter.Acquire: time is real, so rounding is not modelled; the number of tries a
  caller stays for stands for its patience, since a request that never fits is tried for ever.
- Transcript.MeasuredViewIsNextView: a turn that drops its oldest images prepares the view with a
  limit, so its request carries fewer images than the stored figure (`Images.LimitHeld`).
- Sandboxes.OneLiveSandbox: says nothing of processes that hold a handle to a sandbox that is gone;
  their next call fails and they resolve again.
- Workflow.ThreadWorkflow.RunTurn: a turn whose compaction fails was handed its messages but stored
  none of them.
- Restore.ServedRunsWereSeeded: pushes add objects and delete none, as the push command does; the
  other inputs restored alongside are independent pulls.
