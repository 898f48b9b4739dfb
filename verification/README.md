# Verified model of the order engine and its rule, rate-limit and operations code

The engine moves orders from a MySQL table through Redis lists to an upstream service. Several
actors work on the same state at once: a producer scans the table, consumers take messages and
lock their orders, a submit pool calls the upstream, a confirm pool looks up calls that timed
out, and a retry dispatcher, a dead-letter scanner, a reaper and a shutdown rollback repair what
is left. Around it stand a template and JSON-patch interpreter that builds upstream requests,
two rate limiters, and an operations plane that scales, pauses, configures and undoes.

The project models these parts in Dafny and proves what holds over every run of them, not only
what one call does.

## How the model is built

Code that changes shared state exists twice. A class carries it out step by step, on fields that
stand for the Redis keys, the table rows or the process's own maps (`OrderEngine.Engine`,
`OrderPools.Pools`, `DistributedLock.RedisKey`, `JsonHeap.Documents`, `RateLimiter.TokenBucket`,
`SlidingWindow.Window`, `WorkerControl.Control`, `RuntimeConfig.ConfigStore`, `OpsUndo.Executor`),
and each method is proved equal to a function from the old state to the new one. The theorems are
then proved about these functions, over runs. What such a function yields is stated once more without
it, case by case, in terms of rows, lists, counters and texts (`OrderOutcomes`, `ControlOutcomes`,
`TemplateCalls`, and lemmas beside the functions elsewhere).

The order protocol (`OrderProtocol`) is a state machine. A handler that takes one message and
leaves it is one step; a consumer's work on a locked order is a session that takes one step for
each decision, so sessions interleave freely. What a theorem needs of the environment is a
predicate on steps (`Careful`, `Undisturbed`, `NeverBusy`, `Unscrambled`, `ScannerWrites`,
`Survives`), checked in the state each step starts from. `OrderScenarios` holds runs that show what
these conditions are for. `OrderSessions` proves that the closures of `OrderPools`, which pass lock
objects along, take the steps of a session. The distributed lock is modelled one Redis command at a time, with a
version counter for WATCH.

| Files | Subject |
|---|---|
| `Wrappers`, `OrderStore`, `OrderHandlers`, `Resubmit` | optional values, tables and keys, the handlers as functions, retry settings |
| `OrderEngine`, `OrderPools` | the handlers, the producer and the pools as imperative code |
| `OrderOutcomes`, `OrderEffects` | what each handler leaves behind case by case, and that it touches no other order |
| `OrderProtocol`, `OrderRuns`, `OrderSessions` | the state machine, its runs, and the closures as sessions |
| `OrderSafety`, `OrderDedup`, `OrderMarkers`, `OrderLineage`, `OrderFailures`, `OrderOwnership`, `OrderScenarios` | theorems over runs, and runs that show their conditions are needed |
| `Producer`, `Recovery` | the paged drain, the restart |
| `DistributedLock` | tokens at command granularity |
| `Strings`, `Pieces`, `Base64` | white space, splitting and decoding of strings |
| `TemplateArgs`, `TemplateEval`, `TemplateCalls`, `TemplateItems`, `TemplateReadings`, `TemplateExact`, `TemplateExamples` | the template interpreter, what each argument and function yields, and what a `concat` means |
| `JsonPath`, `JsonPatch`, `JsonOrder`, `JsonHeap`, `BraceScanner` | JSON patches, and the search for a JSON object in a text |
| `RateLimiter`, `SlidingWindow` | admission bounds |
| `WorkerControl`, `ControlOutcomes`, `RuntimeConfig`, `OpsUndo` | the operations plane |

## What the proofs show about the code

* An order is submitted successfully at most once as long as a live holder keeps its lock, a status
  read that would find a record succeeds, and one of the two success markers is written before the
  process dies. Marker expiry, crashes, other failed reads, and arbitrary loss or duplication of
  messages do not matter. If a live holder's lock can expire, two successes are possible, and a run
  shows it. That can happen without a crash: a lock's renewal runs under the consumer's context
  (distributed_lock.go:46, order_queue.go:1011), so a pause or a scale-down ends the renewal of a lock
  that a pool still holds.
* When the confirm pool is full, the lock is released twice. The second release closes a closed
  channel and panics: in a pool worker, which has no recover, the process ends; in a consumer the
  recover swallows the panic and the consumer's loop is over, while its handle and its place in the
  counter stay. Neither the scaler nor a new order replaces such a consumer: a channel whose only
  consumer dies this way has none until it is paused and resumed, or its counter is changed.
* A consumer that finds the lock of an order taken drops the message and leaves the enqueue
  marker. As long as no process dies between two commands of one handler and no deletion of a marker
  fails, this is the only way a marker without a message arises, and it needs no expiry, crash or
  reaper: a retry frees the marker while the session still holds its lock, and the producer issues
  the order again. No producer run and no restart brings that order back before the marker expires;
  a restart recovers an unfinished order exactly when its marker is not such an orphan.
* The dead-letter scanner removes the entry of an order that is already on record before it
  repairs the row. If that write fails, the order stays at `dockstatus='2'` without an entry,
  unless it has another one. This is the only way a failed order gets lost, and a run reaches it.
* The iteration order of a patch set's map never matters exactly if no two of its paths clash: they
  may meet (equal segments, or indices of equal value, all along the shorter one), and every other path
  that has to share an array with them names an index there. Two paths alone clash if and only if they
  may meet, and a path always clashes with its proper prefixes. Three paths `0`, `00` and `x` do not:
  where the first two meet, the third fails in every order.
* `setJSONPath` stores a composite patch value by reference. A later write changes the rule the value
  came from exactly if its path goes on through the slot and the rest of it would change that value.
* A `concat` reads an integer after a `split_part` as its optional last argument: with x = `a,b`,
  `concat split_part var.x 0 "," 2` is `a` and not `a2`. It does not show where text and separator are
  fixed, the number is the piece's position, and the digits are just what stands behind the piece, as
  in `concat split_part "a1" 0 "1" 1`. Call any other such place harmful. With one harmful place, or
  with several that only lose text, the value differs for some variables and columns, unless an item
  fails whatever they are; with none it never differs. Two harmful places can make up for each other.
  (A separator from a nested field of the order is set aside here.)
* One token bucket admits up to twice its capacity at one instant, because both levels start full.
* A plan that saves the global dead-letter setting before the one of a channel is not undone by
  the rollback: the channel keeps the global values. A plan that resumes a paused channel before
  it pauses it leaves the channel running. An adjustment that moves a channel's counter from below
  the minimum or above the maximum is not undone: the way back stops at that bound.

## Model

| member | source | states |
|---|---|---|
| OrderSafety.AtMostOneSuccess | order_queue.go:1009-1134 | over every careful run, no order has two upstream calls that returned success, and two sessions never hold the same order's lock at once |
| OrderSafety.StepSafe | order_pools.go:227-243 | every step keeps: a success is on record or its session still holds the lock, and a session past its checks belongs to an order without success |
| OrderScenarios.LostLockSubmitsTwice | distributed_lock.go:28-60 | without the condition on live holders' locks there is a run with two successful submissions of one order, for every configuration |
| OrderScenarios.ExpiredMarkerAdmitsSecondMessage | order_queue.go:880-894 | when a marker expires while its message is worked on, a run stores a second message of the order |
| OrderDedup.OneMessagePerOrder | order_queue.go:880-912 | over every undisturbed run an order has at most one message in all queues and processing lists, only while its marker is set; stored messages sit in their order's channel with 0 <= R < MaxAttempts |
| OrderDedup.StepClean | resubmit.go:234-260 | producer, push, consumer, pools, dispatcher, scanner and rollback each keep lists disjoint, free of repetitions and covered by markers |
| OrderFailures.FailedOrdersAreListed | resubmit.go:266-296 | every order the engine left at dockstatus 2 has a dead letter, over every run in which the scanner's repair writes succeed |
| OrderFailures.ScanLosesExactly | resubmit.go:442-501 | a scan step loses a failed order if and only if it finds the order on record, its repair fails and no other dead letter of it is left |
| OrderScenarios.FailedOrderIsLost | resubmit.go:461-501 | an undisturbed run reaches a failed order without a dead letter |
| OrderOwnership.LocksAreOwnedOnce | order_pools.go:204-262 | over every run the process survives up to the session's own last release: releases made plus owed equal acquisitions plus fallbacks; one release at most without a fallback, two after one, the second ending the process if a pool worker makes it |
| OrderSessions.ClosureIsSession | order_queue.go:1027-1135 | the consumer's closure, run on a locked message as a whole, is a run of session steps from Locked to the same state; the session then waits in the pool that holds the lock object, or is over |
| OrderSessions.PoolJobIsSession | order_pools.go:204-284 | a submit job carries its session on from InSubmitPool, success counted, to the confirm pool or its end; after a fallback the process is over |
| OrderSessions.ConfirmJobIsSession | order_pools.go:287-336 | a confirm job carries its session on from InConfirmPool to its end, with one release |
| OrderSessions.TakeIsSession | order_queue.go:943-1026 | the consumer's loop up to the lock begins a session whose number is the token: the newest session is Locked, or over with its message dropped or put back |
| OrderRuns.CleanersRunHandlers | order_queue.go:1563-1796 | reaper and rollback take a listed message and run their handlers under its channel's settings |
| Producer.DrainIsOneScan | order_queue.go:820-827 | the paged drain ends with the cursor at 0 and equals one scan without limit, for every page size |
| Producer.DrainPushesExactly | order_queue.go:838-929 | a drain adds exactly the pending orders above the cursor with a channel and without marker, each once, to its own queue, and changes nothing else |
| Producer.TwoDrainsCover | order_queue.go:920-927 | from any cursor, two complete drains reach every pending order, once |
| Producer.CursorAdvances | order_queue.go:838-842 | a full page leaves strictly fewer orders above the new cursor, so the drain ends |
| Producer.EligibleMeans | order_queue.go:841-874 | pending, not cancelled, beyond the cursor, with a channel, without a marker, and not refused |
| Producer.BatchesAre2000 | order_queue.go:842-927 | a batch reads the whole of fewer than two thousand orders and sets the cursor to 0, and else exactly two thousand and leaves the cursor at one of them |
| Recovery.RestartRecovers | order_queue.go:1755-1796 | after rollback and one drain an unfinished order is back in its queue exactly once if and only if its marker was not an orphan |
| Recovery.RestartCounts | order_queue.go:1764-1795 | for any lists: all listed processing lists are empty, and an unfinished order gains one message exactly if it was in processing or unmarked |
| Recovery.BusyLockLeavesOrphan | order_queue.go:1012-1017 | the LREM of the busy-lock branch leaves a marker without a message in any state without duplicates |
| OrderScenarios.OrphanArises | order_queue.go:1009-1017 | a run without expiry, crash, tampering or reaper ends with an orphan marker of an unfinished order: retry, fresh issue, busy lock |
| OrderScenarios.OrphanIsNotRecovered | order_queue.go:1755-1796 | no restart brings the order of that run back, whatever channels are listed, times and page size |
| OrderMarkers.OnlyBusyLocksOrphan | order_queue.go:1009-1017 | in every run in which no consumer finds its lock taken, with expiries, crashes, failed calls and the reaper at work, every marker has a message in a queue or in processing |
| Resubmit.Normalize | resubmit.go:124-147 | the result satisfies all bounds, those of the dead-letter scan included, each setting out of bounds has its default, and settings that satisfy the bounds are unchanged |
| Resubmit.RetryDelayBacksOff | resubmit.go:149-158 | for any reals that start with the initial delay and are each the multiple of the one before, the delay of attempt a is the a-th of them, cut to the largest delay and to whole seconds; attempts below 1 count as the first |
| Resubmit.RetryDelayGrows | resubmit.go:149-158 | later attempts never wait less; every wait lies between min(initial, max) and max |
| OrderLineage.RetriesAreBounded | resubmit.go:200-247 | over every run without tampering, a message with count R that is stored anywhere or worked on is below the limit and has behind it exactly R waits that the run scheduled, each of the computed delay, never decreasing, in total at most (MaxAttempts - 1) times MaxDelay |
| OrderLineage.EntersByRetry | resubmit.go:234-247 | a message enters the retry schedule only by the retry of a message with one count less that was stored or worked on before, due after the computed delay |
| OrderStore.RemoveFirstOids | order_queue.go:483-494 | LREM on a list without repetitions removes exactly one order |
| OrderOutcomes.RemovesTheFirst | order_queue.go:483-494 | of equal messages LREM removes the first, and all others keep their order |
| OrderEngine.Engine.EnqueuePending | order_queue.go:838-929 | one producer batch with its loops is the specified batch on the old state |
| OrderEngine.Engine.DrainPending | order_queue.go:820-827 | the loop over batches is the specified drain |
| OrderEngine.Engine.MarkCandidates | order_queue.go:880-894 | exactly the candidates without a marker are kept, in order, and marked |
| OrderEngine.Engine.PushCandidates | order_queue.go:896-920 | refused pushes give their marker back; the others are in their queues |
| OrderEngine.Engine.EnqueueOrderToHidQueue | resubmit.go:249-260 | marker and message appear together or not at all |
| OrderEngine.Engine.PushOrderToQueue | admin_enqueue.go:95-141 | each refusal leaves the state alone; success marks and pushes one fresh message to the row's channel |
| OrderEngine.Engine.RequeueFromProcessing | order_queue.go:482-494 | the message leaves processing exactly if one of three pushes succeeds, and is never in neither list |
| OrderOutcomes.ConfirmOutcome | order_pools.go:287-336 | after a timeout: an order in the hash is cleaned up, one in the table settled with its own upstream number; any other waits again with one count more exactly if retries and retries after a timeout are on, the next count is below the limit, the failure is retryable and not terminal, and the schedule takes it, and is given up in all other cases |
| OrderOutcomes.FinalizeOutcome | order_pools.go:224-284 | after a reply: a success is settled with its number, a refused order number with the row's if the table has the order; any other failure waits again or is given up by the same conditions without the one on timeouts |
| OrderOutcomes.RepairOutcome | order_queue.go:1036-1074 | an order found in the hash gets its row repaired with the recorded number and is cleaned up, or is given up if the row cannot be written |
| OrderOutcomes.ReapOutcome | order_queue.go:1563-1636 | the reaper frees the lock in every case; an order not on record waits again exactly if retries are on, below the limit and the schedule takes it, whatever failed |
| OrderOutcomes.RollbackOutcome | order_queue.go:1755-1796 | the shutdown frees lock, marker and list entry of a message, and writes rows and hash only for an order on record |
| OrderOutcomes.RecordedWrites | resubmit.go:365-501 | dispatcher and scanner write for an order on record the recorded number into the row, and from the row into the hash, and nothing otherwise |
| OrderOutcomes.DispatchUnrecorded | resubmit.go:365-391 | a due retry of an order not on record is queued in front, marked, and out of the schedule, or waits ten seconds from now |
| OrderOutcomes.ScanUnrecorded | resubmit.go:461-501 | a failed order not on record is pending again with its row else unchanged, its dead letter is gone, and a message with count 0 and the present time is queued if it can be |
| OrderOutcomes.EnqueueOutcome | resubmit.go:249-260 | message and marker of an unmarked order come together, in front of the queue, if the push succeeds, and nothing changes otherwise |
| OrderOutcomes.PushOutcome | admin_enqueue.go:95-141 | the order is queued if and only if it exists, is not cancelled, is pending, has a channel, the one asked for if any, which is not paused, and has no marker, and the push succeeds; it is then a fresh message of the row's channel with the present time |
| OrderOutcomes.PushRefusals | admin_enqueue.go:95-141 | of several reasons to refuse, the reply names the first in the order of the checks |
| OrderOutcomes.RequeueOutcome | order_queue.go:482-494 | a message put back is the next one that a consumer takes |
| OrderOutcomes.MoveOutcome | order_queue.go:947-985 | a consumer takes the oldest message of the queue, which comes first in its processing list; no other list changes |
| OrderOutcomes.QueuesAreFair | order_queue.go:896-985 | of two messages pushed, the earlier is taken first |
| OrderEffects.RetryMeans | resubmit.go:234-316 | a retry that is taken: the message is out of processing and waits in the schedule with one count more, below the limit, for a positive time of at most the largest delay; its order is unmarked, and no other order is touched |
| OrderEffects.GiveUpMeans | resubmit.go:266-296 | an order that is given up: its row says failed if the write succeeds, its message has moved, once, from processing to the dead letters, its marker is gone, nothing else changed |
| OrderEngine.Engine.ReapMessage | order_queue.go:1563-1636 | the four outcomes of the reaper for one overdue message; a young message is left alone |
| OrderEffects.DispatchMeans | resubmit.go:365-391 | a due retry leaves the schedule if and only if its order is found on record, which the row then says, or the message enters its queue; otherwise it waits ten more seconds, so it is never lost |
| OrderEffects.ScanMeans | resubmit.go:461-501 | a dead letter is taken up if and only if its order is found on record or its row says failed and the update goes through; in the second case the order is pending again and its message, count reset, is queued if and only if it was unmarked and the push succeeded |
| OrderEffects.OutcomesTouchOneOrder | order_pools.go:224-336 | finalizing, confirming and the consumer's repair leave row, record, lock, marker, waits and the relative order of all messages of every other order as they were |
| OrderEffects.CleanersTouchOneOrder | order_queue.go:1563-1636 | so do the reaper and the shutdown rollback |
| OrderEngine.Engine.RollbackProcessingAll | order_queue.go:1755-1796 | the nested loops are the specified rollback of all listed channels |
| OrderPools.Pools.TakeAndLock | order_queue.go:947-1026 | BLMOVE, then lock: locked with a fresh handle, dropped if busy, requeued if unreachable |
| OrderPools.Pools.Consume | order_queue.go:943-1137 | one turn of the consumer's loop, in any state of the pools; it keeps every lock object in exactly one job and open, or released once, or twice after a fallback |
| OrderPools.Pools.SubmitPoolWorker | order_pools.go:182-191 | a worker takes the first job knowing nothing about its lock; the same is kept, the job's lock is in a confirm job or released, and the panic happens exactly on the fallback |
| OrderPools.Pools.ConfirmPoolWorker | order_pools.go:193-202 | a worker takes the first confirm job; the same is kept and the lock is released once |
| OrderPools.Pools.HandleLockedMessage | order_queue.go:1027-1135 | state and place of the lock after the consumer's closure for every case, failed status reads included; no lock is lost or doubled |
| OrderPools.Pools.RunSubmitPoolJob | order_pools.go:204-221 | the lock ends in a confirm job or is released; it panics if and only if the confirmation fell back |
| OrderPools.Pools.FinalizeSubmitOutcome | order_pools.go:224-284 | state and hand-over for success, timeout, invalid order number, retry and failure |
| OrderPools.Pools.RunSubmitTimeoutConfirmation | order_pools.go:287-336 | the confirmation's outcome, failed reads included, followed by the one release of the job's lock |
| OrderPools.Pools.Release | distributed_lock.go:97-112 | only the own token is deleted, if the delete gets through; a second call panics before it deletes |
| DistributedLock.TokenSafety | distributed_lock.go:114-177 | for every interleaving of single commands: grants and ends alternate, a delete ends only its own token's grant, an extension reaches only its own token |
| DistributedLock.NoGrantBeforeRelease | distributed_lock.go:28-60 | without forced deletes, between two grants the first expired or was deleted by its own holder |
| DistributedLock.CommandsMean | distributed_lock.go:114-177 | an extension keeps the token, a deletion takes it, SET NX sets a free key only; WATCH notices each of these, and an expiry or not |
| DistributedLock.HolderSucceeds | distributed_lock.go:114-177 | undisturbed, the holder's deletion frees the lock and its extension reaches its own grant |
| DistributedLock.OthersFail | distributed_lock.go:114-177 | a call that does not find its own token, or whose key was touched since WATCH, ends without effect |
| DistributedLock.RedisKey.CommitIfHeld | distributed_lock.go:114-177 | eight optimistic attempts against any interference and a connection that may fail before the reply to GET or in EXEC, run or not: the key changes at most once, only while it holds the own token or has just expired, and exactly once if success is reported |
| JsonPath.PutGet | platform_rule_extend.go:281-323 | what a successful write put at a path is what the reader finds there |
| JsonPath.GetPut | platform_rule_helpers.go:141-160 | writing back what is present changes nothing |
| JsonPath.PutPut | platform_rule_extend.go:281-323 | the second of two writes to a path decides |
| JsonPath.PutFails | platform_rule_extend.go:281-323 | a failing write leaves the whole document unchanged |
| JsonPath.PutKeepsOthers | platform_rule_extend.go:281-328 | a write does not change what a path reads that it does not meet in the document |
| JsonPath.PutsCommute | platform_rule_extend.go:262-270 | writes that do not meet in the document commute, document and success alike |
| JsonPath.PutKeepsMeetings | platform_rule_extend.go:281-323 | a write does not change which paths meet another one that it does not meet |
| JsonPath.IndependentNeverMeet | platform_rule_extend.go:325-328 | with canonical indices, paths of which neither is a prefix of the other meet in no document |
| JsonPath.NumeralsDiffer | platform_rule_extend.go:325-328 | canonical indices with the same value are the same text |
| JsonPath.IndependentMeansNoPrefix | platform_rule_extend.go:262-270 | paths are independent if and only if neither is a prefix of the other |
| JsonPath.GetNestedValueAny | platform_rule_helpers.go:141-160 | the reader's loop is the recursive lookup |
| JsonPath.SegmentsJoin | platform_rule_extend.go:281-286 | the segments of a path hold no dot, and joined with dots they are the path |
| JsonPath.NumbersParse | platform_rule_extend.go:299-318 | decimal numbers of 64 bits are read with or without a sign, larger ones are none |
| JsonPath.OthersAreNoNumbers | platform_rule_extend.go:299-318 | any other character makes a segment no index |
| JsonPath.SegmentsName | platform_rule_extend.go:287-322 | in a map a segment is a key, added if it is missing; in an array it is the index of an element that exists; reader and writer agree on it, and the reader skips empty segments |
| JsonPath.LeavesHaveNoParts | platform_rule_extend.go:306-322 | nothing can be written or found below a value that is neither a map nor an array |
| JsonPath.CanonicalMeans | platform_rule_extend.go:325-328 | canonical segments are the decimal numbers and everything that is no number |
| JsonPatch.PatchConfluence | platform_rule_extend.go:262-270 | all orders of a compatible patch set give the same document, or all fail |
| JsonPatch.PatchSucceeds | platform_rule_extend.go:262-270 | writes that do not meet in the document all succeed if and only if each would succeed alone on the original |
| JsonOrder.OrderMattersExactly | platform_rule_extend.go:262-270 | for every set of paths: all orders give one result for every document and all values if and only if no two paths clash |
| JsonOrder.OrderOfTwo | platform_rule_extend.go:262-270 | for two paths: if and only if they cannot meet |
| JsonOrder.PrefixesClash | platform_rule_extend.go:287-305 | a path and a proper prefix of it clash in every set, so the order matters |
| JsonOrder.MeetingIsNotEnough | platform_rule_extend.go:299-303 | paths that may meet do not clash when a third one fails wherever they meet |
| JsonHeap.Documents.SetJsonPath | platform_rule_extend.go:281-323 | the loop that changes maps and arrays in place is the specified walk over the cells |
| JsonHeap.Documents.ApplyWrites | platform_rule_extend.go:262-270 | the in-place loop over a map of writes is the specified sequence of walks in one of its orders |
| JsonHeap.WriteRefinesPut | platform_rule_extend.go:281-323 | on a document that is a tree, the in-place walk succeeds like, and leaves the document of, the value-level write, touches no foreign cell, and leaves the written value itself in the slot |
| JsonHeap.PatchRefines | platform_rule_extend.go:262-270 | a whole patch set, written in place in any order, comes to the result of the value-level writes in that order |
| JsonHeap.InPlaceOrderIrrelevant | platform_rule_extend.go:262-270 | without a clash, any two orders run in place leave the same document, or both fail |
| JsonHeap.ChangesExactly | platform_rule_extend.go:306-322 | a walk changes an existing map or array if and only if it ends there and the slot does not already hold the value |
| JsonHeap.LaterWriteChangesRule | platform_rule_extend.go:266-268 | after a composite rule value was written at a path, a later write changes the rule's value if and only if its path goes on through that slot and the rest of it would change the value |
| JsonHeap.RuleBecomes | platform_rule_extend.go:266-268 | the rule's value is then itself with the later value written at the rest of the path |
| TemplateArgs.SplitTemplateArgs | platform_rule_extend.go:567-594 | the loop over characters is the recursive splitter |
| TemplateArgs.SplitIsExact | platform_rule_extend.go:567-594 | the result is the one list of arguments of which the text is a layout with blanks outside quotes, and only that |
| TemplateArgs.RejoinedSliceSplits | platform_rule_extend.go:485-486 | joining any slice of the splitter's output with spaces and splitting again gives the slice back, with quotes, escapes and an unterminated last quote |
| TemplateArgs.QuotesHold | platform_rule_extend.go:567-594 | text in single or double quotes is one argument whatever blanks it holds, and ends at the first such quote that no backslash precedes |
| TemplateArgs.BlanksCut | platform_rule_extend.go:567-594 | outside quotes every space and tab ends an argument |
| TemplateEval.EvalIsOverArguments | platform_rule_extend.go:389-464 | evaluation by joining and splitting equals evaluation directly on the argument list |
| TemplateEval.RedispatchUnreachable | platform_rule_extend.go:534-543 | no argument that came from the splitter is evaluated as an expression again |
| TemplateEval.TrimmedArgument | platform_rule_extend.go:534-537 | trimming an argument leaves at most one argument, which is what makes evaluation terminate |
| TemplateCalls.TextsAreFixed | platform_rule_extend.go:517-531 | an argument in quotes is its text, one without quotes and dots is itself |
| TemplateCalls.DottedArgument | platform_rule.go:418-432 | a dotted argument is a variable for var in any case, a column for order and huoyuan as written, and an error otherwise |
| TemplateCalls.OrderColumns | platform_rule.go:463-524 | every column reads as itself, spaces and letter case aside, and the four second spellings as their columns |
| TemplateCalls.OtherKeys | platform_rule.go:434-524 | any other key is a nested field of expand, or empty |
| TemplateCalls.SupplierColumns | platform_rule.go:526-543 | the four columns of a supplier, and its address trimmed and without one slash at the end |
| TemplateCalls.UrlEncodeMeans | platform_rule_extend.go:396-404 | urlencode is the escaped value of its argument, or its error |
| TemplateCalls.Base64DecodeMeans | platform_rule_extend.go:405-417 | base64_decode of what encodes some bytes is those bytes, and text that does not decode is an error |
| TemplateCalls.SplitPartMeans | platform_rule_extend.go:420-443 | split_part takes text, index and separator each from its place, and a limit from behind them if a number is there |
| TemplateCalls.RandomPortMeans | platform_rule_extend.go:444-449 | random_port is the port of the environment, or an error |
| TemplateCalls.JsonPathMeans | platform_rule_extend.go:450-459 | json_path looks its second argument up in the variable that its first one names, with or without var |
| TemplateCalls.Functions | platform_rule_extend.go:389-464 | exactly six names are functions, in any letter case |
| TemplateItems.ConcatMeansItsItems | platform_rule_extend.go:466-502 | a concat evaluates to the concatenated values of the calls and plain arguments it was written from, first error first |
| TemplateItems.ConcatMeansGreedily | platform_rule_extend.go:466-502 | for every list of items, without any condition: a concat evaluates to the values of their greedy reading, in which a split_part takes the number after it |
| TemplateItems.GreedyTakesNothing | platform_rule_extend.go:475-480 | the greedy reading is the written one if and only if no number follows a split_part without its last argument |
| Pieces.LimitKeepsRest | platform_rule_extend.go:554-565 | a limit leaves the pieces before it alone and gives the last one everything behind it |
| Pieces.PiecesJoin | platform_rule_extend.go:554-565 | put together with the separator, the pieces are the text |
| Pieces.PiecesAreFree | platform_rule_extend.go:554-565 | no piece holds the separator, and with an empty one each is a single character |
| Base64.DecodeUndoesEncode | platform_rule_extend.go:405-417 | decoding undoes encoding for all bytes, also with line breaks behind the text |
| Base64.DecodesExactly | platform_rule_extend.go:405-417 | a text without breaks decodes if and only if it is groups of four letters, of which the last may end in one or two = |
| Pieces.LimitedPart | platform_rule_extend.go:554-565 | the piece with a limit is the piece without one and a text behind it if and only if the limit is the piece's position and the text is what stands behind it |
| TemplateReadings.ReadingsCompare | platform_rule_extend.go:466-502 | in every environment in which the items have values: the evaluator's value is the written one if no number taken disagrees at its place, and another one if exactly one does |
| TemplateReadings.LosingReadings | platform_rule_extend.go:466-502 | with several that all lose text, the evaluator's value is shorter |
| TemplateExact.ConcatMeansItemsExactly | platform_rule_extend.go:466-565 | a concat has the values of its written items for all variables, columns and ports if and only if no place is harmful or an item always fails, if at most one place is harmful or all harmful ones lose text |
| TemplateExact.SomeEnvironmentSucceeds | platform_rule_extend.go:389-464 | some variables, columns and port give every list of items a value, unless it has a wrong source or index, text that is no base64, or a blank JSON path |
| TemplateExamples.RealInputDiffers | platform_rule_extend.go:466-502 | with x = a,b the items of concat split_part var.x 0 "," 2 mean a2, and the evaluator says a |
| TemplateExamples.HarmlessInput | platform_rule_extend.go:554-565 | a number that is taken and makes no difference in any environment |
| TemplateExamples.TwoPlacesCancel | platform_rule_extend.go:466-502 | two harmful places that make up for each other in every environment |
| TemplateItems.CallEndsAfterItem | platform_rule_extend.go:469-484 | the scan finds the end of each call |
| TemplateEval.EvalConcatTemplateArgs | platform_rule_extend.go:466-502 | the loop with its string builder is the recursive evaluation |
| BraceScanner.ScannerRecoversObject | admin_rule_ai.go:459-498 | any printed JSON object after a prefix without quote or opening brace, before any suffix, is delimited to the character |
| BraceScanner.PrefixConditionIsExact | admin_rule_ai.go:459-498 | the object is delimited if and only if the prefix leaves the scanner outside strings at depth zero |
| BraceScanner.ExtractOutermostJsonObject | admin_rule_ai.go:459-498 | the loop returns the text between the positions the scan finds, or nothing |
| RateLimiter.AdmissionBound | rate_limiter.go:39-133 | n limiters that share a hash admit at most (n + 1) times capacity plus rate times length in seconds in any interval, up to whole milliseconds, over every run with expiry and lost replies |
| RateLimiter.RefillsPerSecond | rate_limiter.go:50-56 | a bucket gains rate tokens in each 1000000000 nanoseconds, or 1000 milliseconds of the hash, up to its capacity |
| RateLimiter.TakeOutcome | rate_limiter.go:90-121 | a transaction refills the hash and takes one token if there is one; a hash without fields is full |
| RateLimiter.CallOutcome | rate_limiter.go:39-80 | who admits a call and what both levels hold after it, from the tokens refilled since each was written |
| RateLimiter.RetriesRunOut | rate_limiter.go:83-133 | after 32 transactions that others disturbed the call gives up |
| RateLimiter.FaultOutcome | rate_limiter.go:71-133 | an expired hash is full; a lost reply admits the call, whether or not the server wrote |
| RateLimiter.RunKeepsReady | rate_limiter.go:57-64 | at every state of a run both levels hold between 0 and capacity tokens |
| RateLimiter.ExpiryIsUnobservable | rate_limiter.go:119 | the one-hour expiry cannot be noticed if and only if an hour's refill reaches the capacity |
| RateLimiter.BurstAdmitsTwiceCapacity | rate_limiter.go:66-79 | at one instant exactly twice the capacity is admitted and the next call is refused |
| RateLimiter.AllowIsStep | rate_limiter.go:71-80 | an answered call is one atomic step on the hash it found when its transaction committed |
| RateLimiter.TokenBucket.Allow | rate_limiter.go:39-80 | the local level, the fall-through to Redis, admission on failure, no limit for capacity 0 |
| RateLimiter.TokenBucket.AllowViaRedisWatch | rate_limiter.go:83-133 | the retry loop is the specified sequence of attempts, at most 32 |
| SlidingWindow.AtMostTenPerWindow | admin_rule_ai.go:43-65 | every key has at most ten admissions in every half-open minute of every monotone run |
| SlidingWindow.RefusedOnlyWhenFull | admin_rule_ai.go:43-65 | a call is admitted if and only if its key is not blank and fewer than ten calls of the key were admitted in the last minute |
| SlidingWindow.Window.AllowAiConvert | admin_rule_ai.go:43-65 | the filter loop and the table update are the specified step |
| WorkerControl.RunKeepsValid | order_queue.go:1404-1414 | at every state of every run, with consumers that die of a panic: the counter of a channel is the number of its stored handles, which is that of its running and its dead consumers; the handles are those of the running ones if and only if none is dead; a paused channel has none |
| WorkerControl.ScaleReachesDesired | order_queue.go:1473-1517 | a visit brings the counter and the handles to exactly the clamped desired number, and no other channel changes |
| WorkerControl.ScaleCountsTheDead | order_queue.go:1487-1516 | the running consumers are then the desired number less the dead ones still counted; a visit that does not shrink keeps those |
| WorkerControl.DeadAreNotReplaced | order_queue.go:936-942 | as long as the counter is what the scaler wants, no scaler visit, new order or resume scan starts a consumer for the channel, over every run |
| WorkerControl.OneDeathStarves | order_queue.go:938-942 | one panic of the only consumer leaves the channel unpaused, counted as one, and without a running consumer |
| WorkerControl.DesiredBounds | order_queue.go:1473-1482 | the desired number respects minimum and maximum, and is the unclamped one when that is in range |
| ControlOutcomes.DesiredMeans | order_queue.go:1473-1482 | the minimum and one more for each full step of waiting messages; exactly the maximum beyond it; the minimum if that is above the maximum |
| WorkerControl.AdjustMovesByFour | ops_channel.go:142-190 | an adjustment moves the counter by at most four and not past the bound it moves towards |
| ControlOutcomes.AdjustedMeans | ops_channel.go:142-190 | an adjustment moves by its amount up to four, stops exactly at the bound, and leaves a counter beyond its bound alone |
| ControlOutcomes.AdjustAnswers | ops_channel.go:142-158 | it is refused for a paused channel or a stopped engine, and then and for zero changes nothing |
| ControlOutcomes.ShrinkStopsNewest | order_queue.go:1494-1514 | a reduction cancels exactly the newest consumers of the channel and keeps the handles of the older ones |
| ControlOutcomes.GrowStarts | order_queue.go:936-942 | a growth adds running consumers, their handles behind the old ones |
| ControlOutcomes.BeginStarts | order_queue.go:1404-1414 | the engine starts with the same number of consumers for each listed channel |
| WorkerControl.PauseKeepsValid | ops_channel.go:78-103 | after a successful pause the channel has no handle and no running consumer, the handles of all other channels are as before, and a refused pause changes nothing |
| ControlOutcomes.PauseMeans | ops_channel.go:78-103 | a pause is taken for every listed channel of a running engine; a new one is dated, forgets the count of healthy scans and cancels exactly the channel's consumers |
| WorkerControl.ResumeKeepsValid | ops_channel.go:105-140 | a resumption succeeds exactly for a known paused channel, which then has the minimum number of running consumers and no dead one; other channels keep their handles |
| ControlOutcomes.ResumeMeans | ops_channel.go:105-140 | only the pause of the channel is lifted, and exactly the minimum of consumers is added |
| WorkerControl.ResumedOnlyWhenStable | ops_resume.go:38-97 | a scan resumes a channel only if the last required scans that visited it were healthy and it was not paused anew since the first of them |
| WorkerControl.HealthyScansResume | ops_resume.go:68-97 | after a pause, healthy scans resume the channel at the required one and not before |
| WorkerControl.RequiredScans | ops_resume.go:21-36 | at least one, and the whole number of scan intervals in the stable time |
| ControlOutcomes.RequiredByDefault | ops_resume.go:21-36 | without usable settings ten minutes and one scan a minute |
| ControlOutcomes.VisitMeans | ops_resume.go:53-97 | an unhealthy visit forgets the count, a healthy one counts, and the one that reaches the required count resumes the channel and forgets it |
| ControlOutcomes.ScanVisitsEach | ops_resume.go:38-97 | for every channel a scan comes to its own visit if it is paused, whatever the scan does to others, and to nothing if it is not |
| WorkerControl.Control.ScalerVisit | order_queue.go:1446-1517 | the grow and shrink loops are the specified visit |
| WorkerControl.EnsureMeans | admin_enqueue.go:144-186 | a new order brings a channel without counted consumers to the minimum of running ones, tracked by the scaler; one that counts some, or is paused, and all other channels stay as they are |
| WorkerControl.DiscoverMeans | order_queue.go:1672-1703 | a channel found by the scan is tracked and gains the minimum of running consumers, none while it is paused; other channels stay as they are |
| WorkerControl.Control.OpsPauseChannel | ops_channel.go:78-103 | the loop over the handles is the specified pause |
| WorkerControl.Control.OpsAdjustWorkers | ops_channel.go:142-190 | the two bounded loops are the specified adjustment |
| WorkerControl.Control.RunOpsAutoResumeCheck | ops_resume.go:38-97 | the loop over paused channels is the specified sequence of visits |
| RuntimeConfig.MergeAssociative | runtime_config.go:155-310 | layering three configurations does not depend on grouping |
| RuntimeConfig.MergeIdempotent | runtime_config.go:155-310 | a layer over itself is itself |
| RuntimeConfig.MergeIdentity | runtime_config.go:155-158 | the empty configuration is neutral on both sides |
| RuntimeConfig.MergeAbsorbs | runtime_config.go:573-584 | an effective configuration saved as override takes effect as itself |
| RuntimeConfig.MergeRuntimeConfig | runtime_config.go:155-191 | merging section by section is the layering function |
| RuntimeConfig.MergePrevails | runtime_config.go:155-310 | of every field of every section the upper layer's value if it carries one, and else the lower layer's; lists as a whole, an empty one being none |
| RuntimeConfig.PrevailingIsUnique | runtime_config.go:155-310 | no other configuration has these fields, absent sections included |
| RuntimeConfig.LayersInOrder | runtime_config.go:573-584 | a channel's override prevails over the global one, and that over the defaults |
| RuntimeConfig.SaveHidTakesEffect | runtime_config.go:710-735 | what is saved for a channel prevails there field by field over the base layer, an empty payload removes the override, other channels do not notice |
| OpsUndo.UndoRestoresConfig | ops_executor.go:196-236 | when the database takes the rollback's saves, the global configuration is restored, and a channel's if and only if the plan does not save for it or its first save started from a configuration the old one absorbs |
| OpsUndo.UndoneConfig | ops_executor.go:164-236 | the effective configuration of every channel after execute and rollback of any plan, whatever saves the database refuses in either, from the plan and the old layers |
| OpsUndo.ChannelsFirstIsUndone | ops_executor.go:100-125 | plans that save for channels before they save globally restore every effective configuration, even if their own saves fail, when the rollback's are taken |
| OpsUndo.GlobalThenChannelIsNotUndone | ops_executor.go:100-125 | a global save before a channel's is not undone |
| OpsUndo.UndoRestoresPaused | ops_executor.go:205-224 | whether a channel is paused is restored if and only if the plan does not resume it, paused, before pausing it |
| OpsUndo.UndoRestoresWorkers | ops_executor.go:80-93 | undoing an adjustment restores the counter if and only if the adjustment moved nothing or moved the counter from within the bound on the way back; otherwise it ends at that bound or stays |
| OpsUndo.DlqPatchCarries | ops_executor.go:94-125 | a dead-letter action saves its switch, an interval of 30, 50 per scan, its age unless that is 0, and nothing else |
| OpsUndo.DlqActionTakesEffect | ops_executor.go:94-125 | after it, switch and age are in force for the channel, or for every channel without an override |
| OpsUndo.ActionsAreSteps | ops_executor.go:47-93 | actions on a channel are the control steps of runs, with the channel's effective settings, and remember what they found |
| OpsUndo.RollbacksAreSteps | ops_executor.go:196-252 | so is taking them back; a resumption is not taken back |
| OpsUndo.SavesOneLayer | runtime_config.go:680-735 | a save writes the global layer or one channel's, and nothing at all takes a channel's override away |
| OpsUndo.Executor.ExecuteOpsActions | ops_executor.go:30-45 | the loop collects the snapshots of the specified execution |
| OpsUndo.Executor.RollbackOpsSnapshot | ops_executor.go:196-252 | the loop undoes the snapshots in reverse, as far as the database takes the saves |
| OpsUndo.QueueSettings | runtime_config.go:586-621 | the effective worker limits and scale step are positive whatever the layers say |
| OpsUndo.LimitsAreRead | runtime_config.go:586-621 | each limit is read from its own field; an absent one has the fallback, and one of zero or below is 1, 8 or 100 |

## Left out

- HTTP clients, SQL text, the Redis client, admin handlers, user interface, Starlark, AI calls and monitors: input, output and foreign calls.
- The regular-expression importer and the platform tables: data.
- Fallback from BLMOVE to BRPOP and LPUSH: the two commands are one step, as with BLMOVE.
- Messages that cannot be parsed: every stored message is a parsed one.
- The consumer's throttling branch: the rate check refuses only together with an error, and the consumer goes on after an error, so it is never reached.
- The 30-day life of the submitted hash and the migration of old submitted keys: both forms are one map without expiry.
- Commands whose errors the handlers drop (LREM, DEL of a marker, the dead-letter LPUSH) succeed; for at-most-once, arbitrary changes of lists, markers and schedules are steps of their own.
- Reaper coverage: its page offset advances while it removes entries, so only its handling of one message is modelled; likewise one due member of the dispatcher and one entry of the scanner.
- A crash between two commands of one handler, such as SETNX and LPUSH of an enqueue: a handler is one step; only at-most-once, which allows arbitrary lists and markers, covers its outcome.
- A failing SELECT or marker pipeline of the producer, and single marker commands that fail: a batch reads and marks, and only pushes may be refused.
- Error texts: whether one is a timeout, terminal or retryable is an input.
- A SET NX of a lock whose reply is lost: an unreachable lock is not taken.
- Waiting times on pool channels: whether a job is accepted in time is an input.
- Rounding of floating-point numbers and of stored token counts, and clock skew: token counts are reals and clocks are monotone.
- Overflow of durations: integers are unbounded; Atoi refuses what does not fit 64 bits, as in the source.
- RateLimiter.AdmissionBound: does not count calls that are admitted because Redis failed; the code admits all of them.
- OrderDedup.OneMessagePerOrder: holds while markers do not expire and the reaper and the rollback spare live workers; ExpiredMarkerAdmitsSecondMessage shows that expiry admits a second message.
- OrderFailures.FailedOrdersAreListed: covers failures the engine writes itself; an external reset of dockstatus and deletion of rows are not modelled.
- OrderLineage.RetriesAreBounded: bounds a message and not an order, because scheduling a retry frees the marker and the producer may issue the order afresh.
- TemplateEval.EvalIsOverArguments: letter case is folded for ASCII letters only; query escaping, the JSON lookup and the nested fields of the column `expand` are parameters, and decoded bytes are characters.
- TemplateExact.ConcatMeansItemsExactly: leaves open several harmful places of which one gains text, where TwoPlacesCancel shows equality is possible, and a fixed text cut at a nested field of `expand` that is harmless when that field is empty.
- Invalid UTF-8 in template text: strings are sequences of characters.
- JsonHeap.WriteRefinesPut: speaks of documents without shared parts; sharing with the rule is covered by LaterWriteChangesRule and RuleBecomes.
- The conditions of patches and the validation of the patched document: which writes apply is an input.
- Section merges work on section values and not on shared pointers; the source clones before it merges and never changes what a pointer refers to.
- The process globals that a reload derives from the global configuration: the fallback limits are a parameter.
- OpsUndo.UndoRestoresWorkers: speaks of a plan of one adjustment; between two adjustments of one channel other actions may move its counter and its limits.
- Races inside one control operation: each is one step, though the paused check and the worker mutex are separate in the source.
- The queue-length cache and the batch index of the scaler: a visit is given the length it uses.
- The renewal timer of a lock: an expiry is a step of its own at any time, and an extension is one call of CommitIfHeld.
- Jobs that a stopped pool leaves in its channel: a crash, which drops all sessions, stands for the end of the process.
- OrderPools.Pools.Consume: runs without interruption; interleavings within it are those of the session steps it is a run of.
