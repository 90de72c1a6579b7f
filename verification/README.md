# Verified models of the Cloud Spanner Node.js client

Dafny models of the parts of the repository where state, arithmetic and concurrency
meet, with proofs about every input, every run or every interleaving:

- **Row streams that resume** (`Merging.dfy`, `ResultStream.dfy`, `Resumption.dfy`,
  `Breaks.dfy`, `KeptTokens.dfy`, `Resets.dfy`, `RetryRuns.dfy`, `RetryBound.dfy`).
  A query's rows arrive in partial result sets whose last value may be cut in two. The
  client joins the fragments, holds chunks back until one carries a resume token, and
  after a broken request asks again from the last token. `Merging` sets the client's
  typed merge against the merging rule of the wire protocol; `ResultStream` is the class
  that turns chunks into rows; `Resumption` is the state machine around it, in which
  chunks may wait in the checkpoint stream's queue, and after their release until the
  consumer accepts more rows. `Breaks` says when a broken request is sent again and which
  rows come out otherwise, `Resets` and `RetryRuns` say exactly which retries end with the
  right rows, `KeptTokens` which server and consumer never bring about the others, and
  `RetryBound` what the bound on chunks without a token is for.
- **The guarded transfer** (`Transfer.dfy`). Any number of clients run the DML sample's
  read-write transaction, interleaved one reply at a time.
- **The YCSB benchmark** (`Options.dfy`, `Workload.dfy`, `OperationMix.dfy`,
  `Metrics.dfy`). Options from a file and the command line, the cumulative weight table
  and the weighted draws, the concurrent queue, and the report with its histogram from
  binary searches.
- **Order statistics** (`Sorting.dfy`, `Percentile.dfy`, `LatencySummary.dfy`). The
  interpolated percentile that sorts its argument in place, and the summary that sorts a
  copy.
- **Interleaved loops** (`Threads.dfy`) and **fan-in** (`FanIn.dfy`). Concurrent threads
  pushing onto shared arrays, and a row count gathered from partitions that complete in
  any order.

`Arithmetic.dfy` and `Wrappers.dfy` hold helper facts and result types.

Code that updates objects or arrays is modelled by classes and methods, each proved
against a function of the old state; what is promised about runs is proved about those
functions. Protocols are state machines: an event that is not due changes nothing, and
the main lemmas quantify over every sequence of events.

## What is assumed of the surroundings

- *The server* answers a request with chunks that spell the result by the protocol's
  merging rule (`protos/google/spanner/v1/result_set.proto`), and a request with a token
  with the rest from that token's chunk on, possibly cut differently. Fragments have the
  declared type and no list that takes part in a join is empty. Any chunk may carry a
  token, and a chunk is marked `last` only once everything has been sent.
- *The checkpoint stream* is an npm package that is not part of this model. It releases
  its queue at a token, and without one when the queue reaches `limit` chunks. The proofs
  hold for every `limit` above the retry bound of 10, and only for those.
- *The consumer* may refuse rows at any time and for any length of time; released chunks
  then wait, as they wait in the row stream's buffer.
- *The database* serializes transactions (`README.md` of the repository, lines 13-15): a
  commit succeeds only if the cells the attempt read have not changed since.
- *The task queue* runs operations concurrently and completes them in any order.
- *yargs* passes a repeatable option as nothing, a string, or an array.
- *Numbers* are exact. Latencies, weights and random draws are reals.

## Where the code does less than it seems to promise

- An empty list fragment leaves `undefined` in the joined list or throws
  (`Merging.MergeIsProtocolIffNoEmptyFragment`).
- A retry resets the pending fragment at once, although released chunks may still be
  waiting for the consumer. The fragment saved at an earlier token then replaces the one
  that is open, and a row comes out wrong (`RetryRuns.WaitingChunkGoesWrong`: "az" where
  the server sent "yz").
- A resume token on a chunk without values does not save the open fragment, because such
  a chunk skips `_addChunk`. A retry from it may lose the fragment
  (`RetryRuns.EmptyTokenLosesFragment`).
- For both, the condition is exact. A reset is harmless, whatever is still to come, if and
  only if the saved fragment equals the pending one (`Resets.HarmlessIffSettled`); and
  that is fixed by the chunks the row stream has taken (`RetryRuns.RetriesEndRightIff`,
  `RetryRuns.TokenResumableIff`). Rows come once and in order in every run all of whose
  resets are of this kind (`Resumption.RowsOnceInOrder`), as they are if the consumer has
  taken what was released and tokens without values come only while the saved fragment
  is still the open one (`KeptTokens.RowsOnceInOrderWithCare`).
- `retry` accepts exactly 10 chunks without a token. A checkpoint stream that released its
  queue at 10 would make rows appear twice (`RetryBound.RightIffQueueOutlastsRetry`).
- The printed histogram does not add up to the number of operations: a whole-number
  latency falls in no bucket, and the last line is one too high
  (`Metrics.HistogramAccounting`, `Metrics.HistogramCoversIff`).
- A missing proportion parses to NaN and then no operation at all is enqueued
  (`Workload.EnqueuesAllIff`, `OperationMix.NothingWithoutOption`); `scan` and `insert` can be drawn, but the class has no such
  methods and they never record a latency (`Workload.WholeRun`,
  `OperationMix.StartedAndFinished`).
- A key or value holding `=` is not read back from a workload file
  (`Options.RoundTripIff`); a single `-p` reaches the parser as a string and throws.
- A NULL budget counts as 0 in the transfer's arithmetic.

## Model

| member | source | states |
|---|---|---|
| Merging.MergeIsProtocolIffNoEmptyFragment | src/partial-result-stream.ts:415-473 | for well-typed fragments at any nesting, the client's type-directed merge gives the protocol's value-directed result if and only if no list fragment that takes part is empty |
| Merging.EmptyFragments | src/partial-result-stream.ts:415-473 | what happens otherwise: each empty fragment of a list of scalars leaves one `undefined`; an empty head of a struct, two empty lists of lists, and a string where a list belongs throw |
| Merging.ProtocolExamples | protos/google/spanner/v1/result_set.proto:107-123 | the client merges the protocol's own examples of strings and lists as written there |
| ResultStream.AddValuesAppends | src/partial-result-stream.ts:337-372 | rows pushed and values left over always spell the values received, in order, in full rows |
| ResultStream.TakePendingFollowsProtocol | src/partial-result-stream.ts:312-324 | joining the pending value never throws on a legal chunk and gives the protocol's reading of its values, also when the pending fragment is the falsy empty string |
| ResultStream.StorePendingFollowsProtocol | src/partial-result-stream.ts:326-335 | what is held back is the protocol's open fragment, and a chunk with a token leaves the saved fragment equal to it |
| ResultStream.TransformFollowsProtocol | src/partial-result-stream.ts:227-345 | one legal chunk takes the client to the position the protocol says, without a throw or a lost value |
| ResultStream.KeptFollowsChunks | src/partial-result-stream.ts:294-335 | what is saved for a retry is fixed by the chunks alone: the open fragment after a token with values, an older one (popped if it was a list) after values without a token, and unchanged by a chunk without values |
| ResultStream.SavedListIsPopped | src/partial-result-stream.ts:312-335 | a token saves the open list, and joining the next chunk pops its last element off what is saved |
| ResultStream.TokenIsRestorableIff | src/partial-result-stream.ts:243-335 | after a chunk with a token a reset restores that position if and only if the chunks so far have not lost the open fragment; if the chunk brought values they never have |
| ResultStream.PartialResultStream.constructor | src/partial-result-stream.ts:191-197 | starts with no values, nothing pending and no rows |
| ResultStream.PartialResultStream.AddOne | src/partial-result-stream.ts:354-372 | the stream's whole state after one value, and that more may come unless the row it filled was refused |
| ResultStream.PartialResultStream.AddAll | src/partial-result-stream.ts:337-344 | the loop adds all the values in order, also after a refused row, and reports whether any row was refused |
| ResultStream.PartialResultStream.JoinPending | src/partial-result-stream.ts:312-324 | joins the pending value, with the popping of an array shared with the saved fragment |
| ResultStream.PartialResultStream.AddOneChunk | src/partial-result-stream.ts:309-345 | the whole state after a chunk with values and whether a row was refused, or a throw that leaves rows and values alone |
| ResultStream.PartialResultStream.Write | src/partial-result-stream.ts:227-267 | the whole state after any chunk; empty ones skip the values, a last one ends the stream, and the next chunk is asked for at once if and only if the stream has not ended and no row was refused |
| ResultStream.PartialResultStream.ResetPendingValues | src/partial-result-stream.ts:294-300 | the saved fragment becomes the pending one again |
| Resumption.SentIsPrefix | protos/google/spanner/v1/result_set.proto:82-166 | everything sent so far is a beginning of the result, and an open value is not yet among it |
| Resumption.DeliverKeepsGood | src/partial-result-stream.ts:227-292 | a released chunk, however late the row stream takes it, moves the rows to the next position without a throw, and what is left still leads to the last token |
| Resumption.ReceiveKeepsGood | src/partial-result-stream.ts:517-528 | a chunk, queued or released with the queue, keeps the invariant: the rows are in step with what waits and is still to come, and the released chunks lead to the last token as long as a retry is allowed |
| Resumption.EndKeepsGood | src/partial-result-stream.ts:532-541 | the flush releases the queue, and what then waits completes the result |
| Resumption.BreakKeepsGood | src/partial-result-stream.ts:542-593 | a retry whose reset changes nothing drops the queue and resumes in step, also behind released chunks that still wait; without a retry the flushed rows are still right |
| Breaks.SentAgainIff | src/partial-result-stream.ts:517-593 | after any run, retries included, a broken request is sent again if and only if the error is retryable, the time is not up and at most 10 chunks have arrived since the last token; then the queue is dropped, released chunks stay, and the pending value is reset if and only if a token has arrived |
| Breaks.FatalBreakFlushes | src/partial-result-stream.ts:551-577 | otherwise, once the row stream has taken what waits, the client has failed and the rows are those of every chunk received |
| Breaks.RowsBeforeTheError | src/partial-result-stream.ts:551-577 | a whole run with one request: all the rows of what arrived come out before the error, with tokens or without |
| Breaks.LastEndsTheStream | src/partial-result-stream.ts:248-251 | after a chunk marked `last` no further chunk enters the rows |
| Resumption.RowsOnceInOrder | src/partial-result-stream.ts:492-620 | in every run, with any breaks, retries, resumptions and delays of the consumer and tokens on any chunks, whose resets find the saved fragment equal to the pending one, the rows pushed are full rows that spell a prefix of the result, nothing throws, and a finished stream has pushed exactly the result |
| Resumption.AnUnbrokenAnswerFinishes | src/partial-result-stream.ts:530-549 | from every state of the invariant in which a request is being answered, with chunks waiting or not, an answer that does not break again finishes with all the rows |
| KeptTokens.RowsOnceInOrderWithCare | src/partial-result-stream.ts:492-620 | if chunks without values carry tokens only while the saved fragment is still the open one, in the first answer and in those to retries, then every reset that finds all released chunks taken is harmless, and every run with such resets has the right rows |
| Resets.UnsettledGoesWrong | src/partial-result-stream.ts:294-335 | wherever the saved fragment differs from the pending one, a reset makes a legal chunk that closes the open value give a wrong row or throw |
| Resets.HarmlessIffSettled | src/partial-result-stream.ts:294-335 | a reset leaves the rows right, whatever waits and whatever is sent later, if and only if the saved fragment equals the pending one |
| RetryRuns.LostGoesWrong | src/partial-result-stream.ts:227-593 | for any beginning of an answer that has lost its open fragment, a whole legal run with a retry there and wrong rows, with chunks waiting or with none |
| RetryRuns.RetriesEndRightIff | src/partial-result-stream.ts:227-593 | after any chunks taken, all legal retries there with an undisturbed answer end with exactly the result if and only if those chunks have not lost the open fragment; once with nothing waiting and once with released chunks waiting |
| RetryRuns.TokenResumableIff | src/partial-result-stream.ts:243-345 | with everything taken, all retries from a token end with exactly the result if and only if its chunk had values or the fragment saved before is still the open one |
| RetryRuns.WaitingChunkGoesWrong | src/partial-result-stream.ts:542-616 | a legal run in which a retry resets the row stream before a released chunk is taken, and the row reads "az" instead of "yz" |
| RetryRuns.EmptyTokenLosesFragment | src/partial-result-stream.ts:243-251 | a legal run in which a token on an empty chunk makes the row read "b" where the server sent "ab" |
| RetryBound.RightIffQueueOutlastsRetry | src/partial-result-stream.ts:497-570 | rows come once and in order in all legal runs with harmless resets if and only if the checkpoint stream holds back more than 10 chunks |
| RetryBound.RowsRepeat | src/partial-result-stream.ts:563-571 | for each smaller limit, a legal run without any reset that pushes every row twice |
| Transfer.EveryRunConserves | samples/dml.js:426-507 | for any clients and interleaving with aborts and restarts, k committed clients mean the first budget is up and the second down by 200000 k, never more than it had, and no write at all when it was below 200000 |
| Transfer.StoreVersionsCountCommits | samples/dml.js:464-497 | both cells are written once per commit, so no state shows half a transfer |
| Transfer.CommitKeepsGood | samples/dml.js:464-497 | a commit preserves what every other client holds and the conservation law |
| Transfer.StepKeepsGood | samples/dml.js:428-507 | every step of every client preserves the invariant |
| Transfer.OnlyCommitWrites | samples/dml.js:476-497 | sanity check of the step function: the committed store changes in a step if and only if the step is a commit that may succeed |
| Transfer.StoppedNeverWrites | samples/dml.js:448-463 | an attempt one of whose reads threw stays stopped over every run until it is started afresh, and commits nothing |
| Transfer.FreshCommitsIff | samples/dml.js:426-502 | a fresh client left undisturbed, in any state of the system, commits and moves 200000 if and only if the first cell is NULL or at most 2^53-1 and the second between 200000 and 2^53-1; otherwise the store stays |
| Transfer.RestartedCommitsIff | samples/dml.js:426-502 | the same for a client that starts again after a lost commit or an abort, over the current cells |
| Transfer.AmongOthersCommitsIff | samples/dml.js:426-502 | the same in every interleaving with other clients in which none of them commits meanwhile |
| Transfer.RefusedNeverCommits | samples/dml.js:426-502 | a client whose request is refused for good never commits over any run |
| Transfer.ReadsInEitherOrder | samples/dml.js:440-463 | sanity check of one fixed run: the two replies in either order lead to the same state, which sends updates if and only if the first row exists with NULL or a budget of at most 2^53-1 and the second holds 200000 to 2^53-1 |
| Transfer.AloneItTransfers | samples/dml.js:426-502 | sanity check of one fixed run: one undisturbed client moves 200000 if and only if the budgets are such, and otherwise stops with the store untouched |
| Sorting.SortInPlace | benchmark/spanner.ts:717 | the array becomes its sorted copy |
| Sorting.SortedCopyIs | benchmark/spanner.ts:717 | the sorted copy is sorted and a permutation |
| Sorting.SortedUnique | benchmark/spanner.ts:717 | a sorted list is determined by its multiset |
| Sorting.RankInSortedCopy | benchmark/spanner.ts:717-724 | position k of the sorted copy meets a downward closed bound if and only if more than k of the unsorted elements do |
| Sorting.OrderStatisticsMonotone | benchmark/spanner.ts:716-726 | raising elements raises every order statistic although the lists are sorted independently |
| Sorting.SortMap | benchmark/spanner.ts:717 | sorting commutes with strictly increasing maps |
| Percentile.Percentile | benchmark/spanner.ts:716-726 | sorts its argument in place and returns the percentile of the old contents, with `undefined` and NaN where an index falls outside |
| Percentile.NumberIff | benchmark/spanner.ts:718-725 | the result is a number if and only if the list is not empty and the position falls inside it, as it does for all fractions in [0, 1] |
| Percentile.NoNumber | benchmark/spanner.ts:718-725 | exactly when the result is NaN (the position is less than one element before the first) and when it is `undefined` |
| Percentile.MonotoneInFraction | benchmark/spanner.ts:716-726 | monotone in the fraction, across element boundaries |
| Percentile.MonotoneInElements | benchmark/spanner.ts:716-726 | monotone in the elements |
| Percentile.BetweenMinAndMax | benchmark/spanner.ts:716-726 | between two elements of the list |
| Percentile.AtAnElement | benchmark/spanner.ts:718-725 | at k/(n-1) the k-th smallest element, by rank over the unsorted list |
| Percentile.LinearBetweenElements | benchmark/spanner.ts:718-725 | between two neighbouring elements it is the straight line from one to the other, both ends included |
| Percentile.OrderIrrelevant | benchmark/spanner.ts:716-726 | depends on the multiset only |
| Percentile.EquivariantUnder | benchmark/spanner.ts:716-726 | commutes with every strictly increasing map that keeps interpolation |
| Percentile.AffineEquivariant | benchmark/spanner.ts:716-726 | scaling by c > 0 and shifting by d carries over |
| LatencySummary.CalculatePercentiles | benchmark/benchmarking-multiplexed-session.js:191-217 | the summary of the samples, with the argument left as it was |
| LatencySummary.RankGuarantee | benchmark/benchmarking-multiplexed-session.js:199-209 | for 50, 90 and 99 the picked sample exists, at least floor(qn/100)+1 samples are no larger and at most floor(qn/100) smaller |
| LatencySummary.PercentileIsUnique | benchmark/benchmarking-multiplexed-session.js:199-209 | only one value has more than q percent of the samples no larger and at most q percent smaller |
| LatencySummary.PercentilesExist | benchmark/benchmarking-multiplexed-session.js:199-209 | the printed percentiles are samples of that kind, for 50, 90 and 99 |
| LatencySummary.FiguresAre | benchmark/benchmarking-multiplexed-session.js:192-216 | all four printed figures by the samples alone: the sum over the number, and the samples with 50, 90 and 99 percent around them, to two decimals |
| LatencySummary.ToFixed2Nearest | benchmark/benchmarking-multiplexed-session.js:197-209 | a printed figure is the nearest number of hundredths, of two the one further from zero |
| LatencySummary.FiguresOfSamples | benchmark/benchmarking-multiplexed-session.js:192-216 | the figures are the average of the unsorted samples and the picked ranks, to two decimals |
| LatencySummary.FiguresInOrder | benchmark/benchmarking-multiplexed-session.js:195-216 | as printed with two decimals, p50 <= p90 <= p99 and the average lies between the extremes; all NaN if and only if there is no sample |
| LatencySummary.SummaryOrderIrrelevant | benchmark/benchmarking-multiplexed-session.js:191-217 | independent of the order of the samples |
| Threads.RunConcurrently | benchmark/benchmarking-multiplexed-session.js:220-233 | the loop launches every thread before any goes on |
| Threads.StepAccounted | benchmark/benchmarking-multiplexed-session.js:70-94 | one `await` of one thread keeps the per-thread accounts |
| Threads.EveryRunAccounted | benchmark/benchmarking-multiplexed-session.js:70-94 | in every reachable state one time per completed iteration, per thread and in all, and one per finished thread; numThreads*numQueries and numThreads when all finish |
| Threads.NoInterference | benchmark/benchmarking-multiplexed-session.js:70-94 | in every interleaving the times a thread contributes are those it would push running alone, in order |
| Threads.TimesOfEachThread | benchmark/benchmarking-multiplexed-session.js:70-94 | by the events alone, in every interleaving: a thread has pushed the times of its own first numQueries successful transactions up to a rejection, and its thread time once, with the last of them |
| FanIn.EveryOrderCounts | samples/batch.js:54-69 | the count is the rows of the partitions whose own first event is a success, it is printed if and only if that is all of them and is then the total, and runs in which the partitions settle alike agree |
| Options.RoundTripIff | benchmark/ycsb.js:64-71 | a rendered workload file is read back if and only if it has a line and no key or value holds `=` or a line break |
| Options.LastOccurrenceWins | benchmark/ycsb.js:61 | the map holds exactly the keys that occur, with the value of the last occurrence |
| Options.MergePrecedence | benchmark/ycsb.js:56-62 | the flag's bucket number always, then the command line, then the file |
| Options.LineSays | benchmark/ycsb.js:61-66 | a line's key is the text before the first `=`, its value the text from there to the next `=`, and without any `=` it is `undefined` |
| Options.OptionsOfPairs | benchmark/ycsb.js:56-71 | for a rendered file and parameters, the options hold exactly the keys given, each with the value of the last pair that gives it, parameters after the file |
| Workload.TableIsPrefixSums | benchmark/workload.js:44-57 | kept operations in order, weights the prefix sums of the positive proportions, the last the total |
| Workload.WeightsIncrease | benchmark/workload.js:55-56 | the weights are positive and strictly increasing |
| Workload.NaNPoisonsTotal | benchmark/workload.js:45-56 | one proportion that is not a number makes the total NaN |
| Workload.DrawIsIntervalOf | benchmark/workload.js:76-86 | every draw in [0, total] finds an operation, operation k exactly those in its interval, whose length is its proportion |
| Workload.EnqueuesAllIff | benchmark/workload.js:71-87 | one operation per draw if all proportions are numbers and one is positive, and none at all otherwise |
| OperationMix.TaskInInterval | benchmark/workload.js:75-86 | task i is of the j-th kept operation if and only if its draw, scaled to the total, lies in that operation's interval of prefix sums |
| OperationMix.TheMix | benchmark/workload.js:24-87 | by the option names: as many tasks as `operationcount` says, and the i-th random number picks read, update, scan or insert by the intervals that `readproportion`, `updateproportion`, `scanproportion` and `insertproportion` cut out, in this order |
| OperationMix.NothingWithoutOption | benchmark/workload.js:44-87 | a missing proportion option means that nothing is enqueued |
| OperationMix.StartedAndFinished | benchmark/workload.js:92-100 | however others are interleaved, a started read or update that finishes has its latency at the end of its own list and nowhere else; a scan or insert has failed and records nothing |
| OperationMix.StartedAndRejected | benchmark/workload.js:92-100 | a started operation that is rejected has failed, and no list changes |
| OperationMix.WaitsAndSettles | benchmark/workload.js:83-100 | without being started an operation waits over any run, and once settled it stays as it is |
| Workload.ApplyAccounted | benchmark/workload.js:92-100 | a start, completion or failure keeps each list at one entry per completed operation of its own kind |
| Workload.Conservation | benchmark/workload.js:71-100 | waiting, in flight, failed and recorded operations add up to the enqueued ones |
| Workload.WholeRun | benchmark/workload.js:32-100 | end to end from any options: books balanced over the configured operation count in every reachable state, the idle total is that count less the failures, nothing runs if a proportion is not a number or none is positive, and only reads and updates record latencies |
| Workload.Workload.constructor | benchmark/workload.js:32-58 | builds the table and one empty list per kept operation |
| Workload.Workload.Run | benchmark/workload.js:71-87 | the nested loops enqueue exactly the drawn operations, as many draws as the parsed operation count, and none if it is NaN or negative |
| Workload.Workload.StartTask | benchmark/workload.js:92-99 | a supported operation goes in flight, any other fails |
| Workload.Workload.FinishTask | benchmark/workload.js:99 | the latency lands at the end of the list of the operation drawn, and nowhere else |
| Workload.Workload.FailTask | benchmark/workload.js:92-100 | a failed operation records nothing |
| Metrics.Lt | benchmark/ycsb.js:104 | last index below the bound, or -1 |
| Metrics.Le | benchmark/ycsb.js:105 | last index at most the bound, or -1 |
| Metrics.Bucket | benchmark/ycsb.js:103-107 | the difference of two bounds is the number of latencies strictly between i and i+1 |
| Metrics.ReportOne | benchmark/ycsb.js:86-110 | all lines of an operation equal the naive counts |
| Metrics.NaiveReportOfSorted | benchmark/ycsb.js:87-110 | sorting first does not change the lines |
| Metrics.OneMoreLatency | benchmark/ycsb.js:88-110 | what one more latency adds to each line, and the lines without any: together these fix the histogram of every list |
| Metrics.CountOps | benchmark/ycsb.js:75-79 | the total over all operations |
| Metrics.PrintMetrics | benchmark/ycsb.js:73-112 | prints that total and the naive histograms of the old latencies, leaves every list sorted with the same elements, and keeps the total and the books |
| Metrics.RunWorkload | benchmark/ycsb.js:114-122 | from constructor to console in one statement: whatever the queue does, the report is printed if and only if the queue is idle, the printed total is the operation count less the failed operations (0 if the proportions are unusable), and the histograms are the naive ones of what was recorded |
| Metrics.RunWorkloads | benchmark/ycsb.js:124-140 | the same from the command line for one worker, with the bucket number of the flag; unreadable options throw |
| Metrics.SortingKeepsAccounts | benchmark/ycsb.js:86-89 | sorting all lists in place keeps the accounts and the total |
| Metrics.HistogramAccounting | benchmark/ycsb.js:103-110 | for any number of buckets the lines add up to operations + 1 less the whole-number latencies in 0..N |
| Metrics.HistogramCoversIff | benchmark/ycsb.js:103-110 | they add up to the operations if and only if exactly one latency is a whole number in range |

## Left out

- The session pool, multiplexed sessions, the transaction runner's deadlines and delays, and the codec: the rows here are raw values.
- The length of a pause, the `paused` and `resumed` events and `maxResumeRetries`: a refused row only delays the chunks behind it, for any time. The `response` and `stats` events, and metadata: the columns are known before the first value.
- The asynchronous hops before the checkpoint stream: a chunk that arrives is queued or released in one step, and a retry checks its conditions and resets in one step.
- JavaScript objects among the values: Spanner sends structs as lists.
- RetryRuns.RetriesEndRightIff: speaks of runs with one retry, all that was received released by a token, and an undisturbed rest; runs with more of either are those of `Resumption.RowsOnceInOrder`.
- ResultStream.PartialResultStream.AddOne: takes values as decoded, and whether the consumer accepts a row as a parameter.
- ResultStream.PartialResultStream.Write: does not say when a chunk behind a refused row is taken; in `Resumption` that is any time later.
- ResultStream.PartialResultStream.JoinPending: does not say what a throw leaves of the pending value, because the stream is then in error; array aliasing is tracked by the flag `shared`.
- Transfer.EveryRunConserves: does not model the rounding of budgets beyond 2^53, nor transactions other than the transfer.
- OperationMix.TheMix: takes parsing of numbers and the random numbers as parameters.
- Workload.WholeRun: takes parsing of numbers as parameters; infinite proportions are not modelled.
- Workload.Workload.Run: does not wait for the idle queue, which `Metrics.RunWorkload` does.
- Metrics.RunWorkload: takes what the queue does as a sequence of events, and returns what is printed instead of writing to the console.
- LatencySummary.CalculatePercentiles: takes all samples as numbers, although one of the methods pushes them as text with two decimals.
- Metrics.PrintMetrics: takes the number of buckets as an integer, and does not model the run time, throughput, mean, deviation and percentile lines, nor console text.
- Loading of keys, the database calls of `read` and `update`, and starting several workers: `Metrics.RunWorkloads` runs one.
- The other samples and benchmarks, the gRPC servers in `bin/`, and the admin clients.
