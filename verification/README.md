# Verified models of the GCP monitor

The program copies Google Cloud metrics and logs into Dynatrace. This project models its
five stateful pipelines in Dafny and proves what they keep over every input, every server
and every interleaving.

| pipeline | modules |
|---|---|
| polling windows | `PollingWindow` |
| metric lines: escaping, printing, aggregation, distributions | `LineProtocol`, `LocalAggregation`, `Histogram` |
| metric push: retries, sequential and concurrent batches, all projects at once | `PushRetry`, `SequentialPush`, `ConcurrentPush`, `InterleavedCalls` |
| log forwarding: batching, one cycle, many workers, the access token | `LogBatching`, `LogCycle`, `LogForwarding`, `TokenRefresh` |
| autodiscovery | `Autodiscovery` |

`Sequences`, `Wrappers`, `Time` and `Connectivity` hold what the others share. `dafny verify
dfyconfig.toml` checks everything.

How the models are built:

- Objects whose methods update fields are classes (`Scheduler`, `MetricsContext`,
  `Aggregator`, `LogsContext`, `GCPClient`, `AutodiscoveryTaskExecutor`). Each method is
  proved against a function of the old state, and the laws are proved about that function.
- Concurrent code is a state machine with one step for each stretch between two awaits.
  A run is any list of steps from the start; a step that is not possible changes nothing, so
  a theorem about a run is a theorem about every schedule. The machines use the same
  functions that the classes are proved against.
- Servers, clocks and Pub/Sub are parameters: scripts of replies, lists of clock readings,
  arbitrary deliveries and answers.
- Times are integer microseconds, floats are exact reals, request bodies are byte sequences.

Where the code does not do what its setting suggests, the exact condition is proved:

- `prepare_batches` puts out a batch with no entries, recorded as one byte though it
  serializes to two, exactly when the very first entry cannot be sent alone
  (`EmptyBatchIff`, `RecordedSizeIsSerializedLengthIff`). The size check in `perform_pull`
  keeps such entries away (`PulledBatchesAreWellMade`).
- Where a bucket branch sets the bounds of a distribution, the reported maximum is an upper
  bound of its samples exactly when the overflow bucket is empty, and only explicit buckets
  can get there (`MaximumHoldsIff`, `OverflowOnlyExplicit`). Where none does, minimum and
  maximum are the mean: either bounds the samples exactly when they are all equal, and every
  sample set with the given mean exactly when there is one sample or the mean is the lower
  edge of the only bucket that is not empty (`UnsetBoundsHoldIff`, `UnsetBoundsHoldAllIff`);
  `UnsetBounds` is an input that fails.
- Aggregated values do not depend on the order of input. The set of output lines, with the
  order in which each lists its dimensions, is independent of it exactly when all input lines
  of one series list their dimensions alike (`OutputIgnoresOrderIff`). The list itself follows
  first appearance, so it is independent of the order exactly when there is also no more than
  one series (`OutputInOrderOfAppearance`, `ListIgnoresOrderIff`).
- A dimension name is cut a second time while printing exactly when the key limit is below
  both the name limit and the name (`PrintingSlicesNothing`).
- Every response to a push is counted exactly when the deciding one is not a response whose
  body is asked for and is JSON but no object (`AllCountedIff`; `UncountedResponse` gives a
  script). Such a push raises but leaves the connection marked as working, which only a
  401, 403, 404 or 405 changes (`ConnectivityBreaksIff`).
- A push that raises has counted no line, except exactly when the deciding response has a
  count of ok lines other than zero and a count of invalid lines that cannot be added
  (`RaiseCountsLinesIff`; `HalfCountedResponse` gives a script).
- A push sleeps at most ten seconds before each retry, on top of what delays that parse to
  NaN come to, which nothing bounds (`RetryAccounting`, `TotalSleepIsBounded`).
- A 401 to a pull is noticed only if the body of the answer can be read (`PullMessages`). It
  leads to a refresh (`RefusalIsActedOn`), unless it arrives while a refresh for another pull
  is in flight and that refresh fails: then it is forgotten (`RefusalIsForgotten`;
  `RefreshInFlight` is a run that gets there).
- The pulls of a cycle make it raise exactly when an answer can be read, is no error, and has
  a status from 300 on or a body that is no object (`PullRaisesIff`).
- Observers registered after the autodiscovery loop has ended are never called
  (`ObserversCalledOnce`).

## Model

| member | source | states |
|---|---|---|
| PollingWindow.Scheduler.SnapExecutionTime | src/main.py:47-73 | one polling cycle returns the scheduled time and window length for the clock, and remembers that time |
| PollingWindow.RunStep | src/main.py:47-73 | over any clock readings each cycle is determined by the previous execution time and its own reading alone |
| PollingWindow.ResetIsNow | src/main.py:50-73 | the first cycle and every reset take the last whole second of the clock and a window that is not widened |
| PollingWindow.WindowIsDelayed | src/lib/metric_ingest.py:339-340 | in every run a window ends its ingest delay before the execution time and is as long as the interval of its cycle |
| PollingWindow.ContextTruncationIsIdentity | src/lib/context.py:318-319 | execution times are whole seconds, so the truncation in the metrics context changes nothing |
| PollingWindow.WindowMeetsPreviousIff | src/main.py:47-73 | a window starts where the previous ended if and only if the clock is at most 60 s early and 1800 s late; only then is the call no reset, and the window is 60 s longer only in a catch-up |
| PollingWindow.ConsecutiveWindowsTouch | src/lib/metric_ingest.py:339-340 | for any clock and ingest delay, a window after a non-reset cycle starts where the one before ended |
| PollingWindow.WindowsTile | src/lib/metric_ingest.py:339-340 | over a reset-free stretch the windows of a metric cover one interval: every instant is in exactly one window |
| PollingWindow.LagIsBounded | src/main.py:43-73 | after every call the clock minus the execution time is between -60 s and 1740 s |
| PollingWindow.CatchUpConverges | src/main.py:60-69 | with one interval per cycle a backlog shrinks by 60 s per cycle; from the 29th cycle on every cycle is snapped |
| LineProtocol.SanitizeIsEscape | src/lib/metric_ingest.py:549-554 | the chain of replacements is normalising control characters, then escaping each quote and backslash once |
| LineProtocol.PlainValueIsKept | src/lib/metric_ingest.py:549-554 | a value without control characters, quotes and backslashes is not changed |
| LineProtocol.EscapeThenTruncate | src/lib/metric_ingest.py:549-567 | for every text and every limit, negative ones too, the result is the escape of a prefix of the normalised text, and of the longest that fits |
| LineProtocol.ReadQuotedUndoesEscape | src/lib/metric_ingest.py:549-567 | a reader of quoted strings gets the text back and stops at the closing quote: no stray quote, no dangling backslash |
| LineProtocol.CreatedDimensionMeans | src/lib/metric_ingest.py:570-588 | a created value is the escape of the longest prefix of the normalised value whose escape fits both limits |
| LineProtocol.PrintingSlicesNothing | src/lib/metrics.py:57-66 | printing cuts nothing off a created value, and nothing off a name if and only if the name limit or the name is within the key limit |
| LineProtocol.DimensionSectionRoundTrip | src/lib/metrics.py:57-66 | whatever raw names and values dimensions are created from, the printed section reads back to what is kept of them, in order, without those that keep no value |
| LineProtocol.ReadPrintedSample | src/lib/metrics.py:68-71 | type and value of a line, in the gauge and the `count,delta` form, read back |
| LineProtocol.LineRoundTrip | src/lib/metrics.py:68-71 | a whole printed line reads back to its key, what is kept of its raw dimensions, its type, value and time |
| LineProtocol.LineText | src/lib/metrics.py:68-71 | the printed text itself: cut metric key, dimensions, then `gauge,`, `count,delta=` or the type and `=`, value and time |
| LineProtocol.PayloadSplitsIntoItsLines | src/lib/metric_ingest.py:168-169 | whatever the dimension values were, a payload splits at line breaks into exactly its lines |
| LocalAggregation.ParsedGaugeText | src/lib/metric_ingest.py:520-525 | the text of a distribution summary parses back to its four fields |
| LocalAggregation.GaugeTextIs | src/lib/metric_ingest.py:761-767 | the text itself, field by field |
| LocalAggregation.MergedTextIsTextOfMerged | src/lib/metric_ingest.py:508-525 | if the numbers of two summaries survive printing and parsing, merging their texts gives the text of the merged summary |
| LocalAggregation.SortedIsUnique | src/lib/metric_ingest.py:477-483 | two sorted dimension lists with the same members are the same list |
| LocalAggregation.SameKeyIffSameSeries | src/lib/metric_ingest.py:477-483 | two lines share a key if and only if entity, name, type, time and the multiset of dimensions agree |
| LocalAggregation.TotalAmounts | src/lib/metric_ingest.py:492-497 | what lines are merged to is the plain sum of their values; for distributions count and sum are sums, the minimum is the least and the maximum the greatest of theirs |
| LocalAggregation.Aggregator.Add | src/lib/metric_ingest.py:476-505 | adding a line changes the dictionary as one step of the fold does, keys keeping their place: a new key gets the line, and for an old one numbers are added, or counts and sums are and the outer bounds taken |
| LocalAggregation.FetchAggregated | src/lib/metric_ingest.py:415-449 | the loop raises if and only if an error page comes before any page without series; otherwise it returns the listed fold of the lines of all pages up to the first without series |
| LocalAggregation.EndsInErrorIff | src/lib/metric_ingest.py:415-426 | a fetch raises if and only if some page is an error and all before it have series |
| LocalAggregation.FetchedAll | src/lib/metric_ingest.py:415-449 | the lines fetched are those of all pages before the first without series, in order |
| LocalAggregation.PresentAllCounts | src/lib/metric_ingest.py:427-441 | a line is fetched from a page as often as points of its series are converted to it |
| LocalAggregation.AddSeries | src/lib/metric_ingest.py:427-441 | the same for the series of one page, after whatever was added before |
| LocalAggregation.AddPoints | src/lib/metric_ingest.py:435-441 | the same for the points of one series, those that convert to nothing skipped |
| LocalAggregation.FoldGroups | src/lib/metric_ingest.py:476-505 | there is an entry for a key if and only if some line has that key, and it carries the plain sum of all lines that have it |
| LocalAggregation.OutputLine | src/lib/metric_ingest.py:449 | each output line carries the plain sum of its whole group, under the dimensions of the line of the group that came last |
| LocalAggregation.OutputIsDistinct | src/lib/metric_ingest.py:449 | no two output lines are of the same series |
| LocalAggregation.OutputIsComplete | src/lib/metric_ingest.py:449 | every line added is of the series of some output line |
| LocalAggregation.TotalIsConserved | src/lib/metric_ingest.py:476-505 | the plain sum over the output is that over the input; for distributions the extreme bounds too |
| LocalAggregation.AggregationIgnoresOrder | src/lib/metric_ingest.py:427-449 | keys and values do not depend on the order of series, points or pages |
| LocalAggregation.OutputIgnoresOrderIff | src/lib/metric_ingest.py:449-505 | every order of the same lines gives the same output lines, each as often and with its dimensions in the same order, if and only if lines of one series list their dimensions alike |
| LocalAggregation.OutputInOrderOfAppearance | src/lib/metric_ingest.py:449 | the output lists the series in the order in which their first lines came |
| LocalAggregation.ListIgnoresOrderIff | src/lib/metric_ingest.py:449 | the output as a list is the same for every order of the lines if and only if all are of one series and list their dimensions alike |
| Histogram.FindMinBucket | src/lib/metric_ingest.py:795-800 | the first non-empty bucket, the last when all are empty |
| Histogram.ExtractValue | src/lib/metric_ingest.py:770-831 | the summary of any distribution point, and exactly which points make it raise: a needed key is missing, or a point without buckets asks for a bound that is not there |
| Histogram.ExponentialSummary | src/lib/metric_ingest.py:770-812 | for exponential buckets, more than two samples, an empty first bucket and fewer counts than finite buckets: minimum and maximum are scale times powers of the growth factor; otherwise both are the mean |
| Histogram.LinearSummary | src/lib/metric_ingest.py:770-822 | for linear buckets with offset and width the same with offset plus multiples of the width |
| Histogram.ExplicitSummary | src/lib/metric_ingest.py:770-831 | for explicit buckets, more than two samples and an empty first bucket: the bounds around the first non-empty and the last bucket, the last bound for what lies beyond; otherwise the mean |
| Histogram.NoBucketsSummary | src/lib/metric_ingest.py:793-831 | without bucket counts the bounds are those at indices -2 and -1 |
| Histogram.RaisesIff | src/lib/metric_ingest.py:803-829 | working out bounds raises if and only if there are no bucket counts and the growth factor is zero or there is one explicit bound |
| Histogram.KeysNeeded | src/lib/metric_ingest.py:770-829 | which missing keys make a point raise: none for up to two samples; growth and scale only if the bounds are worked out |
| Histogram.BucketBounds | src/lib/metric_ingest.py:802-829 | the three bucket branches leave the edges around the non-empty buckets, the mean, or an exception |
| Histogram.BoundsHoldSamples | src/lib/metric_ingest.py:802-829 | where a bucket branch sets the bounds: for every sample set a well-formed histogram describes, the minimum is at most every sample and at most the maximum; the maximum is above every sample unless the overflow bucket is reached |
| Histogram.WitnessSamples | src/lib/metric_ingest.py:802-829 | every well-formed histogram describes some sample set, one above the maximum if the overflow bucket is reached |
| Histogram.MaximumHoldsIff | src/lib/metric_ingest.py:823-829 | where a bucket branch sets the bounds: the maximum bounds every described sample set if and only if the overflow bucket is empty |
| Histogram.UnsetBoundsHoldIff | src/lib/metric_ingest.py:777-789 | where none does: the reported maximum, and likewise the minimum, bounds samples with the true mean if and only if all of them are equal |
| Histogram.UnsetBoundsHoldAllIff | src/lib/metric_ingest.py:777-831 | where none does: either bounds every sample set with this histogram and mean if and only if there is one sample, or the mean is the lower edge of the only bucket that is not empty |
| Histogram.UnsetBounds | src/lib/metric_ingest.py:823-831 | three samples in the first bucket are reported with their mean as minimum and maximum, though the overflow bucket is empty |
| Histogram.OverflowOnlyExplicit | src/lib/metric_ingest.py:802-829 | only explicit buckets can reach the overflow bucket |
| Histogram.SummaryIsConsistent | src/lib/metric_ingest.py:761-831 | with the true mean, the sum lies between count times minimum and, without overflow, count times maximum, also after scaling |
| PushRetry.DecidesIff | src/lib/metric_ingest.py:181-238 | exactly one attempt decides a push: the first not worth retrying, or the last allowed |
| PushRetry.EachResponseCountedOnce | src/lib/sfm/for_metrics/metrics_definitions.py:32-40 | a status is counted as often as attempts were answered with it; network errors count nothing |
| PushRetry.PostsAgainIff | src/lib/metric_ingest.py:181-238 | there is a further post if and only if all replies so far were network errors or had the code 429, 500, 502, 503 or 504 |
| PushRetry.EndingIff | src/lib/metric_ingest.py:206-277 | all lines are dropped if and only if the deciding reply is a network error, has one of those codes or 413, or a non-fatal code and a body that is no JSON; counts are recorded if and only if its body is asked for and has both |
| PushRetry.FatalEnds | src/lib/metric_ingest.py:208-220 | 401, 403, and 404 or 405 each leave their connectivity and raise their exception; nothing else touches the connectivity |
| PushRetry.SleepAfter | src/lib/metric_ingest.py:190-236 | a failed attempt is followed by 1, 2 or 4 seconds of sleep, or by what the header asks for, at least 0 and at most 10 seconds |
| PushRetry.SleepIsSum | src/lib/metric_ingest.py:181-238 | a push sleeps once between two posts |
| PushRetry.RetryAccounting | src/lib/metric_ingest.py:181-277 | one to four posts, all but the last failed transiently, each response counted once except a last one whose body is JSON but no object, at most 10 s of sleep per retry and 30 s in all, on top of what NaN delays come to |
| PushRetry.TotalSleepIsBounded | src/lib/metric_ingest.py:222-236 | without a NaN delay a push sleeps at most 30 s |
| PushRetry.AllCountedIff | src/lib/metric_ingest.py:240-276 | the counts are those of all responses if and only if the deciding response is not one whose body is asked for and is JSON but no object |
| PushRetry.UncountedResponse | src/lib/metric_ingest.py:263-275 | a script that meets it: a list answered with status 200 is posted once and counted never |
| PushRetry.LinesAccounting | src/lib/metric_ingest.py:181-277 | the last reply decides: both counts of the server are recorded if and only if both can be added; or all lines are dropped; or the push raises, with no line counted but the ok lines of a response whose invalid count cannot be added |
| PushRetry.RaiseCountsLinesIff | src/lib/metric_ingest.py:272-277 | a push raises after counting lines if and only if the deciding response has an ok count other than zero and an invalid count that cannot be added |
| PushRetry.HalfCountedResponse | src/lib/metric_ingest.py:272-277 | a script that meets it: status 200 with five ok lines and null for the invalid ones |
| PushRetry.ConnectivityBreaksIff | src/lib/context.py:326-331 | a push marks the connection if and only if the deciding response is a 401, 403, 404 or 405 |
| PushRetry.PushConservesLines | src/lib/metric_ingest.py:181-277 | with a server that accounts for every line, ok plus invalid plus dropped is the batch, or nothing if the push raised |
| PushRetry.TrackStep | src/lib/metric_ingest.py:181-295 | every await-to-await step, from anywhere, stays on the way to the closed form of the push |
| PushRetry.BooksFollowTally | src/lib/sfm/for_metrics/metrics_definitions.py:77-142 | the dictionaries grow by the tally of the push for its project and move for no other |
| PushRetry.MetricsContext.constructor | src/lib/context.py:318-328 | a new context has empty counters and a working connection |
| PushRetry.MetricsContext.Increment | src/lib/sfm/for_metrics/metrics_definitions.py:32-40 | one more request of this status code, no other count moves |
| PushRetry.MetricsContext.HandleFatal | src/lib/metric_ingest.py:208-220 | a fatal status is counted, marks the connection by its kind and raises |
| PushRetry.MetricsContext.HandleNetworkError | src/lib/metric_ingest.py:190-204 | a failed post sleeps and goes on, or drops the batch after the last attempt |
| PushRetry.MetricsContext.HandleResponse | src/lib/metric_ingest.py:206-238 | a response raises and marks the connection, sleeps and goes on, or leaves the loop |
| PushRetry.MetricsContext.RetryLoop | src/lib/metric_ingest.py:180-238 | the loop ends at the deciding attempt and leaves behind the response to exactly that attempt |
| PushRetry.MetricsContext.ProcessResponse | src/lib/metric_ingest.py:240-277 | what the response left by the loop does to counters and lines |
| PushRetry.MetricsContext.PushToDynatrace | src/lib/metric_ingest.py:168-295 | a push changes counters, connectivity, posts and sleep exactly as its closed form says |
| Sequences.ChunksRejoin | src/lib/utilities.py:28-30 | chunks concatenate to the list |
| Sequences.ChunkSizes | src/lib/utilities.py:28-30 | no chunk is empty or over the size, all but the last are full; a size below one counts as one |
| SequentialPush.BuildBatches | src/lib/metric_ingest.py:104-113 | the batching loop yields the chunks of the lines, for every batch size |
| SequentialPush.PushSequentially | src/lib/metric_ingest.py:120-123 | batches are pushed in order up to and including the first that raises |
| SequentialPush.StopsAtIff | src/lib/metric_ingest.py:120-123 | that is: no batch before the last one started has raised, and if some are not started the last one has |
| SequentialPush.PushIngestLines | src/lib/metric_ingest.py:93-165 | at a concurrency of at most one: nothing is sent on a broken connection or without lines; otherwise the batches are pushed in order and an exception goes no further |
| SequentialPush.BooksAfterCount | src/lib/metric_ingest.py:120-123 | the project's counters grow by the sum of the tallies of the started batches |
| SequentialPush.BooksAfterConnectivity | src/lib/context.py:326-331 | the connection is broken afterwards if and only if it was before or a started batch raised on a fatal status; no later push repairs it |
| SequentialPush.LinesAreConserved | src/lib/metric_ingest.py:93-157 | every line given is ok, invalid, dropped, in the batch that raised, or in a batch never started |
| ConcurrentPush.AlwaysBounded | src/lib/metric_ingest.py:126-145 | in every reachable state permits plus tasks holding one is the concurrency, and the abort flag is up if and only if a batch has raised |
| ConcurrentPush.RaisesAreBounded | src/lib/metric_ingest.py:126-145 | at most as many batches as the concurrency end in an exception |
| ConcurrentPush.AbortIsFinal | src/lib/metric_ingest.py:128-140 | once up the flag stays up and no push starts, however the run goes on |
| ConcurrentPush.RunsEnd | src/lib/metric_ingest.py:126-145 | no run takes more than eleven steps per batch |
| ConcurrentPush.NoDeadlock | src/lib/metric_ingest.py:126-145 | a state where nothing can go on is one where all tasks are over |
| ConcurrentPush.ConcurrencyIsUsed | src/lib/metric_ingest.py:126-145 | as many batches as the concurrency can be in their pushes at once |
| ConcurrentPush.AlwaysStartsOnce | src/lib/metric_ingest.py:130-140 | a batch is started at most once, and skipped only after an abort |
| ConcurrentPush.AlwaysTallied | src/lib/metric_ingest.py:126-145 | the shared counters are always the sum of what the pushes counted so far |
| ConcurrentPush.DoneAsAlone | src/lib/metric_ingest.py:137 | a batch pushed among others ends, posts, sleeps and counts as it would alone |
| ConcurrentPush.NoRaiseNoAbort | src/lib/metric_ingest.py:138-140 | without a batch that raises no run aborts |
| ConcurrentPush.ConcurrentEqualsSequential | src/lib/metric_ingest.py:120-145 | when no batch raises, every interleaving leaves the counters and connectivity of the sequential loop, and starts each batch exactly once |
| ConcurrentPush.AlwaysMarked | src/lib/context.py:326-331 | the connection is marked in a state if and only if a batch has raised on a fatal status |
| ConcurrentPush.AlwaysMarkOfABatch | src/lib/context.py:326-331 | the mark is always the one that the push of some finished batch leaves |
| ConcurrentPush.LinesAreConserved | src/lib/metric_ingest.py:93-157 | at every moment of every run each line is ok, invalid, dropped, in a batch that raised, or in one whose push is not over |
| ConcurrentPush.UncountedAtTheEnd | src/lib/metric_ingest.py:126-145 | at the end of a run a batch is uncounted if and only if it was started and raised, or was never started and another raised |
| InterleavedCalls.EachCallRunsAlone | src/main.py:213-219 | however the calls for all projects interleave on the shared context, each is in a state its own tasks reach without the others |
| InterleavedCalls.PermitsAreConcurrency | src/lib/metric_ingest.py:126-127 | the permits of a call, held or not, are as many as its concurrency, one for a loop |
| InterleavedCalls.AnyOrderIsPossible | src/main.py:213-219 | a call may begin at any time, and the tasks of a concurrent one go on in any order that they could alone |
| InterleavedCalls.CallCanFinish | src/lib/metric_ingest.py:120-145 | from every run a call that has begun can get to its end by steps of its own: a loop to a batch that raises or past the last, a concurrent call to all tasks being over |
| InterleavedCalls.AllCanEnd | src/main.py:213-219 | from every run all calls can get to their end |
| InterleavedCalls.ConnectivityIff | src/lib/context.py:326-331 | at every moment the connection is broken if and only if a batch of some call has raised on a fatal status |
| InterleavedCalls.AlwaysMarkOfACall | src/lib/context.py:326-331 | the shared mark is always the one that the push of some finished batch of some call leaves |
| InterleavedCalls.BrokenSendsNothing | src/lib/metric_ingest.py:94-96 | once the connection is broken it stays so, and no call not begun by then ever sends anything, in either mode |
| InterleavedCalls.DeclinedOnlyIf | src/lib/metric_ingest.py:94-101 | a call sends nothing only if it has no batches or the connection is broken |
| InterleavedCalls.CountersAreSums | src/lib/sfm/for_metrics/metrics_definitions.py:32-142 | at every moment the line counters of a project are the sum over its calls, and the request counts the sum over the calls of all projects |
| InterleavedCalls.ProjectLinesAreConserved | src/lib/metric_ingest.py:93-157 | at every moment the lines given for a project are ok, invalid, dropped, in batches that raised or are not over, or in calls that have not begun or declined to send |
| InterleavedCalls.AlwaysInOrder | src/lib/metric_ingest.py:120-123 | a call at a concurrency of at most one starts its batches in order, one at a time, none after one that raised |
| InterleavedCalls.LoopEndsAsAlone | src/lib/metric_ingest.py:120-123 | such a call ends, among all others, at its first batch that raises or after the last, with the sum of the tallies of the batches started |
| InterleavedCalls.InterleavedEqualsAlone | src/main.py:213-219 | when all calls are over and no batch raises, the connection works and the counters of each project are the sums of what its calls would count alone |
| LogBatching.AggregateSelfMonitoring | src/lib/logs/log_self_monitoring.py:42-56 | the accumulator gains the sum over the list |
| LogBatching.TotalOfOneMore | src/lib/logs/log_self_monitoring.py:42-56 | each of the twelve fields of the sum grows by that of the value added, connectivity states at the end |
| LogBatching.PrepareBatches | src/lib/logs/logs_processor.py:56-123 | the greedy loop with its running lengths and lists closes exactly the groups of the specification; each batch is the JSON array of its group, byte by byte, with the number and the ack ids of its entries |
| LogBatching.CloseBatch | src/lib/logs/logs_processor.py:82-92 | a closed batch is the JSON array of its payloads with the sum of their self-monitoring |
| LogBatching.SerializedIsArray | src/lib/logs/logs_processor.py:86-86 | the bytes are `[`, each payload at its place with `,` before all but the first, and `]` right after the last |
| LogBatching.RecordedSizeIsSerializedLengthIff | src/lib/logs/logs_processor.py:70-74 | the recorded size is the serialized byte length if and only if the batch has entries |
| LogBatching.GroupsPartition | src/lib/logs/logs_processor.py:66-121 | no entry is lost, doubled or moved |
| LogBatching.BatchesConserve | src/lib/logs/logs_processor.py:66-121 | entries, ack ids and the total of self-monitoring over the batches are those of the input |
| LogBatching.AllWithinLimitsIff | src/lib/logs/logs_processor.py:75-106 | every batch has entries and is within both limits if and only if every entry could be sent alone |
| LogBatching.EmptyBatchIff | src/lib/logs/logs_processor.py:75-96 | a batch without entries is made if and only if the first entry could not be sent alone |
| LogBatching.GreedyStaysAhead | src/lib/logs/logs_processor.py:66-106 | from inside any open batch, against any split of what is left, the loop needs at most one batch more |
| LogBatching.BatchesAreFewest | src/lib/logs/logs_processor.py:66-106 | no order-preserving split within both limits uses fewer batches |
| LogCycle.PerformPull | src/lib/logs/log_integration_service.py:144-166 | failed pulls contribute nothing and a pull that returned nothing raises; the rest is split into batches and erroneous ack ids |
| LogCycle.ReceivedInOrder | src/lib/logs/log_integration_service.py:151-160 | the messages of every pull that brought some are taken, in order, and nothing of a failed one |
| LogCycle.PullRaisesIff | src/lib/logs/gcp_client.py:132-145 | the pulls of a cycle return something that cannot be asked for messages if and only if some answer can be read, is no error, and has a status from 300 on or no object for a body |
| LogCycle.ProcessResponse | src/lib/logs/log_integration_service.py:153-160 | the messages of one response extend the entries and the erroneous ack ids, each message in exactly one of them |
| LogCycle.PullSplits | src/lib/logs/log_integration_service.py:151-166 | each pulled ack id is in the erroneous list or in a batch, as often as it was pulled |
| LogCycle.PulledBatchesAreWellMade | src/lib/logs/log_integration_service.py:157 | thanks to the size check every batch of a pull has entries and its body is within both limits |
| LogCycle.LogsContext.SendLogs | src/lib/logs/dynatrace_client.py:51-96 | ack ids are kept and entries counted if and only if there is an answer of at most 299; it raises if and only if there was no answer or one from 400; the connectivity recorded for each status |
| LogCycle.LogsContext.PushLogs | src/lib/logs/log_integration_service.py:168-193 | in any order of completion the ack ids are those of the accepted batches and the entry count is their number; a failure stops no other send |
| LogCycle.CycleSplits | src/lib/logs/log_integration_service.py:151-209 | a cycle splits the pulled ack ids into those left and those accepted or erroneous, and its ack requests name exactly the latter, none lost or doubled |
| LogCycle.AckRequestSizes | src/lib/logs/log_integration_service.py:195-209 | no ack request is empty or names more than 2048 ids, and all but the last name 2048 |
| LogForwarding.EachDeliveryHasOneFate | src/lib/logs/log_forwarder.py:73-92 | over any run of any number of workers each delivery is accepted, erroneous, left for redelivery or on its way, exactly one of them and once |
| LogForwarding.ErroneousIff | src/lib/logs/log_integration_service.py:151-160 | the deliveries acknowledged as erroneous are exactly those processed to nothing or over the size limit |
| LogForwarding.BatchesAlwaysSound | src/lib/logs/logs_processor.py:56-123 | every request in every run carries only entries of its own deliveries, at least one, within both limits |
| LogForwarding.AcksAlwaysSettled | src/lib/logs/log_integration_service.py:195-209 | every ack id held or sent belongs to an accepted or erroneous delivery, in requests of at most 2048 |
| LogForwarding.AcknowledgedOnlyIf | src/lib/logs/log_integration_service.py:151-193 | a delivery is acknowledged only if a batch carrying its entry got at most 299, or it was processed to nothing, or was over the limit |
| LogForwarding.MessageAcknowledgedOnlyIf | src/lib/logs/log_integration_service.py:151-193 | a message delivered any number of times is acknowledged only if one of its deliveries was accepted, processed to nothing, or over the limit |
| LogForwarding.RefusedIsNotAcknowledged | src/lib/logs/dynatrace_client.py:68-96 | in every run a delivery whose batch got no answer or a status from 300 on is left for redelivery once and is in no acknowledgement |
| LogForwarding.SettledIsAccountedFor | src/lib/logs/log_forwarder.py:82-88 | every accepted or erroneous delivery is, exactly as often as it was settled, still to be acknowledged by a worker, in an ack request that ended, or abandoned by a failed worker |
| LogForwarding.ArrivedIsAcknowledged | src/lib/logs/gcp_client.py:147-177 | what an ack request that reaches Pub/Sub names stays acknowledged however the run goes on |
| LogForwarding.ConfirmedIsAcknowledged | src/lib/logs/gcp_client.py:147-177 | every ack id whose request ended well is acknowledged |
| LogForwarding.AcknowledgedIffSettled | src/lib/logs/log_integration_service.py:151-209 | a delivery with no ack outstanding, refused or abandoned is acknowledged if and only if it was accepted or is erroneous |
| LogForwarding.SentEntriesAreAccepted | src/lib/logs/dynatrace_client.py:86-88 | the counter of sent entries is the number of accepted deliveries |
| LogForwarding.WorkerCanGoOn | src/lib/logs/log_forwarder.py:73-92 | a worker that is not cancelled always has a step to take that is no failure |
| LogForwarding.BusyRunsEnd | src/lib/logs/log_forwarder.py:73-92 | whatever the other workers do, the steps a worker takes before it pulls again, failures included, are bounded by the work it has |
| LogForwarding.CycleCanFinish | src/lib/logs/log_forwarder.py:73-92 | from every state of every run a worker in its cycle can get back to its next pull by steps of its own, with all it held or had to acknowledge acknowledged |
| LogForwarding.AnyPullCanFinish | src/lib/logs/log_forwarder.py:73-92 | whatever a pull brings can get acknowledged by steps of its worker alone |
| LogForwarding.NothingIsRuledOut | src/lib/logs/log_forwarder.py:73-92 | the machine rules out no answer, no lost acknowledgement, and no failure or cancellation at any await |
| TokenRefresh.GCPClient.constructor | src/lib/logs/gcp_client.py:45-72 | a client made from text, with an hour to live, or from a full dictionary has headers for its token and asks for no refresh |
| TokenRefresh.GCPClient.UpdateToken | src/lib/logs/gcp_client.py:78-107 | an update takes over token, expiry or an hour from now, and headers together, or restores all three and raises |
| TokenRefresh.GCPClient.PullMessages | src/lib/logs/gcp_client.py:121-145 | a pull sends the headers of its moment; it asks for a refresh if and only if one was asked for, the token has expired, or a readable answer is 401; it returns messages, something else, or raises by status and body |
| TokenRefresh.AlwaysConsistent | src/lib/logs/log_integration_service.py:110-121 | in every state the headers match the token, at most one refresh is in flight, and one is asked for or in flight only for a token expired or refused |
| TokenRefresh.NoRefreshAfterSuccess | src/lib/logs/log_integration_service.py:110-121 | after a successful refresh no task starts one until the new expiry passes or a further 401 arrives |
| TokenRefresh.TokenStaysWithoutSuccess | src/lib/logs/gcp_client.py:78-107 | over any run in which no usable token arrives, token, expiry and headers stay as they were, failed updates included |
| TokenRefresh.ArrivalIs | src/lib/logs/gcp_client.py:78-107 | what arrives from token creation: a usable token is held at once with its expiry and headers; any other changes no field, and the flag stays up only for an acknowledgement |
| TokenRefresh.NothingIsRuledOut | src/lib/logs/log_integration_service.py:110-135 | the machine rules out no 401, no result of token creation and no cancellation |
| TokenRefresh.NoRefreshAfterFailedPull | src/lib/logs/log_integration_service.py:128-135 | after a refresh asked for by a pull has failed no task starts one until the token expires or a further 401 arrives |
| TokenRefresh.FlagFallsIff | src/lib/logs/log_integration_service.py:110-135 | a refresh asked for stays so until a usable token arrives or a refresh for a pull fails, and no longer |
| TokenRefresh.RefusalIsActedOn | src/lib/logs/log_integration_service.py:110-135 | after a 401 and until then, whichever task next gets the lock starts a refresh, and if none waits the next pull does |
| TokenRefresh.ExpiryIsActedOn | src/lib/logs/gcp_client.py:155-160 | an expired token is refreshed by the next acknowledgement, or by the pull after one that has seen it |
| TokenRefresh.RefusalIsForgotten | src/lib/logs/log_integration_service.py:131-133 | a 401 that arrives while a refresh for a pull is in flight is forgotten when that fails: none is started until the token expires or is refused again |
| TokenRefresh.RefreshInFlight | src/lib/logs/log_integration_service.py:128-135 | a run to such a state |
| Autodiscovery.AutodiscoveryTaskExecutor.constructor | src/lib/autodiscovery/autodiscovery_task_executor.py:53-76 | a new executor runs, has nothing cached, no event set and only the observers it was given |
| Autodiscovery.AutodiscoveryTaskExecutor.AddObserver | src/lib/autodiscovery/autodiscovery_task_executor.py:83-85 | one more observer waits, nothing else changes |
| Autodiscovery.AutodiscoveryTaskExecutor.Disable | src/lib/autodiscovery/autodiscovery_task_executor.py:118-124 | the executor stops and every waiting observer is called |
| Autodiscovery.AutodiscoveryTaskExecutor.NotifyObservers | src/lib/autodiscovery/autodiscovery_task_executor.py:78-81 | every waiting observer is called once, the latest first, and none is left |
| Autodiscovery.AutodiscoveryTaskExecutor.StoreResult | src/lib/autodiscovery/autodiscovery_task_executor.py:103-106 | a result replaces the cached one, an empty one does not, and observers are called |
| Autodiscovery.AutodiscoveryTaskExecutor.UpdateExtensions | src/lib/autodiscovery/autodiscovery_task_executor.py:87-95 | new services are published with the event set if and only if the versions hash changed |
| Autodiscovery.AutodiscoveryTaskExecutor.ProcessAutodiscoveryResult | src/lib/autodiscovery/autodiscovery_task_executor.py:126-140 | the discovered service is added to the result if and only if the loop runs and has found one |
| Autodiscovery.UpdatesAreNeverLost | src/lib/autodiscovery/autodiscovery_task_executor.py:87-124 | while the loop is alive, services not yet read by an attempt have the event set or the loop about to read; otherwise the last attempt got the newest |
| Autodiscovery.ReadIsLastPublished | src/lib/autodiscovery/autodiscovery_task_executor.py:87-116 | an attempt that has seen all publications got the services of the last publication of the run |
| Autodiscovery.PublishesIff | src/lib/autodiscovery/autodiscovery_task_executor.py:87-95 | a caller publishes if and only if the hash of what it found is not that of the last publication |
| Autodiscovery.NothingIsRuledOut | src/lib/autodiscovery/autodiscovery_task_executor.py:97-140 | callers may come at any time while the loop is alive, discovery may end in any way, and the loop can always go on |
| Autodiscovery.PublishedIsReadSoon | src/lib/autodiscovery/autodiscovery_task_executor.py:97-124 | whatever was published reaches an attempt within four steps of the loop, or the loop has ended |
| Autodiscovery.UnreadIsNotStuck | src/lib/autodiscovery/autodiscovery_task_executor.py:97-124 | with an update unread the loop can go on without waiting for the query time |
| Autodiscovery.CachedIsNeverCleared | src/lib/autodiscovery/autodiscovery_task_executor.py:103-105 | once a service is cached there is one for ever |
| Autodiscovery.CachedIsLastStored | src/lib/autodiscovery/autodiscovery_task_executor.py:103-106 | the cached service is the last result of a run that was stored and not empty |
| Autodiscovery.ObserversCalledOnce | src/lib/autodiscovery/autodiscovery_task_executor.py:78-124 | observers registered while the loop is alive are called exactly once or still waiting, none waits once it has ended, and later ones are never called |

## Left out

- HTTP sessions, compression, JSON decoding, credentials and secrets: their outcomes are parameters.
- The `InvalidURL` handler of `push_ingest_lines`: nothing raises it there, since every exception of a post is caught in the retry loop.
- `log_invalid_lines` and warning filtering: reporting; line numbers in a response are taken to lie inside the batch.
- PushRetry.RetryAccounting: how long a sleep for a NaN delay lasts is up to the event loop, whose timers are not modelled; it is a parameter of the reply.
- PushRetry.LinesAccounting: counts in a response are integers or cannot be added at all; a fractional count would be added as it is.
- SequentialPush.PushIngestLines: the method is the branch for a concurrency of at most one; the other branch is the machine of `ConcurrentPush`, and the guard before both is in `InterleavedCalls`.
- The semaphore around log ingest requests: it only delays sends, and the machine allows every order.
- Order of wake-ups in semaphores and locks: any waiter may be next, so fairness is not used and not shown.
- Observers that raise, and cancellation of the autodiscovery loop.
- The text of names, units and entity ids: names are taken to hold no delimiter, and the percent unit is a flag.
- Integer values with the percent unit in `extract_value`: a single multiplication.
- Processing of a message into an entry (rule engine, trimming, time stamps): a message is processed to nothing or to a payload.
- The refresh of the token inside `push_ack_ids` appears in `TokenRefresh`, not in `LogForwarding`, where it is a failure at an await.
- Metric discovery, dashboards, extensions, entities, self-monitoring output: lookups and plumbing.
- Floating-point rounding and wall-clock progress.
