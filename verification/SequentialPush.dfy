/** Batching the ingest lines and pushing the batches one after another:
    `push_ingest_lines` in src/lib/metric_ingest.py with at most one concurrent push. */
module SequentialPush {
  import opened Wrappers
  import opened Connectivity
  import opened Sequences
  import opened PushRetry

  /** The batches of a list of ingest lines. */
  method BuildBatches<T>(fetchMetricResults: seq<T>, batchSize: int) returns (batches: seq<seq<T>>)
    ensures batches == Chunks(fetchMetricResults, batchSize)
  {
    batches := [];
    var batch := [];
    ghost var size: nat := if batchSize < 1 then 1 else batchSize;
    ghost var rest := fetchMetricResults;
    TakeAll(fetchMetricResults);
    for i := 0 to |fetchMetricResults|
      invariant |batch| < size && rest == batch + fetchMetricResults[i..]
      invariant Chunks(fetchMetricResults, batchSize) == batches + ChunksOf(rest, size)
    {
      MoveOne(batch, fetchMetricResults, i);
      batch := batch + [fetchMetricResults[i]];
      if |batch| >= batchSize {
        FirstChunk(batch, fetchMetricResults[i + 1..], size);
        ConcatIsAssociative(batches, [batch], ChunksOf(fetchMetricResults[i + 1..], size));
        batches := batches + [batch];
        batch := [];
        rest := fetchMetricResults[i + 1..];
        ConcatEmpty(rest);
      }
    }
    ConcatEmpty(batch);
    assert rest == batch;
    if batch != [] {
      batches := batches + [batch];
    } else {
      ConcatEmpty(batches);
    }
  }

  lemma MoveOne<T>(batch: seq<T>, list: seq<T>, i: nat)
    requires i < |list|
    ensures batch + list[i..] == (batch + [list[i]]) + list[i + 1..]
  {
  }

  lemma FirstChunk<T>(chunk: seq<T>, rest: seq<T>, size: nat)
    requires |chunk| == size >= 1
    ensures ChunksOf(chunk + rest, size) == [chunk] + ChunksOf(rest, size)
  {
    if rest == [] {
      ConcatEmpty(chunk);
    } else {
      assert (chunk + rest)[..size] == chunk && (chunk + rest)[size..] == rest;
    }
  }

  /** The script of replies for a batch; a batch beyond them gets no reply. */
  function ScriptOf(scripts: seq<Script>, batch: nat): Script {
    if batch < |scripts| then scripts[batch] else Script([])
  }

  /** A batch as the server sees it. */
  datatype Job = Job(lines: nat, script: Script)

  function Jobs<T>(batches: seq<seq<T>>, scripts: seq<Script>): (jobs: seq<Job>)
    ensures |jobs| == |batches|
    ensures forall i :: 0 <= i < |jobs| ==> jobs[i] == Job(|batches[i]|, ScriptOf(scripts, i))
  {
    seq(|batches|, i requires 0 <= i < |batches| => Job(|batches[i]|, ScriptOf(scripts, i)))
  }

  function Pushes(jobs: seq<Job>): (pushes: seq<PushResult>)
    ensures |pushes| == |jobs|
  {
    if jobs == [] then []
    else
      var last := jobs[|jobs| - 1];
      Pushes(jobs[..|jobs| - 1]) + [Push(last.script, last.lines)]
  }

  lemma {:induction false} PushesAt(jobs: seq<Job>, i: nat)
    requires i < |jobs|
    ensures Pushes(jobs)[i] == Push(jobs[i].script, jobs[i].lines)
  {
    if i < |jobs| - 1 { PushesAt(jobs[..|jobs| - 1], i); }
  }

  /** What the first pushes add to the counters. */
  function SumOf(pushes: seq<PushResult>, count: nat): Tally
    requires count <= |pushes|
  {
    if count == 0 then NOTHING else SumOf(pushes, count - 1).Plus(pushes[count - 1].tally)
  }

  function BooksAfter(books: Books, project: string, pushes: seq<PushResult>, count: nat): Books
    requires count <= |pushes|
  {
    if count == 0 then books else BooksAfter(books, project, pushes, count - 1).After(project, pushes[count - 1])
  }

  predicate NoneRaises(pushes: seq<PushResult>, count: nat)
    requires count <= |pushes|
  {
    count == 0 || (NoneRaises(pushes, count - 1) && !pushes[count - 1].verdict.ending.Raised?)
  }

  /** The loop stops with the first batch that raises. */
  predicate StopsAt(pushes: seq<PushResult>, started: nat) {
    && started <= |pushes|
    && (started > 0 ==> NoneRaises(pushes, started - 1))
    && (started < |pushes| ==> started > 0 && pushes[started - 1].verdict.ending.Raised?)
  }

  lemma {:induction false} NoneRaisesIff(pushes: seq<PushResult>, count: nat)
    requires count <= |pushes|
    ensures NoneRaises(pushes, count) <==> forall k :: 0 <= k < count ==> !pushes[k].verdict.ending.Raised?
  {
    if count > 0 { NoneRaisesIff(pushes, count - 1); }
  }

  /** None before the last batch started has raised, and if there are batches not started the
      last one started has. */
  lemma StopsAtIff(pushes: seq<PushResult>, started: nat)
    ensures StopsAt(pushes, started)
            <==> && started <= |pushes|
                 && (forall k :: 0 <= k < started - 1 ==> !pushes[k].verdict.ending.Raised?)
                 && (started < |pushes| ==> started > 0 && pushes[started - 1].verdict.ending.Raised?)
  {
    if 0 < started <= |pushes| { NoneRaisesIff(pushes, started - 1); }
  }

  /** One turn of the loop over the batches: does the push raise? */
  method PushBatch(context: MetricsContext, project: string, lines: nat, script: Script, ghost push: PushResult)
    returns (raised: bool)
    requires context.Valid() && push == Push(script, lines)
    modifies context
    ensures context.Valid() && raised == push.verdict.ending.Raised?
    ensures context.Account() == old(context.Account()).After(project, push)
  {
    var ending := context.PushToDynatrace(project, lines, script);
    raised := ending.Raised?;
  }

  /** The sequential branch of `push_ingest_lines`, where `pushes` is what the pushes of
      the batches amount to. */
  method PushSequentially<T>(context: MetricsContext, project: string, batches: seq<seq<T>>, scripts: seq<Script>,
                             ghost pushes: seq<PushResult>) returns (started: nat)
    requires context.Valid() && |pushes| == |batches|
    requires forall i {:trigger ScriptOf(scripts, i)} :: 0 <= i < |batches| ==>
               pushes[i] == Push(ScriptOf(scripts, i), |batches[i]|)
    modifies context
    ensures context.Valid() && StopsAt(pushes, started)
    ensures context.Account() == BooksAfter(old(context.Account()), project, pushes, started)
  {
    ghost var before := context.Account();
    started := 0;
    var raised := false;
    while started < |batches| && !raised
      invariant started <= |batches|
      invariant raised ==> started > 0 && pushes[started - 1].verdict.ending.Raised?
      invariant NoneRaises(pushes, if raised then started - 1 else started)
      invariant context.Valid() && context.Account() == BooksAfter(before, project, pushes, started)
      decreases |batches| - started
    {
      raised := PushBatch(context, project, |batches[started]|, ScriptOf(scripts, started), pushes[started]);
      started := started + 1;
    }
  }

  /** `push_ingest_lines` at a concurrency of at most one: nothing is sent when the connection
      is known to be broken or there are no lines; otherwise the batches are pushed in order,
      up to and including the first that raises, and the exception goes no further. */
  method PushIngestLines<T>(context: MetricsContext, project: string, fetchMetricResults: seq<T>, scripts: seq<Script>)
    returns (started: nat)
    requires context.Valid() && context.metricIngestConcurrentPushes <= 1
    modifies context
    ensures context.Valid()
    ensures old(context.dynatraceConnectivity) != Ok || fetchMetricResults == []
            ==> started == 0 && context.Account() == old(context.Account())
    ensures old(context.dynatraceConnectivity) == Ok && fetchMetricResults != []
            ==> var pushes := Pushes(Jobs(Chunks(fetchMetricResults, context.metricIngestBatchSize), scripts));
                StopsAt(pushes, started)
                && context.Account() == BooksAfter(old(context.Account()), project, pushes, started)
  {
    if context.dynatraceConnectivity != Ok {
      return 0;
    }
    if fetchMetricResults == [] {
      return 0;
    }
    var batches := BuildBatches(fetchMetricResults, context.metricIngestBatchSize);
    ghost var jobs := Jobs(batches, scripts);
    forall i | 0 <= i < |batches| ensures Pushes(jobs)[i] == Push(ScriptOf(scripts, i), |batches[i]|) {
      PushesAt(jobs, i);
    }
    started := PushSequentially(context, project, batches, scripts, Pushes(jobs));
  }

  predicate AllTally(pushes: seq<PushResult>) {
    forall i :: 0 <= i < |pushes| ==> TalliesEnding(pushes[i])
  }

  lemma PushesTally(jobs: seq<Job>)
    ensures AllTally(Pushes(jobs))
  {
    forall i | 0 <= i < |jobs| ensures TalliesEnding(Pushes(jobs)[i]) {
      PushesAt(jobs, i);
      PushTalliesEnding(jobs[i].script, jobs[i].lines);
    }
  }

  /** The project's counters grow by the sum of the tallies of the pushes. */
  lemma {:induction false} BooksAfterCount(books: Books, project: string, pushes: seq<PushResult>, count: nat)
    requires count <= |pushes| && AllTally(pushes)
    ensures BooksAfter(books, project, pushes, count).TallyOf(project)
            == books.TallyOf(project).Plus(SumOf(pushes, count))
  {
    if count == 0 {
      PlusNothing(books.TallyOf(project));
    } else {
      BooksAfterCount(books, project, pushes, count - 1);
      BooksFollowTally(BooksAfter(books, project, pushes, count - 1), project, pushes[count - 1], project);
      PlusIsAssociative(books.TallyOf(project), SumOf(pushes, count - 1), pushes[count - 1].tally);
    }
  }

  predicate BreaksConnection(push: PushResult) {
    push.verdict.ending.Raised? && push.verdict.ending.error.Severs()
  }

  /** Exactly the fatal statuses mark the connection. */
  predicate MarksConnection(push: PushResult) {
    && (push.verdict.connectivity.Some? <==> BreaksConnection(push))
    && push.verdict.connectivity != Some(Ok)
  }

  lemma PushMarksConnection(script: Script, lines: nat)
    ensures MarksConnection(Push(script, lines))
  {
  }

  predicate AllMark(pushes: seq<PushResult>) {
    forall i :: 0 <= i < |pushes| ==> MarksConnection(pushes[i])
  }

  lemma PushesMark(jobs: seq<Job>)
    ensures AllMark(Pushes(jobs))
  {
    forall i | 0 <= i < |jobs| ensures MarksConnection(Pushes(jobs)[i]) {
      PushesAt(jobs, i);
      PushMarksConnection(jobs[i].script, jobs[i].lines);
    }
  }

  /** The connection is broken after some pushes exactly when it was before or one of them
      raised on a fatal status: no later push repairs it. */
  lemma {:induction false} BooksAfterConnectivity(books: Books, project: string, pushes: seq<PushResult>, count: nat)
    requires count <= |pushes| && AllMark(pushes)
    ensures BooksAfter(books, project, pushes, count).connectivity != Ok
            <==> books.connectivity != Ok || exists i :: 0 <= i < count && BreaksConnection(pushes[i])
  {
    if count > 0 {
      BooksAfterConnectivity(books, project, pushes, count - 1);
      assert MarksConnection(pushes[count - 1]);
    }
  }

  function Lengths(jobs: seq<Job>, count: nat): nat
    requires count <= |jobs|
  {
    if count == 0 then 0 else Lengths(jobs, count - 1) + jobs[count - 1].lines
  }

  lemma {:induction false} LengthsFlatten<T>(batches: seq<seq<T>>, scripts: seq<Script>, count: nat)
    requires count <= |batches|
    ensures Lengths(Jobs(batches, scripts), count) == |Flatten(batches[..count])|
  {
    if count > 0 {
      LengthsFlatten(batches, scripts, count - 1);
      assert batches[..count] == batches[..count - 1] + [batches[count - 1]];
      FlattenSnoc(batches[..count - 1], batches[count - 1]);
    }
  }

  /** Every server response accounts for the lines of its batch. */
  predicate AllHonest(jobs: seq<Job>) {
    forall i :: 0 <= i < |jobs| ==> Honest(jobs[i].script, jobs[i].lines)
  }

  /** The lines of the batches, among the first ones, that raised. */
  function RaisedLines(jobs: seq<Job>, pushes: seq<PushResult>, count: nat): nat
    requires count <= |jobs| == |pushes|
  {
    if count == 0 then 0
    else
      var last := count - 1;
      RaisedLines(jobs, pushes, last) + if pushes[last].verdict.ending.Raised? then jobs[last].lines else 0
  }

  /** A push counts all its lines, or raises and counts none. */
  predicate Conserves(job: Job, push: PushResult) {
    push.tally.Lines() == if push.verdict.ending.Raised? then 0 else job.lines
  }

  predicate AllConserve(jobs: seq<Job>, pushes: seq<PushResult>)
    requires |jobs| == |pushes|
  {
    forall i :: 0 <= i < |jobs| ==> Conserves(jobs[i], pushes[i])
  }

  lemma {:induction false} StartedLines(jobs: seq<Job>, pushes: seq<PushResult>, count: nat)
    requires count <= |jobs| == |pushes| && AllConserve(jobs, pushes)
    ensures SumOf(pushes, count).Lines() + RaisedLines(jobs, pushes, count) == Lengths(jobs, count)
  {
    if count > 0 {
      StartedLines(jobs, pushes, count - 1);
      assert Conserves(jobs[count - 1], pushes[count - 1]);
    }
  }

  lemma PushesConserve(jobs: seq<Job>)
    requires AllHonest(jobs)
    ensures AllConserve(jobs, Pushes(jobs))
  {
    forall i | 0 <= i < |jobs| ensures Conserves(jobs[i], Pushes(jobs)[i]) {
      PushesAt(jobs, i);
      PushConservesLines(jobs[i].script, jobs[i].lines);
    }
  }

  lemma {:induction false} NoRaiseNoLines(jobs: seq<Job>, pushes: seq<PushResult>, count: nat)
    requires count <= |jobs| == |pushes| && NoneRaises(pushes, count)
    ensures RaisedLines(jobs, pushes, count) == 0
  {
    if count > 0 { NoRaiseNoLines(jobs, pushes, count - 1); }
  }

  lemma StoppedLines(jobs: seq<Job>, pushes: seq<PushResult>, started: nat)
    requires |jobs| == |pushes| && StopsAt(pushes, started) && AllConserve(jobs, pushes)
    ensures Lengths(jobs, started)
            == SumOf(pushes, started).Lines() + StoppingLines(jobs, pushes, started)
  {
    StartedLines(jobs, pushes, started);
    if started > 0 { NoRaiseNoLines(jobs, pushes, started - 1); }
  }

  lemma BatchedLines<T>(lines: seq<T>, batchSize: int, batches: seq<seq<T>>, scripts: seq<Script>, started: nat)
    requires batches == Chunks(lines, batchSize) && started <= |batches|
    ensures |lines| == Lengths(Jobs(batches, scripts), started) + |Flatten(batches[started..])|
  {
    LengthsFlatten(batches, scripts, started);
    ChunksRejoin(lines, batchSize);
    SplitAt(batches, started);
    FlattenAppend(batches[..started], batches[started..]);
  }

  lemma AllLines<T>(lines: seq<T>, batchSize: int, batches: seq<seq<T>>, scripts: seq<Script>)
    requires batches == Chunks(lines, batchSize)
    ensures |lines| == Lengths(Jobs(batches, scripts), |batches|)
  {
    LengthsFlatten(batches, scripts, |batches|);
    ChunksRejoin(lines, batchSize);
    SplitAt(batches, |batches|);
  }

  /** The lines of the batch that stopped the loop, if one did. */
  function StoppingLines(jobs: seq<Job>, pushes: seq<PushResult>, started: nat): nat
    requires started <= |jobs| == |pushes|
  {
    if started > 0 && pushes[started - 1].verdict.ending.Raised? then jobs[started - 1].lines else 0
  }

  /** Line conservation: every line given is ok, invalid, dropped, in the batch that raised,
      or in a batch never started. */
  lemma LinesAreConserved<T>(lines: seq<T>, batchSize: int, batches: seq<seq<T>>, scripts: seq<Script>, started: nat)
    requires batches == Chunks(lines, batchSize) && AllHonest(Jobs(batches, scripts))
    requires StopsAt(Pushes(Jobs(batches, scripts)), started)
    ensures var pushes := Pushes(Jobs(batches, scripts));
            |lines| == SumOf(pushes, started).Lines() + StoppingLines(Jobs(batches, scripts), pushes, started)
                       + |Flatten(batches[started..])|
  {
    BatchedLines(lines, batchSize, batches, scripts, started);
    HonestLines(Jobs(batches, scripts), started);
  }

  lemma HonestLines(jobs: seq<Job>, started: nat)
    requires AllHonest(jobs) && StopsAt(Pushes(jobs), started)
    ensures Lengths(jobs, started) == SumOf(Pushes(jobs), started).Lines() + StoppingLines(jobs, Pushes(jobs), started)
  {
    PushesConserve(jobs);
    StoppedLines(jobs, Pushes(jobs), started);
  }
}
