/** Batching of log entries, src/lib/logs/logs_processor.py, with the self-monitoring
    sums of src/lib/logs/log_self_monitoring.py. Payloads are UTF-8 byte sequences. */
module LogBatching {
  import opened Connectivity
  import opened Sequences

  type Byte = b: int | 0 <= b < 256
  type AckId = nat

  /** The self-monitoring counters that are summed. */
  datatype SelfMonitoring = SelfMonitoring(
    allRequests: int, tooOldRecords: int, publishTimeFallbackRecords: int, parsingErrors: int,
    recordsWithTooLongContent: int, dynatraceConnectivity: seq<DynatraceConnectivity>,
    processingTime: real, pullingTime: real, sendingTime: real,
    logIngestPayloadSize: real, logIngestRawSize: real, sentLogsEntries: int)
  {
    function Plus(other: SelfMonitoring): SelfMonitoring {
      SelfMonitoring(
        allRequests + other.allRequests, tooOldRecords + other.tooOldRecords,
        publishTimeFallbackRecords + other.publishTimeFallbackRecords, parsingErrors + other.parsingErrors,
        recordsWithTooLongContent + other.recordsWithTooLongContent,
        dynatraceConnectivity + other.dynatraceConnectivity,
        processingTime + other.processingTime, pullingTime + other.pullingTime, sendingTime + other.sendingTime,
        logIngestPayloadSize + other.logIngestPayloadSize, logIngestRawSize + other.logIngestRawSize,
        sentLogsEntries + other.sentLogsEntries)
    }
  }

  const NO_MONITORING: SelfMonitoring := SelfMonitoring(0, 0, 0, 0, 0, [], 0.0, 0.0, 0.0, 0.0, 0.0, 0)

  /** The sum of a list of self-monitoring values, in order. */
  function Total(list: seq<SelfMonitoring>): SelfMonitoring {
    if list == [] then NO_MONITORING else list[0].Plus(Total(list[1..]))
  }

  lemma PlusIsAssociative(a: SelfMonitoring, b: SelfMonitoring, c: SelfMonitoring)
    ensures a.Plus(b).Plus(c) == a.Plus(b.Plus(c))
    ensures NO_MONITORING.Plus(a) == a == a.Plus(NO_MONITORING)
  {
    assert (a.dynatraceConnectivity + b.dynatraceConnectivity) + c.dynatraceConnectivity
        == a.dynatraceConnectivity + (b.dynatraceConnectivity + c.dynatraceConnectivity);
    assert [] + a.dynatraceConnectivity == a.dynatraceConnectivity == a.dynatraceConnectivity + [];
  }

  lemma {:induction false} TotalOfConcatenation(a: seq<SelfMonitoring>, b: seq<SelfMonitoring>)
    ensures Total(a + b) == Total(a).Plus(Total(b))
  {
    if a == [] {
      assert a + b == b;
      PlusIsAssociative(Total(b), Total(b), Total(b));
    } else {
      assert (a + b)[0] == a[0] && (a + b)[1..] == a[1..] + b;
      TotalOfConcatenation(a[1..], b);
      PlusIsAssociative(a[0], Total(a[1..]), Total(b));
    }
  }

  /** One more value of self-monitoring adds each of its counts and times, and its
      connectivity states come last. */
  lemma TotalOfOneMore(list: seq<SelfMonitoring>, more: SelfMonitoring)
    ensures var before, after := Total(list), Total(list + [more]);
            && after.allRequests == before.allRequests + more.allRequests
            && after.tooOldRecords == before.tooOldRecords + more.tooOldRecords
            && after.publishTimeFallbackRecords == before.publishTimeFallbackRecords + more.publishTimeFallbackRecords
            && after.parsingErrors == before.parsingErrors + more.parsingErrors
            && after.recordsWithTooLongContent == before.recordsWithTooLongContent + more.recordsWithTooLongContent
            && after.dynatraceConnectivity == before.dynatraceConnectivity + more.dynatraceConnectivity
            && after.processingTime == before.processingTime + more.processingTime
            && after.pullingTime == before.pullingTime + more.pullingTime
            && after.sendingTime == before.sendingTime + more.sendingTime
            && after.logIngestPayloadSize == before.logIngestPayloadSize + more.logIngestPayloadSize
            && after.logIngestRawSize == before.logIngestRawSize + more.logIngestRawSize
            && after.sentLogsEntries == before.sentLogsEntries + more.sentLogsEntries
  {
    TotalOfConcatenation(list, [more]);
    PlusIsAssociative(more, more, more);
    assert Total([more]) == more.Plus(Total([]));
  }

  /** `aggregate_self_monitoring_metrics`: adds a list into an accumulator. */
  method AggregateSelfMonitoring(accumulator: SelfMonitoring, list: seq<SelfMonitoring>)
    returns (aggregated: SelfMonitoring)
    ensures aggregated == accumulator.Plus(Total(list))
  {
    aggregated := accumulator;
    PlusIsAssociative(accumulator, accumulator, accumulator);
    for i := 0 to |list|
      invariant aggregated == accumulator.Plus(Total(list[..i]))
    {
      aggregated := aggregated.Plus(list[i]);
      assert list[..i + 1] == list[..i] + [list[i]];
      TotalOfConcatenation(list[..i], [list[i]]);
      PlusIsAssociative(list[i], list[i], list[i]);
      assert Total([list[i]]) == list[i].Plus(Total([]));
      PlusIsAssociative(accumulator, Total(list[..i]), list[i]);
    }
    assert list[..|list|] == list;
  }

  /** `LogProcessingJob`; its `bytes_size` is the length of the payload. */
  datatype LogProcessingJob = LogProcessingJob(payload: seq<Byte>, ackId: AckId, selfMonitoring: SelfMonitoring)

  datatype LogBatch = LogBatch(serializedBatch: seq<Byte>, numberOfLogs: nat, ackIds: seq<AckId>,
                               sizeBatchBytes: int, selfMonitoring: SelfMonitoring)

  const OPEN_BRACKET: Byte := 91
  const CLOSE_BRACKET: Byte := 93
  const COMMA: Byte := 44

  function Payloads(jobs: seq<LogProcessingJob>): (payloads: seq<seq<Byte>>)
    ensures |payloads| == |jobs|
  {
    if jobs == [] then [] else [jobs[0].payload] + Payloads(jobs[1..])
  }

  function AckIds(jobs: seq<LogProcessingJob>): (ackIds: seq<AckId>)
    ensures |ackIds| == |jobs|
    ensures forall i :: 0 <= i < |jobs| ==> ackIds[i] == jobs[i].ackId
  {
    if jobs == [] then [] else [jobs[0].ackId] + AckIds(jobs[1..])
  }

  function Monitorings(jobs: seq<LogProcessingJob>): (list: seq<SelfMonitoring>)
    ensures |list| == |jobs|
  {
    if jobs == [] then [] else [jobs[0].selfMonitoring] + Monitorings(jobs[1..])
  }

  function TotalBytes(jobs: seq<LogProcessingJob>): nat {
    if jobs == [] then 0 else |jobs[0].payload| + TotalBytes(jobs[1..])
  }

  /** `",".join(payloads)`. */
  function JoinWithCommas(payloads: seq<seq<Byte>>): seq<Byte> {
    if payloads == [] then []
    else if |payloads| == 1 then payloads[0]
    else payloads[0] + [COMMA] + JoinWithCommas(payloads[1..])
  }

  /** The JSON array of the entries. */
  function Serialize(jobs: seq<LogProcessingJob>): seq<Byte> {
    [OPEN_BRACKET] + JoinWithCommas(Payloads(jobs)) + [CLOSE_BRACKET]
  }

  /** The bytes two brackets, the payloads and the commas between them take. */
  function RecordedSize(jobs: seq<LogProcessingJob>): int {
    TotalBytes(jobs) + 2 + |jobs| - 1
  }

  lemma {:induction false} JoinedLength(jobs: seq<LogProcessingJob>)
    requires jobs != []
    ensures |JoinWithCommas(Payloads(jobs))| == TotalBytes(jobs) + |jobs| - 1
  {
    if |jobs| > 1 {
      JoinedLength(jobs[1..]);
      assert Payloads(jobs)[1..] == Payloads(jobs[1..]);
    } else {
      assert jobs[1..] == [];
    }
  }

  /** The recorded size is the serialized length, except for the batch without entries,
      which serializes to two bytes and is recorded as one. */
  lemma RecordedSizeIsSerializedLengthIff(jobs: seq<LogProcessingJob>)
    ensures RecordedSize(jobs) == |Serialize(jobs)| <==> jobs != []
  {
    if jobs != [] { JoinedLength(jobs); }
  }

  /** Where an entry stands in the array: after the bracket and, for each entry before it,
      that entry and a comma. */
  function Offset(jobs: seq<LogProcessingJob>, i: nat): nat
    requires i <= |jobs|
  {
    if i == 0 then 1 else Offset(jobs, i - 1) + |jobs[i - 1].payload| + 1
  }

  /** The bytes are the JSON array of the entries: `[`, then each payload where it belongs
      with `,` before all but the first, and `]` right after the last. */
  predicate IsArrayOf(bytes: seq<Byte>, jobs: seq<LogProcessingJob>) {
    && |bytes| == Offset(jobs, |jobs|) + (if jobs == [] then 1 else 0)
    && bytes[0] == 91 && bytes[|bytes| - 1] == 93
    && forall i :: 0 <= i < |jobs| ==> StandsAt(bytes, jobs, i)
  }

  predicate StandsAt(bytes: seq<Byte>, jobs: seq<LogProcessingJob>, i: nat)
    requires i < |jobs|
  {
    var offset := Offset(jobs, i);
    && 1 <= offset && offset + |jobs[i].payload| < |bytes|
    && bytes[offset..offset + |jobs[i].payload|] == jobs[i].payload
    && bytes[offset - 1] == if i == 0 then 91 else 44
  }

  lemma {:induction false} OffsetOfPrefix(jobs: seq<LogProcessingJob>, n: nat, i: nat)
    requires i <= n <= |jobs|
    ensures Offset(jobs[..n], i) == Offset(jobs, i)
  {
    if i > 0 { OffsetOfPrefix(jobs, n, i - 1); }
  }

  lemma {:induction false} JoinSnoc(payloads: seq<seq<Byte>>, last: seq<Byte>)
    ensures JoinWithCommas(payloads + [last])
            == if payloads == [] then last else JoinWithCommas(payloads) + ([COMMA] + last)
  {
    if |payloads| == 0 {
      assert payloads + [last] == [last];
    } else {
      assert (payloads + [last])[1..] == payloads[1..] + [last];
      JoinSnoc(payloads[1..], last);
      if |payloads| > 1 {
        ConcatIsAssociative(payloads[0] + [COMMA], JoinWithCommas(payloads[1..]), [COMMA] + last);
      } else {
        assert payloads[1..] == [];
        ConcatIsAssociative(payloads[0], [COMMA], last);
      }
    }
  }

  /** What separates an entry from the array before it. */
  function Separator(jobs: seq<LogProcessingJob>): seq<Byte> {
    if jobs == [] then [] else [44]
  }

  /** One more entry goes between the array so far and its closing bracket. */
  lemma SerializeSnoc(jobs: seq<LogProcessingJob>, job: LogProcessingJob)
    ensures var open := Serialize(jobs)[..|Serialize(jobs)| - 1];
            Serialize(jobs + [job]) == (open + Separator(jobs)) + job.payload + [93]
  {
    PayloadsAppend(jobs, [job]);
    assert Payloads([job]) == [job.payload] by { assert [job][1..] == []; }
    JoinSnoc(Payloads(jobs), job.payload);
    assert Serialize(jobs)[..|Serialize(jobs)| - 1] == [OPEN_BRACKET] + JoinWithCommas(Payloads(jobs));
  }

  lemma OffsetsKept(jobs: seq<LogProcessingJob>, job: LogProcessingJob, i: nat)
    requires i <= |jobs|
    ensures Offset(jobs + [job], i) == Offset(jobs, i)
  {
    OffsetOfPrefix(jobs + [job], |jobs|, i);
    DropLast(jobs, job);
  }

  lemma EntryStays(before: seq<Byte>, jobs: seq<LogProcessingJob>, job: LogProcessingJob, bytes: seq<Byte>, i: nat)
    requires i < |jobs| && StandsAt(before, jobs, i)
    requires |before| <= |bytes| && bytes[..|before| - 1] == before[..|before| - 1]
    ensures StandsAt(bytes, jobs + [job], i)
  {
    OffsetsKept(jobs, job, i);
    var from, to := Offset(jobs, i), Offset(jobs, i) + |jobs[i].payload|;
    SameSlice(before, bytes, from, to);
    assert bytes[..|before| - 1][from - 1] == before[..|before| - 1][from - 1];
  }

  lemma SameSlice(a: seq<Byte>, b: seq<Byte>, from: nat, to: nat)
    requires from <= to < |a| <= |b| && a[..|a| - 1] == b[..|a| - 1]
    ensures a[from..to] == b[from..to]
  {
    assert a[..|a| - 1][from..to] == a[from..to] && b[..|a| - 1][from..to] == b[from..to];
  }

  lemma MiddleOfThree(a: seq<Byte>, b: seq<Byte>, c: seq<Byte>)
    ensures (a + b + c)[|a|..|a| + |b|] == b && (a + b + c)[..|a|] == a
  {
  }

  lemma LastStands(before: seq<Byte>, jobs: seq<LogProcessingJob>, job: LogProcessingJob, bytes: seq<Byte>)
    requires IsArrayOf(before, jobs)
    requires bytes == (before[..|before| - 1] + Separator(jobs)) + job.payload + [93]
    ensures StandsAt(bytes, jobs + [job], |jobs|) && |bytes| == Offset(jobs + [job], |jobs| + 1)
  {
    var open := before[..|before| - 1] + Separator(jobs);
    OffsetsKept(jobs, job, |jobs|);
    MiddleOfThree(open, job.payload, [93]);
    assert |open| == Offset(jobs, |jobs|);
    assert bytes[..|open|][|open| - 1] == open[|open| - 1];
  }

  lemma OneMoreStands(before: seq<Byte>, jobs: seq<LogProcessingJob>, job: LogProcessingJob, bytes: seq<Byte>)
    requires IsArrayOf(before, jobs)
    requires bytes == (before[..|before| - 1] + Separator(jobs)) + job.payload + [93]
    ensures IsArrayOf(bytes, jobs + [job])
  {
    LastStands(before, jobs, job, bytes);
    KeepsStart(before, Separator(jobs), job.payload);
    forall i | 0 <= i < |jobs + [job]| ensures StandsAt(bytes, jobs + [job], i) {
      if i < |jobs| { EntryStays(before, jobs, job, bytes, i); }
    }
    assert bytes[..|before| - 1][0] == before[0];
  }

  lemma KeepsStart(before: seq<Byte>, separator: seq<Byte>, payload: seq<Byte>)
    requires before != []
    ensures var bytes := (before[..|before| - 1] + separator) + payload + [93];
            |before| <= |bytes| && bytes[..|before| - 1] == before[..|before| - 1]
  {
  }

  /** What is serialized is the JSON array of the entries. */
  lemma {:induction false} SerializedIsArray(jobs: seq<LogProcessingJob>)
    ensures IsArrayOf(Serialize(jobs), jobs)
  {
    if jobs != [] {
      var last := |jobs| - 1;
      SerializedIsArray(jobs[..last]);
      SerializeSnoc(jobs[..last], jobs[last]);
      assert jobs[..last] + [jobs[last]] == jobs;
      OneMoreStands(Serialize(jobs[..last]), jobs[..last], jobs[last], Serialize(jobs));
    }
  }

  /** The batch made of a group of entries. */
  function Seal(jobs: seq<LogProcessingJob>): LogBatch {
    LogBatch(Serialize(jobs), |jobs|, AckIds(jobs), RecordedSize(jobs), Total(Monitorings(jobs)))
  }

  /** The batch carries the JSON array of the entries, their number and their ack ids. */
  predicate IsBatchOf(batch: LogBatch, jobs: seq<LogProcessingJob>) {
    && IsArrayOf(batch.serializedBatch, jobs)
    && batch.numberOfLogs == |batch.ackIds| == |jobs|
    && forall i :: 0 <= i < |jobs| ==> batch.ackIds[i] == jobs[i].ackId
  }

  lemma SealedAreBatches(groups: seq<seq<LogProcessingJob>>)
    ensures forall g :: 0 <= g < |groups| ==> IsBatchOf(SealAll(groups)[g], groups[g])
  {
    forall g | 0 <= g < |groups| ensures IsBatchOf(SealAll(groups)[g], groups[g]) {
      SerializedIsArray(groups[g]);
    }
  }

  function SealAll(groups: seq<seq<LogProcessingJob>>): (batches: seq<LogBatch>)
    ensures |batches| == |groups|
    ensures forall i :: 0 <= i < |groups| ==> batches[i] == Seal(groups[i])
  {
    if groups == [] then [] else [Seal(groups[0])] + SealAll(groups[1..])
  }

  // ---- The groups that the loop forms ----

  datatype Limits = Limits(maxBytes: int, maxEvents: int)

  /** The loop's test: with this entry added, the open group would exceed a limit. */
  predicate Overflows(open: seq<LogProcessingJob>, job: LogProcessingJob, limits: Limits) {
    RecordedSize(open) + 1 + |job.payload| > limits.maxBytes || |open| >= limits.maxEvents
  }

  /** The groups formed from here on, the first of them already holding `open`. */
  function GroupsFrom(open: seq<LogProcessingJob>, jobs: seq<LogProcessingJob>,
                      limits: Limits): seq<seq<LogProcessingJob>>
    decreases jobs
  {
    if jobs == [] then
      if open == [] then [] else [open]
    else if Overflows(open, jobs[0], limits) then
      [open] + GroupsFrom([jobs[0]], jobs[1..], limits)
    else
      GroupsFrom(open + [jobs[0]], jobs[1..], limits)
  }

  function Groups(jobs: seq<LogProcessingJob>, limits: Limits): seq<seq<LogProcessingJob>> {
    GroupsFrom([], jobs, limits)
  }

  lemma {:induction false} TotalBytesAppend(a: seq<LogProcessingJob>, b: seq<LogProcessingJob>)
    ensures TotalBytes(a + b) == TotalBytes(a) + TotalBytes(b)
  {
    if a == [] {
      assert a + b == b;
    } else {
      assert (a + b)[0] == a[0] && (a + b)[1..] == a[1..] + b;
      TotalBytesAppend(a[1..], b);
    }
  }

  lemma {:induction false} PayloadsAppend(a: seq<LogProcessingJob>, b: seq<LogProcessingJob>)
    ensures Payloads(a + b) == Payloads(a) + Payloads(b)
  {
    if a == [] {
      assert a + b == b;
    } else {
      assert (a + b)[0] == a[0] && (a + b)[1..] == a[1..] + b;
      PayloadsAppend(a[1..], b);
      ConcatIsAssociative([a[0].payload], Payloads(a[1..]), Payloads(b));
    }
  }

  lemma {:induction false} AckIdsAppend(a: seq<LogProcessingJob>, b: seq<LogProcessingJob>)
    ensures AckIds(a + b) == AckIds(a) + AckIds(b)
  {
    if a == [] {
      assert a + b == b;
    } else {
      assert (a + b)[0] == a[0] && (a + b)[1..] == a[1..] + b;
      AckIdsAppend(a[1..], b);
      ConcatIsAssociative([a[0].ackId], AckIds(a[1..]), AckIds(b));
    }
  }

  lemma {:induction false} MonitoringsAppend(a: seq<LogProcessingJob>, b: seq<LogProcessingJob>)
    ensures Monitorings(a + b) == Monitorings(a) + Monitorings(b)
  {
    if a == [] {
      assert a + b == b;
    } else {
      assert (a + b)[0] == a[0] && (a + b)[1..] == a[1..] + b;
      MonitoringsAppend(a[1..], b);
      ConcatIsAssociative([a[0].selfMonitoring], Monitorings(a[1..]), Monitorings(b));
    }
  }

  lemma FieldsAppend(a: seq<LogProcessingJob>, b: seq<LogProcessingJob>)
    ensures Payloads(a + b) == Payloads(a) + Payloads(b)
    ensures AckIds(a + b) == AckIds(a) + AckIds(b)
    ensures Monitorings(a + b) == Monitorings(a) + Monitorings(b)
  {
    PayloadsAppend(a, b);
    AckIdsAppend(a, b);
    MonitoringsAppend(a, b);
  }

  lemma AppendOne(open: seq<LogProcessingJob>, job: LogProcessingJob)
    ensures TotalBytes(open + [job]) == TotalBytes(open) + |job.payload|
    ensures Payloads(open + [job]) == Payloads(open) + [job.payload]
    ensures AckIds(open + [job]) == AckIds(open) + [job.ackId]
    ensures Monitorings(open + [job]) == Monitorings(open) + [job.selfMonitoring]
  {
    TotalBytesAppend(open, [job]);
    FieldsAppend(open, [job]);
    assert [job][1..] == [];
  }

  /** One closed batch, from the running lists of the loop. */
  method CloseBatch(payloads: seq<seq<Byte>>, entries: nat, ackIds: seq<AckId>, size: int,
                    monitorings: seq<SelfMonitoring>) returns (batch: LogBatch)
    ensures batch == LogBatch([OPEN_BRACKET] + JoinWithCommas(payloads) + [CLOSE_BRACKET], entries, ackIds, size,
                              Total(monitorings))
  {
    var batchMonitoring := AggregateSelfMonitoring(NO_MONITORING, monitorings);
    PlusIsAssociative(Total(monitorings), NO_MONITORING, NO_MONITORING);
    batch := LogBatch([OPEN_BRACKET] + JoinWithCommas(payloads) + [CLOSE_BRACKET], entries, ackIds, size,
                      batchMonitoring);
  }

  /** `prepare_batches`. */
  method PrepareBatches(logs: seq<LogProcessingJob>, limits: Limits) returns (batches: seq<LogBatch>)
    ensures batches == SealAll(Groups(logs, limits))
    ensures forall g :: 0 <= g < |batches| ==> IsBatchOf(batches[g], Groups(logs, limits)[g])
  {
    SealedAreBatches(Groups(logs, limits));
    batches := [];
    var logsForNextBatch: seq<seq<Byte>> := [];
    var ackIdsForNextBatch: seq<AckId> := [];
    var totalLen := 0;
    var eventsCount := 0;
    var logEntries := 0;
    var monitoringList: seq<SelfMonitoring> := [];
    ghost var open: seq<LogProcessingJob> := [];
    TakeAll(logs);
    ConcatEmpty(SealAll(Groups(logs, limits)));
    for i := 0 to |logs|
      invariant SealAll(Groups(logs, limits)) == batches + SealAll(GroupsFrom(open, logs[i..], limits))
      invariant logsForNextBatch == Payloads(open) && ackIdsForNextBatch == AckIds(open)
      invariant totalLen == TotalBytes(open) && eventsCount == logEntries == |open|
      invariant monitoringList == Monitorings(open)
    {
      GroupsStep(open, logs, i, limits);
      var newBatchLen := totalLen + 2 + |logsForNextBatch| - 1;
      var nextEntrySize := |logs[i].payload|;
      var lengthIfAdded := newBatchLen + 1 + nextEntrySize;
      if lengthIfAdded > limits.maxBytes || eventsCount >= limits.maxEvents {
        var batch := CloseBatch(logsForNextBatch, logEntries, ackIdsForNextBatch, newBatchLen, monitoringList);
        assert batch == Seal(open);
        ConcatIsAssociative(batches, [batch], SealAll(GroupsFrom([] + [logs[i]], logs[i + 1..], limits)));
        batches := batches + [batch];
        logEntries := 0;
        monitoringList := [];
        logsForNextBatch := [];
        ackIdsForNextBatch := [];
        totalLen := 0;
        eventsCount := 0;
        open := [];
      }
      AppendOne(open, logs[i]);
      logsForNextBatch := logsForNextBatch + [logs[i].payload];
      ackIdsForNextBatch := ackIdsForNextBatch + [logs[i].ackId];
      logEntries := logEntries + 1;
      totalLen := totalLen + nextEntrySize;
      eventsCount := eventsCount + 1;
      monitoringList := monitoringList + [logs[i].selfMonitoring];
      open := open + [logs[i]];
    }
    SealLast(open, limits);
    if |logsForNextBatch| >= 1 {
      var totalBatchLen := totalLen + 2 + |logsForNextBatch| - 1;
      var batch := CloseBatch(logsForNextBatch, logEntries, ackIdsForNextBatch, totalBatchLen, monitoringList);
      assert batch == Seal(open);
      batches := batches + [batch];
    } else {
      ConcatEmpty(batches);
    }
  }

  lemma SealLast(open: seq<LogProcessingJob>, limits: Limits)
    ensures SealAll(GroupsFrom(open, [], limits)) == if open == [] then [] else [Seal(open)]
  {
    SealFirst(open, []);
    assert [open] + [] == [open];
  }

  /** What one turn of the loop does to the groups still to come. */
  lemma GroupsStep(open: seq<LogProcessingJob>, logs: seq<LogProcessingJob>, i: nat, limits: Limits)
    requires i < |logs|
    ensures SealAll(GroupsFrom(open, logs[i..], limits))
            == if Overflows(open, logs[i], limits)
               then [Seal(open)] + SealAll(GroupsFrom([] + [logs[i]], logs[i + 1..], limits))
               else SealAll(GroupsFrom(open + [logs[i]], logs[i + 1..], limits))
  {
    assert logs[i..][0] == logs[i] && logs[i..][1..] == logs[i + 1..];
    assert [] + [logs[i]] == [logs[i]];
    SealFirst(open, GroupsFrom([logs[i]], logs[i + 1..], limits));
  }

  lemma SealFirst(first: seq<LogProcessingJob>, rest: seq<seq<LogProcessingJob>>)
    ensures SealAll([first] + rest) == [Seal(first)] + SealAll(rest)
  {
    assert ([first] + rest)[1..] == rest;
  }

  // ---- What the groups are ----

  /** Nothing is lost, doubled or reordered. */
  lemma {:induction false} GroupsPartition(open: seq<LogProcessingJob>, jobs: seq<LogProcessingJob>, limits: Limits)
    ensures Flatten(GroupsFrom(open, jobs, limits)) == open + jobs
    decreases jobs
  {
    if jobs == [] {
      assert open + jobs == open;
      if open != [] {
        assert Flatten([open]) == open + Flatten<LogProcessingJob>([]);
      }
    } else if Overflows(open, jobs[0], limits) {
      GroupsPartition([jobs[0]], jobs[1..], limits);
      var rest := GroupsFrom([jobs[0]], jobs[1..], limits);
      assert ([open] + rest)[1..] == rest;
      assert [jobs[0]] + jobs[1..] == jobs;
    } else {
      GroupsPartition(open + [jobs[0]], jobs[1..], limits);
      assert open + [jobs[0]] + jobs[1..] == open + jobs;
    }
  }

  function AllAckIds(batches: seq<LogBatch>): seq<AckId> {
    if batches == [] then [] else batches[0].ackIds + AllAckIds(batches[1..])
  }

  function AllMonitorings(batches: seq<LogBatch>): seq<SelfMonitoring> {
    if batches == [] then [] else [batches[0].selfMonitoring] + AllMonitorings(batches[1..])
  }

  lemma SealedFirst(groups: seq<seq<LogProcessingJob>>)
    requires groups != []
    ensures SealAll(groups)[0] == Seal(groups[0]) && SealAll(groups)[1..] == SealAll(groups[1..])
  {
  }

  lemma TotalFirst(batches: seq<LogBatch>)
    requires batches != []
    ensures Total(AllMonitorings(batches)) == batches[0].selfMonitoring.Plus(Total(AllMonitorings(batches[1..])))
  {
    assert AllMonitorings(batches)[1..] == AllMonitorings(batches[1..]);
  }

  lemma {:induction false} SealedAckIds(groups: seq<seq<LogProcessingJob>>)
    ensures AllAckIds(SealAll(groups)) == AckIds(Flatten(groups))
  {
    if groups != [] {
      SealedAckIds(groups[1..]);
      AckIdsAppend(groups[0], Flatten(groups[1..]));
      SealedFirst(groups);
    }
  }

  lemma {:induction false} SealedTotals(groups: seq<seq<LogProcessingJob>>)
    ensures Total(AllMonitorings(SealAll(groups))) == Total(Monitorings(Flatten(groups)))
  {
    if groups != [] {
      SealedTotals(groups[1..]);
      SealedFirst(groups);
      TotalFirst(SealAll(groups));
      MonitoringsAppend(groups[0], Flatten(groups[1..]));
      TotalOfConcatenation(Monitorings(groups[0]), Monitorings(Flatten(groups[1..])));
    }
  }

  /** The batches hold all ack ids in order, and their self-monitoring adds up to that of
      all entries. */
  lemma BatchesConserve(jobs: seq<LogProcessingJob>, limits: Limits)
    ensures Flatten(Groups(jobs, limits)) == jobs
    ensures AllAckIds(SealAll(Groups(jobs, limits))) == AckIds(jobs)
    ensures Total(AllMonitorings(SealAll(Groups(jobs, limits)))) == Total(Monitorings(jobs))
  {
    GroupsPartition([], jobs, limits);
    assert [] + jobs == jobs;
    SealedAckIds(Groups(jobs, limits));
    SealedTotals(Groups(jobs, limits));
  }

  predicate WithinLimits(group: seq<LogProcessingJob>, limits: Limits) {
    |Serialize(group)| <= limits.maxBytes && |group| <= limits.maxEvents
  }

  /** The entry can be sent at all: alone it is within both limits. */
  predicate Sendable(job: LogProcessingJob, limits: Limits) {
    |job.payload| <= limits.maxBytes - 2 && limits.maxEvents >= 1
  }

  predicate AllSendable(jobs: seq<LogProcessingJob>, limits: Limits) {
    forall i :: 0 <= i < |jobs| ==> Sendable(jobs[i], limits)
  }

  lemma OverflowsIff(open: seq<LogProcessingJob>, job: LogProcessingJob, limits: Limits)
    ensures Overflows(open, job, limits) <==> !WithinLimits(open + [job], limits)
  {
    AppendOne(open, job);
    JoinedLength(open + [job]);
  }

  lemma {:induction false} GroupsWithinLimits(open: seq<LogProcessingJob>, jobs: seq<LogProcessingJob>, limits: Limits)
    requires AllSendable(jobs, limits)
    requires open == [] || WithinLimits(open, limits)
    ensures forall i :: 0 <= i < |GroupsFrom(open, jobs, limits)| ==>
              GroupsFrom(open, jobs, limits)[i] != [] && WithinLimits(GroupsFrom(open, jobs, limits)[i], limits)
    decreases jobs
  {
    if jobs != [] {
      OverflowsIff(open, jobs[0], limits);
      OverflowsIff([], jobs[0], limits);
      assert [] + [jobs[0]] == [jobs[0]];
      if Overflows(open, jobs[0], limits) {
        GroupsWithinLimits([jobs[0]], jobs[1..], limits);
      } else {
        GroupsWithinLimits(open + [jobs[0]], jobs[1..], limits);
      }
    }
  }

  lemma {:induction false} MemberOfFlatten(groups: seq<seq<LogProcessingJob>>, k: nat) returns (g: nat, m: nat)
    requires k < |Flatten(groups)|
    ensures g < |groups| && m < |groups[g]| && groups[g][m] == Flatten(groups)[k]
  {
    if k < |groups[0]| {
      g, m := 0, k;
    } else {
      g, m := MemberOfFlatten(groups[1..], k - |groups[0]|);
      g := g + 1;
    }
  }

  lemma {:induction false} EntryIsInTheSum(group: seq<LogProcessingJob>, m: nat)
    requires m < |group|
    ensures |group[m].payload| <= TotalBytes(group)
  {
    if m > 0 { EntryIsInTheSum(group[1..], m - 1); }
  }

  /** Every batch is within both limits exactly when every entry is sendable alone. */
  lemma AllWithinLimitsIff(jobs: seq<LogProcessingJob>, limits: Limits)
    ensures (forall i :: 0 <= i < |Groups(jobs, limits)| ==>
               Groups(jobs, limits)[i] != [] && WithinLimits(Groups(jobs, limits)[i], limits))
            <==> AllSendable(jobs, limits)
  {
    var groups := Groups(jobs, limits);
    if AllSendable(jobs, limits) {
      GroupsWithinLimits([], jobs, limits);
    } else {
      var k :| 0 <= k < |jobs| && !Sendable(jobs[k], limits);
      BatchesConserve(jobs, limits);
      var g, m := MemberOfFlatten(groups, k);
      EntryIsInTheSum(groups[g], m);
      JoinedLength(groups[g]);
      assert !WithinLimits(groups[g], limits);
    }
  }

  lemma {:induction false} LaterGroupsNotEmpty(open: seq<LogProcessingJob>, jobs: seq<LogProcessingJob>, limits: Limits)
    requires open != []
    ensures forall i :: 0 <= i < |GroupsFrom(open, jobs, limits)| ==> GroupsFrom(open, jobs, limits)[i] != []
    decreases jobs
  {
    if jobs != [] {
      if Overflows(open, jobs[0], limits) {
        LaterGroupsNotEmpty([jobs[0]], jobs[1..], limits);
      } else {
        LaterGroupsNotEmpty(open + [jobs[0]], jobs[1..], limits);
      }
    }
  }

  /** A batch without entries is made exactly when the very first entry cannot be sent
      alone; it is then the first batch. */
  lemma EmptyBatchIff(jobs: seq<LogProcessingJob>, limits: Limits)
    ensures (exists i :: 0 <= i < |Groups(jobs, limits)| && Groups(jobs, limits)[i] == [])
            <==> jobs != [] && !Sendable(jobs[0], limits)
  {
    if jobs != [] {
      OverflowsIff([], jobs[0], limits);
      assert [] + [jobs[0]] == [jobs[0]];
      JoinedLength([jobs[0]]);
      assert [jobs[0]][1..] == [];
      LaterGroupsNotEmpty([jobs[0]], jobs[1..], limits);
      if !Sendable(jobs[0], limits) {
        assert Groups(jobs, limits)[0] == [];
      } else {
        assert Groups(jobs, limits) == GroupsFrom([jobs[0]], jobs[1..], limits);
      }
    }
  }

  // ---- No split uses fewer batches ----

  /** An order-preserving split into non-empty contiguous groups within both limits. */
  ghost predicate ValidSplit(split: seq<seq<LogProcessingJob>>, jobs: seq<LogProcessingJob>, limits: Limits) {
    && Flatten(split) == jobs
    && forall i :: 0 <= i < |split| ==> split[i] != [] && WithinLimits(split[i], limits)
  }

  lemma SliceWithinLimits(group: seq<LogProcessingJob>, from: nat, to: nat, limits: Limits)
    requires from < to <= |group| && WithinLimits(group, limits)
    ensures WithinLimits(group[from..to], limits)
  {
    var a, b, c := group[..from], group[from..to], group[to..];
    assert group == a + b + c;
    TotalBytesAppend(a, b);
    TotalBytesAppend(a + b, c);
    JoinedLength(group);
    JoinedLength(b);
  }

  /** The first group of a split lies within what is left of the open group. */
  lemma DropFirstGroup(split: seq<seq<LogProcessingJob>>, left: seq<LogProcessingJob>, jobs: seq<LogProcessingJob>,
                       limits: Limits)
    requires ValidSplit(split, left + jobs, limits)
    requires split != [] && |split[0]| <= |left|
    ensures ValidSplit(split[1..], left[|split[0]|..] + jobs, limits)
  {
    assert Flatten(split) == split[0] + Flatten(split[1..]);
    assert Flatten(split[1..]) == (left + jobs)[|split[0]|..] == left[|split[0]|..] + jobs;
  }

  /** The first group of a split reaches beyond what is left of the open group: the part
      beyond starts a split of the rest. */
  lemma CutFirstGroup(split: seq<seq<LogProcessingJob>>, left: seq<LogProcessingJob>, jobs: seq<LogProcessingJob>,
                      limits: Limits)
    requires ValidSplit(split, left + jobs, limits)
    requires split != [] && |split[0]| > |left|
    ensures jobs != [] && WithinLimits(left + [jobs[0]], limits)
    ensures ValidSplit([split[0][|left|..]] + split[1..], jobs, limits)
  {
    var first := split[0];
    CutAfter(left, jobs, first, Flatten(split[1..]));
    FlattenFirst(first[|left|..], split[1..]);
    assert WithinLimits(first, limits);
    SliceWithinLimits(first, |left|, |first|, limits);
    SliceWithinLimits(first, 0, |left| + 1, limits);
  }

  lemma FlattenFirst(first: seq<LogProcessingJob>, rest: seq<seq<LogProcessingJob>>)
    ensures Flatten([first] + rest) == first + Flatten(rest)
  {
    assert ([first] + rest)[1..] == rest;
  }

  lemma CutAfter(left: seq<LogProcessingJob>, jobs: seq<LogProcessingJob>, first: seq<LogProcessingJob>,
                 rest: seq<LogProcessingJob>)
    requires first + rest == left + jobs && |first| > |left|
    ensures jobs != [] && first[|left|..] + rest == jobs
    ensures first[|left|..|first|] == first[|left|..] && first[0..|left| + 1] == left + [jobs[0]]
  {
    var whole := first + rest;
    assert whole[|left|..] == jobs && whole[|left|..] == first[|left|..] + rest;
    assert forall k :: 0 <= k < |left| ==> first[k] == whole[k] == left[k];
    assert first[|left|] == whole[|left|] == jobs[0];
  }

  lemma CutIsSplitOfNext(cut: seq<seq<LogProcessingJob>>, jobs: seq<LogProcessingJob>, limits: Limits)
    requires jobs != [] && ValidSplit(cut, jobs, limits)
    ensures ValidSplit(cut, [jobs[0]][0..] + jobs[1..], limits)
  {
    assert [jobs[0]][0..] + jobs[1..] == jobs;
  }

  lemma SplitAfterNext(split: seq<seq<LogProcessingJob>>, open: seq<LogProcessingJob>, jobs: seq<LogProcessingJob>,
                       skip: nat, limits: Limits)
    requires jobs != [] && skip <= |open| && ValidSplit(split, open[skip..] + jobs, limits)
    ensures ValidSplit(split, (open + [jobs[0]])[skip..] + jobs[1..], limits)
  {
    SliceAcross(open, skip, jobs[0], jobs[1..]);
    assert [jobs[0]] + jobs[1..] == jobs;
  }

  /** The greedy loop stays ahead of any split: against a split of what is left from
      inside its open group on, it needs at most one group more, and none more when the
      split starts where the open group starts. */
  lemma {:induction false} GreedyStaysAhead(open: seq<LogProcessingJob>, jobs: seq<LogProcessingJob>, skip: nat,
                                            split: seq<seq<LogProcessingJob>>, limits: Limits)
    requires AllSendable(jobs, limits)
    requires skip <= |open|
    requires ValidSplit(split, open[skip..] + jobs, limits)
    ensures |GroupsFrom(open, jobs, limits)| <= |split| + (if skip == 0 then 0 else 1)
    decreases |jobs|, |split|
  {
    var left := open[skip..];
    if jobs == [] {
      if split == [] { assert left + jobs == []; }
    } else if |split[0]| <= |left| {
      DropFirstGroup(split, left, jobs, limits);
      assert left[|split[0]|..] == open[skip + |split[0]|..];
      GreedyStaysAhead(open, jobs, skip + |split[0]|, split[1..], limits);
    } else {
      CutFirstGroup(split, left, jobs, limits);
      OverflowsIff(open, jobs[0], limits);
      if Overflows(open, jobs[0], limits) {
        assert skip != 0;
        var cut := [split[0][|left|..]] + split[1..];
        CutIsSplitOfNext(cut, jobs, limits);
        GreedyStaysAhead([jobs[0]], jobs[1..], 0, cut, limits);
      } else {
        SplitAfterNext(split, open, jobs, skip, limits);
        GreedyStaysAhead(open + [jobs[0]], jobs[1..], skip, split, limits);
      }
    }
  }

  /** `prepare_batches` is optimal: no order-preserving split within both limits uses
      fewer batches, and its own split is one of them. */
  lemma BatchesAreFewest(jobs: seq<LogProcessingJob>, limits: Limits)
    requires AllSendable(jobs, limits)
    ensures ValidSplit(Groups(jobs, limits), jobs, limits)
    ensures forall split :: ValidSplit(split, jobs, limits) ==> |Groups(jobs, limits)| <= |split|
  {
    AllWithinLimitsIff(jobs, limits);
    BatchesConserve(jobs, limits);
    forall split | ValidSplit(split, jobs, limits)
      ensures |Groups(jobs, limits)| <= |split|
    {
      var nothing: seq<LogProcessingJob> := [];
      assert nothing[0..] + jobs == jobs;
      GreedyStaysAhead([], jobs, 0, split, limits);
    }
  }
}
