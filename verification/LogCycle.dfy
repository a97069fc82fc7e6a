/** One cycle of a log forwarding worker, on what it pulled: `perform_pull` and `push_logs`
    of src/lib/logs/log_integration_service.py and `send_logs` of
    src/lib/logs/dynatrace_client.py. */
module LogCycle {
  import opened Wrappers
  import opened Connectivity
  import opened Sequences
  import opened LogBatching

  const ACK_CHUNK_SIZE: int := 2048

  /** What `prepare_context_and_process_message` makes of a message: nothing, or an entry. */
  datatype Processing = Rejected | Entry(payload: seq<Byte>, selfMonitoring: SelfMonitoring)

  datatype ReceivedMessage = ReceivedMessage(ackId: AckId, processing: Processing)

  /** The answer to a pull request: none, one whose body cannot be read, or JSON. A body that
      is no object holds no messages to ask for; an object may hold none. */
  datatype PullReply = NoReply | NotJson(refusal: int) | Json(status: int, body: Option<seq<ReceivedMessage>>)

  /** The outcome of one of the concurrent pull requests of a cycle: an exception, something
      that cannot be asked for messages, or messages. */
  datatype PullResponse = PullFailed | PulledNothing | Pulled(receivedMessages: seq<ReceivedMessage>)

  /** What `pull_messages` makes of an answer: a status from 400 on raises, and one from 300
      on returns nothing. */
  function PulledBy(reply: PullReply): PullResponse {
    match reply
    case Json(status, body) =>
      if status >= 400 then PullFailed
      else if status > 299 || body.None? then PulledNothing
      else Pulled(body.value)
    case _ => PullFailed
  }

  function PulledByAll(replies: seq<PullReply>): (responses: seq<PullResponse>)
    ensures |responses| == |replies|
    ensures forall i :: 0 <= i < |replies| ==> responses[i] == PulledBy(replies[i])
  {
    seq(|replies|, i requires 0 <= i < |replies| => PulledBy(replies[i]))
  }

  /** The answer can be read, is no error, and holds no messages to ask for. */
  predicate HoldsNoMessages(reply: PullReply) {
    reply.Json? && (300 <= reply.status < 400 || (reply.status < 300 && reply.body.None?))
  }

  /** A cycle raises exactly when some answer of its pulls can be read, is no error, and is a
      redirection or no object. */
  lemma PullRaisesIff(replies: seq<PullReply>)
    ensures PulledNothing in PulledByAll(replies) <==> exists reply <- replies :: HoldsNoMessages(reply)
  {
    var responses := PulledByAll(replies);
    if PulledNothing in responses {
      var i :| 0 <= i < |responses| && responses[i] == PulledNothing;
      assert HoldsNoMessages(replies[i]);
    }
    if exists reply <- replies :: HoldsNoMessages(reply) {
      var i :| 0 <= i < |replies| && HoldsNoMessages(replies[i]);
      assert responses[i] == PulledNothing;
    }
  }

  function MessagesOf(response: PullResponse): seq<ReceivedMessage> {
    if response.Pulled? then response.receivedMessages else []
  }

  function Received(responses: seq<PullResponse>): seq<ReceivedMessage> {
    if responses == [] then [] else Received(responses[..|responses| - 1]) + MessagesOf(responses[|responses| - 1])
  }

  lemma ReceivedMore(responses: seq<PullResponse>, response: PullResponse)
    ensures Received(responses + [response]) == Received(responses) + MessagesOf(response)
  {
    DropLast(responses, response);
  }

  lemma {:induction false} ReceivedAppend(a: seq<PullResponse>, b: seq<PullResponse>)
    ensures Received(a + b) == Received(a) + Received(b)
  {
    if b == [] {
      ConcatEmpty(a);
      ConcatEmpty(Received(a));
    } else {
      var last := |b| - 1;
      ReceivedAppend(a, b[..last]);
      TakeOneMore(b, last);
      TakeAll(b);
      ConcatIsAssociative(a, b[..last], [b[last]]);
      ReceivedMore(a + b[..last], b[last]);
      ConcatIsAssociative(Received(a), Received(b[..last]), MessagesOf(b[last]));
    }
  }

  /** The messages of every pull that brought some are received, in order and nothing else. */
  lemma ReceivedInOrder(before: seq<PullResponse>, messages: seq<ReceivedMessage>, after: seq<PullResponse>)
    ensures Received((before + [Pulled(messages)]) + after) == (Received(before) + messages) + Received(after)
    ensures Received((before + [PullFailed]) + after) == Received(before) + Received(after)
  {
    ReceivedAppend(before + [Pulled(messages)], after);
    ReceivedAppend(before + [PullFailed], after);
    ReceivedMore(before, Pulled(messages));
    ReceivedMore(before, PullFailed);
    ConcatEmpty(Received(before));
  }

  /** Processing gave nothing, or an entry too large for any request. */
  predicate IsErroneous(processing: Processing, limits: Limits) {
    processing.Rejected? || |processing.payload| > limits.maxBytes - 2
  }

  function ErroneousIds(messages: seq<ReceivedMessage>, limits: Limits): seq<AckId> {
    if messages == [] then []
    else
      var last := messages[|messages| - 1];
      ErroneousIds(messages[..|messages| - 1], limits)
      + if IsErroneous(last.processing, limits) then [last.ackId] else []
  }

  function JobOf(message: ReceivedMessage): LogProcessingJob
    requires message.processing.Entry?
  {
    LogProcessingJob(message.processing.payload, message.ackId, message.processing.selfMonitoring)
  }

  function JobsOf(messages: seq<ReceivedMessage>, limits: Limits): seq<LogProcessingJob> {
    if messages == [] then []
    else
      var last := messages[|messages| - 1];
      JobsOf(messages[..|messages| - 1], limits)
      + if IsErroneous(last.processing, limits) then [] else [JobOf(last)]
  }

  function BatchesOf(messages: seq<ReceivedMessage>, limits: Limits): seq<LogBatch> {
    SealAll(Groups(JobsOf(messages, limits), limits))
  }

  lemma OneMore(messages: seq<ReceivedMessage>, message: ReceivedMessage, limits: Limits)
    ensures ErroneousIds(messages + [message], limits)
            == ErroneousIds(messages, limits) + if IsErroneous(message.processing, limits) then [message.ackId] else []
    ensures JobsOf(messages + [message], limits)
            == JobsOf(messages, limits)
               + if IsErroneous(message.processing, limits) then [] else [JobOf(message)]
  {
    assert (messages + [message])[..|messages + [message]| - 1] == messages;
  }

  /** The part of `perform_pull` after the pulls have been awaited. A failed pull is skipped;
      one that returned nothing makes the whole call raise. */
  method PerformPull(responses: seq<PullResponse>, limits: Limits)
    returns (raised: bool, batches: seq<LogBatch>, ackIdsOfErroneousMessages: seq<AckId>)
    ensures raised <==> PulledNothing in responses
    ensures !raised ==> batches == BatchesOf(Received(responses), limits)
    ensures !raised ==> ackIdsOfErroneousMessages == ErroneousIds(Received(responses), limits)
  {
    raised, batches, ackIdsOfErroneousMessages := false, [], [];
    var processedMessages: seq<LogProcessingJob> := [];
    ghost var seen: seq<ReceivedMessage> := [];
    for i := 0 to |responses|
      invariant seen == Received(responses[..i]) && PulledNothing !in responses[..i]
      invariant processedMessages == JobsOf(seen, limits) && ackIdsOfErroneousMessages == ErroneousIds(seen, limits)
    {
      assert responses[..i + 1][..i] == responses[..i];
      if responses[i].PulledNothing? {
        return true, [], [];
      }
      if responses[i].Pulled? {
        processedMessages, ackIdsOfErroneousMessages :=
          ProcessResponse(seen, responses[i].receivedMessages, limits, processedMessages, ackIdsOfErroneousMessages);
      } else {
        ConcatEmpty(seen);
      }
      seen := seen + MessagesOf(responses[i]);
    }
    assert responses[..|responses|] == responses;
    if processedMessages != [] {
      batches := PrepareBatches(processedMessages, limits);
    }
  }

  /** The inner loop: the messages of one response, after those already `seen`. */
  method ProcessResponse(ghost seen: seq<ReceivedMessage>, receivedMessages: seq<ReceivedMessage>, limits: Limits,
                         processed: seq<LogProcessingJob>, erroneous: seq<AckId>)
    returns (processedMessages: seq<LogProcessingJob>, ackIdsOfErroneousMessages: seq<AckId>)
    requires processed == JobsOf(seen, limits) && erroneous == ErroneousIds(seen, limits)
    ensures processedMessages == JobsOf(seen + receivedMessages, limits)
    ensures ackIdsOfErroneousMessages == ErroneousIds(seen + receivedMessages, limits)
  {
    processedMessages, ackIdsOfErroneousMessages := processed, erroneous;
    ghost var known := seen;
    TakeAll(receivedMessages);
    ConcatEmpty(seen);
    for j := 0 to |receivedMessages|
      invariant known == seen + receivedMessages[..j]
      invariant processedMessages == JobsOf(known, limits) && ackIdsOfErroneousMessages == ErroneousIds(known, limits)
    {
      var message := receivedMessages[j];
      OneMore(known, message, limits);
      TakeOneMore(receivedMessages, j);
      ConcatIsAssociative(seen, receivedMessages[..j], [message]);
      known := known + [message];
      if message.processing.Rejected? || |message.processing.payload| > limits.maxBytes - 2 {
        ConcatEmpty(processedMessages);
        ackIdsOfErroneousMessages := ackIdsOfErroneousMessages + [message.ackId];
        continue;
      }
      ConcatEmpty(ackIdsOfErroneousMessages);
      processedMessages := processedMessages + [JobOf(message)];
    }
  }

  function IdsOf(messages: seq<ReceivedMessage>): seq<AckId> {
    if messages == [] then [] else IdsOf(messages[..|messages| - 1]) + [messages[|messages| - 1].ackId]
  }

  /** How often an ack id is in a list. */
  function Count(ids: seq<AckId>, id: AckId): nat { multiset(ids)[id] }

  lemma CountAppend(a: seq<AckId>, b: seq<AckId>, id: AckId)
    ensures Count(a + b, id) == Count(a, id) + Count(b, id)
  {
  }

  lemma CountSnoc(ids: seq<AckId>, last: AckId, id: AckId)
    ensures Count(ids + [last], id) == Count(ids, id) + if last == id then 1 else 0
  {
  }

  lemma {:induction false} ErroneousOrJob(messages: seq<ReceivedMessage>, limits: Limits, id: AckId)
    ensures Count(IdsOf(messages), id)
            == Count(ErroneousIds(messages, limits), id) + Count(AckIds(JobsOf(messages, limits)), id)
  {
    if messages != [] {
      var before, last := messages[..|messages| - 1], messages[|messages| - 1];
      ErroneousOrJob(before, limits, id);
      if IsErroneous(last.processing, limits) {
        assert JobsOf(messages, limits) == JobsOf(before, limits);
      } else {
        AppendOne(JobsOf(before, limits), JobOf(last));
        assert ErroneousIds(messages, limits) == ErroneousIds(before, limits);
      }
    }
  }

  /** A pull splits the ack ids, each as often as it was pulled, into those of erroneous
      messages and those in batches. */
  lemma PullSplits(messages: seq<ReceivedMessage>, limits: Limits, id: AckId)
    ensures Count(IdsOf(messages), id)
            == Count(ErroneousIds(messages, limits), id) + Count(AllAckIds(BatchesOf(messages, limits)), id)
  {
    ErroneousOrJob(messages, limits, id);
    BatchesConserve(JobsOf(messages, limits), limits);
  }

  lemma {:induction false} JobsAreSendable(messages: seq<ReceivedMessage>, limits: Limits)
    requires limits.maxEvents >= 1
    ensures AllSendable(JobsOf(messages, limits), limits)
  {
    if messages != [] { JobsAreSendable(messages[..|messages| - 1], limits); }
  }

  predicate WellMade(batch: LogBatch, limits: Limits) {
    && batch.numberOfLogs == |batch.ackIds| > 0 && batch.numberOfLogs <= limits.maxEvents
    && batch.sizeBatchBytes == |batch.serializedBatch| <= limits.maxBytes
  }

  /** The size check of a pull is what makes every batch fit: none is empty, and none
      exceeds a limit. */
  lemma PulledBatchesAreWellMade(messages: seq<ReceivedMessage>, limits: Limits)
    requires limits.maxEvents >= 1
    ensures forall batch <- BatchesOf(messages, limits) :: WellMade(batch, limits)
  {
    var groups := Groups(JobsOf(messages, limits), limits);
    JobsAreSendable(messages, limits);
    AllWithinLimitsIff(JobsOf(messages, limits), limits);
    forall i | 0 <= i < |groups| ensures WellMade(SealAll(groups)[i], limits) {
      assert groups[i] != [] && WithinLimits(groups[i], limits);
      RecordedSizeIsSerializedLengthIff(groups[i]);
    }
  }

  // ---- Sending ----

  /** The answer to a log ingest request, or none. */
  datatype Answer = NoAnswer | Answered(status: int)

  predicate Accepts(answer: Answer) {
    answer.Answered? && answer.status <= 299
  }

  /** The connectivity that an answer is recorded as, if any. */
  function ConnectivityOf(answer: Answer): (connectivity: Option<DynatraceConnectivity>)
    ensures connectivity == Some(Ok) <==> answer.Answered? && answer.status <= 299
    ensures connectivity == Some(InvalidInput) <==> answer == Answered(400)
    ensures connectivity == Some(ExpiredToken) <==> answer == Answered(401)
    ensures connectivity == Some(WrongToken) <==> answer == Answered(403)
    ensures connectivity == Some(WrongURL) <==> answer in {Answered(404), Answered(405)}
    ensures connectivity == Some(TooManyRequests) <==> answer in {Answered(413), Answered(429)}
    ensures connectivity == Some(Other) <==> answer in {NoAnswer, Answered(500)}
  {
    if answer.NoAnswer? then Some(Other)
    else if answer.status <= 299 then Some(Ok)
    else if answer.status == 400 then Some(InvalidInput)
    else if answer.status == 401 then Some(ExpiredToken)
    else if answer.status == 403 then Some(WrongToken)
    else if answer.status == 404 || answer.status == 405 then Some(WrongURL)
    else if answer.status == 413 || answer.status == 429 then Some(TooManyRequests)
    else if answer.status == 500 then Some(Other)
    else None
  }

  function Optional<T>(option: Option<T>): seq<T> {
    if option.Some? then [option.value] else []
  }

  /** The ack ids of the accepted, and of the other, batches among the first sends. */
  function SentIds(batches: seq<LogBatch>, answers: seq<Answer>, order: seq<nat>, accepted: bool): seq<AckId>
    requires |answers| == |batches| && forall k :: 0 <= k < |order| ==> order[k] < |batches|
  {
    if order == [] then []
    else
      var last := order[|order| - 1];
      SentIds(batches, answers, order[..|order| - 1], accepted)
      + if Accepts(answers[last]) == accepted then batches[last].ackIds else []
  }

  /** The state that the concurrent sends of one push share. */
  class LogsContext {
    var ackIdsToSend: seq<AckId>
    var allRequests: int
    var sentLogsEntries: int
    var dynatraceConnectivity: seq<DynatraceConnectivity>

    constructor ()
      ensures ackIdsToSend == [] && allRequests == 0 && sentLogsEntries == 0 && dynatraceConnectivity == []
    {
      ackIdsToSend, allRequests, sentLogsEntries, dynatraceConnectivity := [], 0, 0, [];
    }

    /** `send_logs`: the ack ids of a batch are kept, and its entries counted, exactly when
        the server accepts it. */
    method SendLogs(batch: LogBatch, answer: Answer) returns (raised: bool)
      modifies this
      ensures raised <==> answer.NoAnswer? || answer.status >= 400
      ensures ackIdsToSend
              == old(ackIdsToSend) + if answer.Answered? && answer.status <= 299 then batch.ackIds else []
      ensures sentLogsEntries
              == old(sentLogsEntries) + if answer.Answered? && answer.status <= 299 then batch.numberOfLogs else 0
      ensures allRequests == old(allRequests) + 1
      ensures dynatraceConnectivity == old(dynatraceConnectivity) + Optional(ConnectivityOf(answer))
    {
      allRequests := allRequests + 1;
      if answer.NoAnswer? {
        dynatraceConnectivity := dynatraceConnectivity + [Other];
        return true;
      }
      if answer.status > 299 {
        var description := ConnectivityOf(answer);
        if description.Some? {
          dynatraceConnectivity := dynatraceConnectivity + [description.value];
        }
        return answer.status >= 400;
      }
      ackIdsToSend := ackIdsToSend + batch.ackIds;
      dynatraceConnectivity := dynatraceConnectivity + [Ok];
      sentLogsEntries := sentLogsEntries + batch.numberOfLogs;
      return false;
    }

    /** `push_logs`: the sends end in any order, and a failed one stops no other. */
    method PushLogs(batches: seq<LogBatch>, answers: seq<Answer>, order: seq<nat>)
      requires |answers| == |batches| && forall k :: 0 <= k < |order| ==> order[k] < |batches|
      requires forall batch <- batches :: batch.numberOfLogs == |batch.ackIds|
      modifies this
      ensures ackIdsToSend == old(ackIdsToSend) + SentIds(batches, answers, order, true)
      ensures sentLogsEntries - old(sentLogsEntries) == |ackIdsToSend| - old(|ackIdsToSend|)
      ensures allRequests == old(allRequests) + |order|
    {
      for i := 0 to |order|
        invariant ackIdsToSend == old(ackIdsToSend) + SentIds(batches, answers, order[..i], true)
        invariant sentLogsEntries - old(sentLogsEntries) == |ackIdsToSend| - old(|ackIdsToSend|)
        invariant allRequests == old(allRequests) + i
      {
        assert order[..i + 1][..i] == order[..i];
        var raised := SendLogs(batches[order[i]], answers[order[i]]);
      }
      assert order[..|order|] == order;
    }
  }

  // ---- A whole cycle ----

  function Times(order: seq<nat>, i: nat): nat { multiset(order)[i] }

  /** Every send of a push ends once, in any order. */
  ghost predicate EachOnce(order: seq<nat>, count: nat) {
    |order| == count && forall i: nat :: Times(order, i) == if i < count then 1 else 0
  }

  function SumInOrder(batches: seq<LogBatch>, order: seq<nat>, id: AckId): nat
    requires forall k :: 0 <= k < |order| ==> order[k] < |batches|
  {
    if order == [] then 0
    else SumInOrder(batches, order[..|order| - 1], id) + Count(batches[order[|order| - 1]].ackIds, id)
  }

  lemma {:induction false} AcceptedOrNot(batches: seq<LogBatch>, answers: seq<Answer>, order: seq<nat>, id: AckId)
    requires |answers| == |batches| && forall k :: 0 <= k < |order| ==> order[k] < |batches|
    ensures Count(SentIds(batches, answers, order, true), id) + Count(SentIds(batches, answers, order, false), id)
            == SumInOrder(batches, order, id)
  {
    if order != [] {
      var before, ids := order[..|order| - 1], batches[order[|order| - 1]].ackIds;
      AcceptedOrNot(batches, answers, before, id);
      CountAppend(SentIds(batches, answers, before, true), ids, id);
      CountAppend(SentIds(batches, answers, before, false), ids, id);
      ConcatEmpty(SentIds(batches, answers, before, true));
      ConcatEmpty(SentIds(batches, answers, before, false));
    }
  }

  lemma {:induction false} SumWithout(batches: seq<LogBatch>, order: seq<nat>, at: nat, id: AckId)
    requires at < |order| && forall k :: 0 <= k < |order| ==> order[k] < |batches|
    ensures SumInOrder(batches, order, id)
            == SumInOrder(batches, order[..at] + order[at + 1..], id) + Count(batches[order[at]].ackIds, id)
  {
    var last := |order| - 1;
    if at == last {
      ConcatEmpty(order[..at]);
      assert order[at + 1..] == [];
    } else {
      SumWithout(batches, order[..last], at, id);
      var rest := order[..at] + order[at + 1..];
      assert rest[..|rest| - 1] == order[..last][..at] + order[..last][at + 1..];
    }
  }

  lemma {:induction false} SumOfFewer(batches: seq<LogBatch>, order: seq<nat>, id: AckId)
    requires batches != [] && forall k :: 0 <= k < |order| ==> order[k] < |batches| - 1
    ensures SumInOrder(batches, order, id) == SumInOrder(batches[..|batches| - 1], order, id)
  {
    if order != [] { SumOfFewer(batches, order[..|order| - 1], id); }
  }

  lemma {:induction false} AllAckIdsSnoc(batches: seq<LogBatch>, last: LogBatch)
    ensures AllAckIds(batches + [last]) == AllAckIds(batches) + last.ackIds
  {
    if batches == [] {
      ConcatEmpty(last.ackIds);
      assert batches + [last] == [last] && [last][1..] == [];
    } else {
      AllAckIdsSnoc(batches[1..], last);
      assert (batches + [last])[0] == batches[0] && (batches + [last])[1..] == batches[1..] + [last];
      ConcatIsAssociative(batches[0].ackIds, AllAckIds(batches[1..]), last.ackIds);
    }
  }

  lemma IndicesInRange(order: seq<nat>, count: nat)
    requires EachOnce(order, count)
    ensures forall k :: 0 <= k < |order| ==> order[k] < count
  {
    forall k | 0 <= k < |order| ensures order[k] < count {
      assert Times(order, order[k]) > 0;
    }
  }

  /** Taking the last index out of an order of all indices leaves an order of the others. */
  lemma WithoutLastIndex(order: seq<nat>, count: nat) returns (at: nat)
    requires count > 0 && EachOnce(order, count)
    ensures at < |order| && order[at] == count - 1 && EachOnce(order[..at] + order[at + 1..], count - 1)
  {
    assert Times(order, count - 1) == 1;
    at :| 0 <= at < |order| && order[at] == count - 1;
    var rest := order[..at] + order[at + 1..];
    forall i: nat ensures Times(rest, i) == if i < count - 1 then 1 else 0 {
      TimesWithout(order, at, i);
    }
  }

  lemma TimesWithout(order: seq<nat>, at: nat, i: nat)
    requires at < |order|
    ensures Times(order, i) == Times(order[..at] + order[at + 1..], i) + if order[at] == i then 1 else 0
  {
    SplitAround(order, at);
    CountThreeParts(order[..at], order[at], order[at + 1..], i);
  }

  lemma CountThreeParts(a: seq<nat>, element: nat, b: seq<nat>, i: nat)
    ensures Times((a + [element]) + b, i) == Times(a + b, i) + if element == i then 1 else 0
  {
  }

  /** In whatever order the sends end, the sum over them is the sum over the batches. */
  lemma {:induction false} SumIgnoresOrder(batches: seq<LogBatch>, order: seq<nat>, id: AckId)
    requires EachOnce(order, |batches|) && forall k :: 0 <= k < |order| ==> order[k] < |batches|
    ensures SumInOrder(batches, order, id) == Count(AllAckIds(batches), id)
    decreases |batches|
  {
    if batches != [] {
      var last := |batches| - 1;
      var at := WithoutLastIndex(order, |batches|);
      var rest := order[..at] + order[at + 1..];
      SumWithout(batches, order, at, id);
      IndicesInRange(rest, last);
      SumOfFewer(batches, rest, id);
      SumIgnoresOrder(batches[..last], rest, id);
      assert batches == batches[..last] + [batches[last]];
      AllAckIdsSnoc(batches[..last], batches[last]);
      CountAppend(AllAckIds(batches[..last]), batches[last].ackIds, id);
    }
  }

  /** A cycle splits the pulled ack ids into those left for redelivery, and the accepted and
      erroneous ones, which are exactly the ids of its ack requests: none lost and none
      doubled, whatever the answers and the order they come in. */
  lemma CycleSplits(messages: seq<ReceivedMessage>, limits: Limits, answers: seq<Answer>, order: seq<nat>, id: AckId)
    requires |answers| == |BatchesOf(messages, limits)| && EachOnce(order, |answers|)
    requires forall k :: 0 <= k < |order| ==> order[k] < |answers|
    ensures var batches := BatchesOf(messages, limits);
            var accepted, erroneous := SentIds(batches, answers, order, true), ErroneousIds(messages, limits);
            && Count(IdsOf(messages), id)
               == Count(erroneous, id) + Count(accepted, id) + Count(SentIds(batches, answers, order, false), id)
            && Count(Flatten(AckRequests(accepted, erroneous)), id) == Count(accepted, id) + Count(erroneous, id)
  {
    var batches := BatchesOf(messages, limits);
    var accepted, erroneous := SentIds(batches, answers, order, true), ErroneousIds(messages, limits);
    PullSplits(messages, limits, id);
    AcceptedOrNot(batches, answers, order, id);
    SumIgnoresOrder(batches, order, id);
    ChunksRejoin(accepted + erroneous, ACK_CHUNK_SIZE);
    CountAppend(accepted, erroneous, id);
  }

  /** No ack request is empty or names more than 2048 ids, and all but the last name 2048. */
  lemma AckRequestSizes(ackIdsToSend: seq<AckId>, ackIdsOfErroneousMessages: seq<AckId>)
    ensures var requests := AckRequests(ackIdsToSend, ackIdsOfErroneousMessages);
            && (forall i :: 0 <= i < |requests| ==> 1 <= |requests[i]| <= 2048)
            && (forall i :: 0 <= i < |requests| - 1 ==> |requests[i]| == 2048)
  {
    ChunkSizes(ackIdsToSend + ackIdsOfErroneousMessages, ACK_CHUNK_SIZE);
  }

  /** The ids of the ack requests of a cycle: `push_ack_ids` on the extended list. */
  function AckRequests(ackIdsToSend: seq<AckId>, ackIdsOfErroneousMessages: seq<AckId>): seq<seq<AckId>> {
    Chunks(ackIdsToSend + ackIdsOfErroneousMessages, ACK_CHUNK_SIZE)
  }
}
