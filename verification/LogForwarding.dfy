/** The log forwarding protocol: any number of workers of src/lib/logs/log_forwarder.py that
    pull from Pub/Sub, post to Dynatrace and acknowledge, with redelivery and an exception
    or a cancellation at any await. A delivery is numbered by its ack id; a message may be
    delivered any number of times, each time under a new ack id. */
module LogForwarding {
  import opened Sequences
  import opened LogBatching
  import opened LogCycle

  type Message = nat
  type Group = seq<LogProcessingJob>

  datatype Delivery = Delivery(message: Message, processing: Processing)

  /** An ingest request that has ended; its body is the sealed group. */
  datatype Send = Send(group: Group, answer: Answer)

  /** A worker in `perform_pull`, in `push_logs`, in `push_ack_ids`, asleep after an
      exception, or cancelled. `pending` are the batches whose sends have not ended. */
  datatype Worker =
    | Pulling
    | Sending(pending: seq<Group>, ackIdsToSend: seq<AckId>, erroneous: seq<AckId>)
    | Acking(chunks: seq<seq<AckId>>)
    | BackingOff
    | Stopped

  /** `sends` and `acks` are the ingest requests that ended and the acknowledgements that
      reached Pub/Sub; `left` are the deliveries not accepted. Of the ack ids to send,
      `confirmed` and `unconfirmed` are those of requests that ended well or badly, and
      `abandoned` those whose request had not ended when their worker failed. */
  datatype State = State(deliveries: seq<Delivery>, workers: seq<Worker>, sends: seq<Send>, erroneous: seq<AckId>,
                         left: seq<AckId>, acks: seq<seq<AckId>>, confirmed: seq<AckId>, unconfirmed: seq<AckId>,
                         abandoned: seq<AckId>, sentLogsEntries: int)

  datatype Step =
    | PullEnds(worker: nat, arrived: seq<Delivery>)
    | SendEnds(worker: nat, batch: nat, answer: Answer)
    | SendsOver(worker: nat)
    | AckArrives(worker: nat, chunk: nat)
    | AckEnds(worker: nat, chunk: nat, confirmed: bool)
    | AcksOver(worker: nat)
    | Fail(worker: nat)
    | Cancel(worker: nat)
    | BackoffOver(worker: nat)

  function Idle(count: nat): (workers: seq<Worker>)
    ensures |workers| == count && forall i :: 0 <= i < count ==> workers[i] == Pulling
  {
    if count == 0 then [] else Idle(count - 1) + [Pulling]
  }

  function Init(workers: nat): State {
    State([], Idle(workers), [], [], [], [], [], [], [], 0)
  }

  /** The messages of a pull, under the next free ack ids. */
  function Arrivals(first: nat, arrived: seq<Delivery>): (messages: seq<ReceivedMessage>)
    ensures |messages| == |arrived|
  {
    if arrived == [] then []
    else
      var last := |arrived| - 1;
      Arrivals(first, arrived[..last]) + [ReceivedMessage(first + last, arrived[last].processing)]
  }

  /** The deliveries in batches that a worker has not finished sending. */
  function Held(worker: Worker): seq<AckId> {
    if worker.Sending? then AckIds(Flatten(worker.pending)) else []
  }

  /** The settled deliveries that a worker has yet to acknowledge. */
  function ToAck(worker: Worker): seq<AckId> {
    match worker
    case Sending(_, ackIdsToSend, erroneous) => ackIdsToSend + erroneous
    case Acking(chunks) => Flatten(chunks)
    case _ => []
  }

  /** A request is answered well only after it has reached Pub/Sub. */
  predicate Enabled(s: State, step: Step) {
    && step.worker < |s.workers|
    && var worker := s.workers[step.worker];
       match step
       case PullEnds(_, _) => worker.Pulling?
       case SendEnds(_, batch, _) => worker.Sending? && batch < |worker.pending|
       case SendsOver(_) => worker.Sending? && worker.pending == []
       case AckArrives(_, chunk) => worker.Acking? && chunk < |worker.chunks|
       case AckEnds(_, chunk, confirmed) =>
         worker.Acking? && chunk < |worker.chunks| && (confirmed ==> worker.chunks[chunk] in s.acks)
       case AcksOver(_) => worker.Acking? && worker.chunks == []
       case Fail(_) => !worker.BackingOff? && !worker.Stopped?
       case Cancel(_) => !worker.Stopped?
       case BackoffOver(_) => worker.BackingOff?
  }

  function Next(s: State, step: Step, limits: Limits): State
    requires Enabled(s, step)
  {
    var w, worker := step.worker, s.workers[step.worker];
    match step
    case PullEnds(_, arrived) =>
      var messages := Arrivals(|s.deliveries|, arrived);
      var erroneous := ErroneousIds(messages, limits);
      s.(deliveries := s.deliveries + arrived, erroneous := s.erroneous + erroneous,
         workers := s.workers[w := Sending(Groups(JobsOf(messages, limits), limits), [], erroneous)])
    case SendEnds(_, batch, answer) =>
      var group := worker.pending[batch];
      var ids := AckIds(group);
      var pending := Without(worker.pending, batch);
      if Accepts(answer) then
        s.(workers := s.workers[w := Sending(pending, worker.ackIdsToSend + ids, worker.erroneous)],
           sends := s.sends + [Send(group, answer)], sentLogsEntries := s.sentLogsEntries + Seal(group).numberOfLogs)
      else
        s.(workers := s.workers[w := Sending(pending, worker.ackIdsToSend, worker.erroneous)],
           sends := s.sends + [Send(group, answer)], left := s.left + ids)
    case SendsOver(_) =>
      s.(workers := s.workers[w := Acking(AckRequests(worker.ackIdsToSend, worker.erroneous))])
    case AckArrives(_, chunk) => s.(acks := s.acks + [worker.chunks[chunk]])
    case AckEnds(_, chunk, confirmed) =>
      var ids := worker.chunks[chunk];
      var t := s.(workers := s.workers[w := Acking(Without(worker.chunks, chunk))]);
      if confirmed then t.(confirmed := s.confirmed + ids) else t.(unconfirmed := s.unconfirmed + ids)
    case AcksOver(_) => s.(workers := s.workers[w := Pulling])
    case Fail(_) => GivenUp(s, w).(workers := s.workers[w := BackingOff])
    case Cancel(_) => GivenUp(s, w).(workers := s.workers[w := Stopped])
    case BackoffOver(_) => s.(workers := s.workers[w := Pulling])
  }

  /** The worker drops what it holds; Pub/Sub delivers it again. */
  function GivenUp(s: State, w: nat): State
    requires w < |s.workers|
  {
    s.(left := s.left + Held(s.workers[w]), abandoned := s.abandoned + ToAck(s.workers[w]))
  }

  /** The state after any run; a step that is not possible changes nothing. */
  function Run(workers: nat, steps: seq<Step>, limits: Limits): (s: State)
    ensures |s.workers| == workers
  {
    if steps == [] then Init(workers)
    else
      var last := |steps| - 1;
      var s := Run(workers, steps[..last], limits);
      if Enabled(s, steps[last]) then Next(s, steps[last], limits) else s
  }

  // ---- Every delivery has one fate ----

  function AcceptedIds(sends: seq<Send>): seq<AckId> {
    if sends == [] then []
    else
      var last := sends[|sends| - 1];
      AcceptedIds(sends[..|sends| - 1]) + if Accepts(last.answer) then AckIds(last.group) else []
  }

  function HeldCounts(workers: seq<Worker>, id: AckId): (counts: seq<nat>)
    ensures |counts| == |workers|
    ensures forall w :: 0 <= w < |workers| ==> counts[w] == Count(Held(workers[w]), id)
  {
    seq(|workers|, w requires 0 <= w < |workers| => Count(Held(workers[w]), id))
  }

  function InFlight(workers: seq<Worker>, id: AckId): nat { Sum(HeldCounts(workers, id)) }

  /** How often a delivery was accepted, found erroneous, or left for redelivery, plus how
      often it is in a batch on its way. */
  function Fates(s: State, id: AckId): nat {
    Count(AcceptedIds(s.sends), id) + Count(s.erroneous, id) + Count(s.left, id) + InFlight(s.workers, id)
  }

  lemma InFlightUpdate(workers: seq<Worker>, w: nat, worker: Worker, id: AckId)
    requires w < |workers|
    ensures InFlight(workers[w := worker], id) + Count(Held(workers[w]), id)
            == InFlight(workers, id) + Count(Held(worker), id)
  {
    SumUpdate(HeldCounts(workers, id), w, Count(Held(worker), id));
    assert HeldCounts(workers[w := worker], id) == HeldCounts(workers, id)[w := Count(Held(worker), id)];
  }

  lemma NoneInFlight(count: nat, id: AckId)
    ensures InFlight(Idle(count), id) == 0
  {
    SumOfZeros(HeldCounts(Idle(count), id));
  }

  /** A pull numbers its deliveries with fresh ack ids. */
  lemma {:induction false} ArrivalIds(first: nat, arrived: seq<Delivery>, id: AckId)
    ensures Count(IdsOf(Arrivals(first, arrived)), id) == if first <= id < first + |arrived| then 1 else 0
  {
    if arrived != [] { ArrivalIds(first, arrived[..|arrived| - 1], id); }
  }

  lemma IdsAppend(a: seq<Group>, b: seq<Group>)
    ensures AckIds(Flatten(a + b)) == AckIds(Flatten(a)) + AckIds(Flatten(b))
  {
    FlattenAppend(a, b);
    FieldsAppend(Flatten(a), Flatten(b));
  }

  lemma IdsOfOne(group: Group)
    ensures AckIds(Flatten([group])) == AckIds(group)
  {
    assert Flatten([group]) == group + Flatten<LogProcessingJob>([]) == group;
  }

  lemma HeldInMiddle(before: seq<Group>, group: Group, after: seq<Group>, id: AckId)
    ensures Count(AckIds(Flatten((before + [group]) + after)), id)
            == Count(AckIds(group), id) + Count(AckIds(Flatten(before + after)), id)
  {
    var a, b, c := AckIds(Flatten(before)), AckIds(group), AckIds(Flatten(after));
    IdsAppend(before + [group], after);
    IdsAppend(before, [group]);
    IdsOfOne(group);
    IdsAppend(before, after);
    CountThree(a, b, c, id);
  }

  lemma HeldWithout(pending: seq<Group>, i: nat, id: AckId)
    requires i < |pending|
    ensures Count(AckIds(Flatten(pending)), id)
            == Count(AckIds(pending[i]), id) + Count(AckIds(Flatten(Without(pending, i))), id)
  {
    SplitAround(pending, i);
    HeldInMiddle(pending[..i], pending[i], pending[i + 1..], id);
  }

  lemma CountThree(a: seq<AckId>, b: seq<AckId>, c: seq<AckId>, id: AckId)
    ensures Count((a + b) + c, id) == Count(b, id) + Count(a + c, id)
  {
    CountAppend(a + b, c, id);
    CountAppend(a, b, id);
    CountAppend(a, c, id);
  }

  lemma PullGroups(messages: seq<ReceivedMessage>, limits: Limits, id: AckId)
    ensures Count(IdsOf(messages), id)
            == Count(ErroneousIds(messages, limits), id)
               + Count(AckIds(Flatten(Groups(JobsOf(messages, limits), limits))), id)
  {
    ErroneousOrJob(messages, limits, id);
    BatchesConserve(JobsOf(messages, limits), limits);
  }

  lemma AcceptedMore(sends: seq<Send>, send: Send)
    ensures AcceptedIds(sends + [send]) == AcceptedIds(sends) + if Accepts(send.answer) then AckIds(send.group) else []
  {
    assert (sends + [send])[..|sends + [send]| - 1] == sends;
  }

  lemma PullFates(s: State, step: Step, limits: Limits, id: AckId)
    requires Enabled(s, step) && step.PullEnds?
    ensures Fates(Next(s, step, limits), id)
            == Fates(s, id) + if |s.deliveries| <= id < |s.deliveries| + |step.arrived| then 1 else 0
  {
    var messages := Arrivals(|s.deliveries|, step.arrived);
    var worker := Sending(Groups(JobsOf(messages, limits), limits), [], ErroneousIds(messages, limits));
    InFlightUpdate(s.workers, step.worker, worker, id);
    PullGroups(messages, limits, id);
    ArrivalIds(|s.deliveries|, step.arrived, id);
    assert Count(s.erroneous + worker.erroneous, id) == Count(s.erroneous, id) + Count(worker.erroneous, id);
  }

  /** A step of one worker that moves some held deliveries into the lists of the state. */
  lemma WorkerFates(s: State, t: State, w: nat, accepted: seq<AckId>, given: seq<AckId>, id: AckId)
    requires w < |s.workers| == |t.workers| && t.workers == s.workers[w := t.workers[w]] && t.erroneous == s.erroneous
    requires AcceptedIds(t.sends) == AcceptedIds(s.sends) + accepted && t.left == s.left + given
    requires Count(Held(s.workers[w]), id) == Count(accepted, id) + Count(given, id) + Count(Held(t.workers[w]), id)
    ensures Fates(t, id) == Fates(s, id)
  {
    InFlightUpdate(s.workers, w, t.workers[w], id);
    CountAppend(AcceptedIds(s.sends), accepted, id);
    CountAppend(s.left, given, id);
  }

  lemma AcceptedFates(s: State, step: Step, limits: Limits, id: AckId)
    requires Enabled(s, step) && step.SendEnds? && Accepts(step.answer)
    ensures Fates(Next(s, step, limits), id) == Fates(s, id)
  {
    var worker := s.workers[step.worker];
    var group := worker.pending[step.batch];
    HeldWithout(worker.pending, step.batch, id);
    AcceptedMore(s.sends, Send(group, step.answer));
    ConcatEmpty(s.left);
    WorkerFates(s, Next(s, step, limits), step.worker, AckIds(group), [], id);
  }

  lemma RefusedFates(s: State, step: Step, limits: Limits, id: AckId)
    requires Enabled(s, step) && step.SendEnds? && !Accepts(step.answer)
    ensures Fates(Next(s, step, limits), id) == Fates(s, id)
  {
    var worker := s.workers[step.worker];
    var group := worker.pending[step.batch];
    HeldWithout(worker.pending, step.batch, id);
    AcceptedMore(s.sends, Send(group, step.answer));
    ConcatEmpty(AcceptedIds(s.sends));
    WorkerFates(s, Next(s, step, limits), step.worker, [], AckIds(group), id);
  }

  lemma OtherFates(s: State, step: Step, limits: Limits, id: AckId)
    requires Enabled(s, step) && !step.PullEnds? && !step.SendEnds?
    ensures Fates(Next(s, step, limits), id) == Fates(s, id)
  {
    var worker := s.workers[step.worker];
    if step.Fail? || step.Cancel? {
      WorkerFates(s, Next(s, step, limits), step.worker, [], Held(worker), id);
    } else {
      assert s.left + [] == s.left;
      assert Held(worker) == [];
      WorkerFates(s, Next(s, step, limits), step.worker, [], [], id);
    }
  }

  /** A step changes the fates of nothing but the deliveries it brings, which get one each. */
  lemma NextFates(s: State, step: Step, limits: Limits, id: AckId)
    requires Enabled(s, step)
    ensures Fates(Next(s, step, limits), id)
            == Fates(s, id) + if |s.deliveries| <= id < |Next(s, step, limits).deliveries| then 1 else 0
  {
    if step.PullEnds? {
      PullFates(s, step, limits, id);
    } else if step.SendEnds? {
      if Accepts(step.answer) { AcceptedFates(s, step, limits, id); } else { RefusedFates(s, step, limits, id); }
    } else {
      OtherFates(s, step, limits, id);
    }
  }

  /** Every delivery has exactly one fate: accepted, erroneous, left for redelivery, or on
      its way; none is lost and none doubled. */
  lemma {:induction false} EachDeliveryHasOneFate(workers: nat, steps: seq<Step>, limits: Limits, id: AckId)
    ensures var s := Run(workers, steps, limits);
            Fates(s, id) == if id < |s.deliveries| then 1 else 0
  {
    if steps == [] {
      NoneInFlight(workers, id);
    } else {
      var last := |steps| - 1;
      var s := Run(workers, steps[..last], limits);
      EachDeliveryHasOneFate(workers, steps[..last], limits, id);
      if Enabled(s, steps[last]) { NextFates(s, steps[last], limits, id); }
    }
  }

  // ---- Erroneous deliveries ----

  lemma ArrivalsMore(first: nat, arrived: seq<Delivery>)
    requires arrived != []
    ensures var last := |arrived| - 1;
            Arrivals(first, arrived)
            == Arrivals(first, arrived[..last]) + [ReceivedMessage(first + last, arrived[last].processing)]
  {
  }

  /** The id is one of the arrivals, and that one is erroneous. */
  predicate ErroneousArrival(first: nat, arrived: seq<Delivery>, limits: Limits, id: AckId) {
    first <= id < first + |arrived| && IsErroneous(arrived[id - first].processing, limits)
  }

  lemma ErroneousArrivalMore(first: nat, arrived: seq<Delivery>, limits: Limits, id: AckId)
    requires arrived != []
    ensures var last := |arrived| - 1;
            ErroneousArrival(first, arrived, limits, id)
            <==> ErroneousArrival(first, arrived[..last], limits, id)
                 || (id == first + last && IsErroneous(arrived[last].processing, limits))
  {
  }

  lemma ErroneousIdsMore(first: nat, arrived: seq<Delivery>, limits: Limits)
    requires arrived != []
    ensures var last := |arrived| - 1;
            ErroneousIds(Arrivals(first, arrived), limits)
            == ErroneousIds(Arrivals(first, arrived[..last]), limits)
               + if IsErroneous(arrived[last].processing, limits) then [first + last] else []
  {
    var last := |arrived| - 1;
    ArrivalsMore(first, arrived);
    OneMore(Arrivals(first, arrived[..last]), ReceivedMessage(first + last, arrived[last].processing), limits);
  }

  lemma {:induction false} ErroneousArrivals(first: nat, arrived: seq<Delivery>, limits: Limits, id: AckId)
    ensures Count(ErroneousIds(Arrivals(first, arrived), limits), id)
            == if ErroneousArrival(first, arrived, limits, id) then 1 else 0
  {
    if arrived != [] {
      var last := |arrived| - 1;
      var before := ErroneousIds(Arrivals(first, arrived[..last]), limits);
      ErroneousArrivals(first, arrived[..last], limits, id);
      ErroneousArrivalMore(first, arrived, limits, id);
      ErroneousIdsMore(first, arrived, limits);
      if IsErroneous(arrived[last].processing, limits) {
        CountSnoc(before, first + last, id);
      } else {
        ConcatEmpty(before);
      }
    }
  }

  lemma PullErroneous(s: State, step: Step, limits: Limits, id: AckId)
    requires Enabled(s, step) && step.PullEnds?
    ensures Count(Next(s, step, limits).erroneous, id)
            == Count(s.erroneous, id)
               + if ErroneousArrival(|s.deliveries|, step.arrived, limits, id) then 1 else 0
  {
    ErroneousArrivals(|s.deliveries|, step.arrived, limits, id);
    CountAppend(s.erroneous, ErroneousIds(Arrivals(|s.deliveries|, step.arrived), limits), id);
  }

  predicate ErroneousAt(deliveries: seq<Delivery>, limits: Limits, id: AckId) {
    id < |deliveries| && IsErroneous(deliveries[id].processing, limits)
  }

  ghost predicate ErroneousOnce(s: State, limits: Limits, id: AckId) {
    Count(s.erroneous, id) == if ErroneousAt(s.deliveries, limits, id) then 1 else 0
  }

  lemma ErroneousAtMore(deliveries: seq<Delivery>, arrived: seq<Delivery>, limits: Limits, id: AckId)
    ensures ErroneousAt(deliveries + arrived, limits, id)
            <==> ErroneousAt(deliveries, limits, id) || ErroneousArrival(|deliveries|, arrived, limits, id)
  {
  }

  lemma OthersKeepErroneous(s: State, step: Step, limits: Limits)
    requires Enabled(s, step) && !step.PullEnds?
    ensures Next(s, step, limits).erroneous == s.erroneous && Next(s, step, limits).deliveries == s.deliveries
  {
  }

  lemma PullAddsDeliveries(s: State, step: Step, limits: Limits)
    requires Enabled(s, step) && step.PullEnds?
    ensures Next(s, step, limits).deliveries == s.deliveries + step.arrived
  {
  }

  lemma StepKeepsErroneousOnce(s: State, step: Step, limits: Limits, id: AckId)
    requires Enabled(s, step) && ErroneousOnce(s, limits, id)
    ensures ErroneousOnce(Next(s, step, limits), limits, id)
  {
    if step.PullEnds? {
      PullErroneous(s, step, limits, id);
      PullAddsDeliveries(s, step, limits);
      ErroneousAtMore(s.deliveries, step.arrived, limits, id);
    } else {
      OthersKeepErroneous(s, step, limits);
    }
  }

  /** The deliveries found erroneous are exactly those that processing made nothing of, or
      an entry over the size limit. */
  lemma {:induction false} ErroneousIff(workers: nat, steps: seq<Step>, limits: Limits, id: AckId)
    ensures var s := Run(workers, steps, limits);
            Count(s.erroneous, id)
            == if id < |s.deliveries| && (s.deliveries[id].processing.Rejected?
                                          || |s.deliveries[id].processing.payload| > limits.maxBytes - 2)
               then 1 else 0
  {
    if steps != [] {
      var last := |steps| - 1;
      var s := Run(workers, steps[..last], limits);
      ErroneousIff(workers, steps[..last], limits, id);
      if Enabled(s, steps[last]) { StepKeepsErroneousOnce(s, steps[last], limits, id); }
    }
  }

  // ---- Batches carry what was delivered, within the limits ----

  predicate Genuine(deliveries: seq<Delivery>, job: LogProcessingJob) {
    job.ackId < |deliveries| && deliveries[job.ackId].processing == Entry(job.payload, job.selfMonitoring)
  }

  predicate Sound(deliveries: seq<Delivery>, group: Group, limits: Limits) {
    && group != [] && WithinLimits(group, limits)
    && forall k :: 0 <= k < |group| ==> Genuine(deliveries, group[k])
  }

  predicate AllSound(deliveries: seq<Delivery>, groups: seq<Group>, limits: Limits) {
    forall i :: 0 <= i < |groups| ==> Sound(deliveries, groups[i], limits)
  }

  predicate AllBatchesSound(s: State, limits: Limits) {
    && (forall w :: 0 <= w < |s.workers| ==> s.workers[w].Sending? ==>
       AllSound(s.deliveries, s.workers[w].pending, limits))
    && (forall i :: 0 <= i < |s.sends| ==> Sound(s.deliveries, s.sends[i].group, limits))
  }

  lemma {:induction false} JobsAreGenuine(deliveries: seq<Delivery>, arrived: seq<Delivery>, limits: Limits)
    ensures forall job <- JobsOf(Arrivals(|deliveries|, arrived), limits) :: Genuine(deliveries + arrived, job)
  {
    if arrived != [] {
      var last := |arrived| - 1;
      JobsAreGenuine(deliveries, arrived[..last], limits);
      assert forall k :: 0 <= k < |deliveries| + last ==>
          (deliveries + arrived)[k] == (deliveries + arrived[..last])[k];
    }
  }

  lemma PulledGroupsAreSound(deliveries: seq<Delivery>, arrived: seq<Delivery>, limits: Limits)
    requires limits.maxEvents >= 1
    ensures AllSound(deliveries + arrived, Groups(JobsOf(Arrivals(|deliveries|, arrived), limits), limits), limits)
  {
    var jobs := JobsOf(Arrivals(|deliveries|, arrived), limits);
    var groups := Groups(jobs, limits);
    JobsAreGenuine(deliveries, arrived, limits);
    JobsAreSendable(Arrivals(|deliveries|, arrived), limits);
    AllWithinLimitsIff(jobs, limits);
    BatchesConserve(jobs, limits);
    forall i, k | 0 <= i < |groups| && 0 <= k < |groups[i]| ensures Genuine(deliveries + arrived, groups[i][k]) {
      InFlatten(groups, i, groups[i][k]);
    }
  }

  lemma SoundGrows(deliveries: seq<Delivery>, arrived: seq<Delivery>, group: Group, limits: Limits)
    requires Sound(deliveries, group, limits)
    ensures Sound(deliveries + arrived, group, limits)
  {
    forall k | 0 <= k < |group| ensures Genuine(deliveries + arrived, group[k]) {
      assert Genuine(deliveries, group[k]);
    }
  }

  lemma PullKeepsSound(s: State, step: Step, limits: Limits)
    requires limits.maxEvents >= 1 && Enabled(s, step) && step.PullEnds? && AllBatchesSound(s, limits)
    ensures AllBatchesSound(Next(s, step, limits), limits)
  {
    var t := Next(s, step, limits);
    PulledGroupsAreSound(s.deliveries, step.arrived, limits);
    forall w | 0 <= w < |t.workers| && t.workers[w].Sending?
      ensures AllSound(t.deliveries, t.workers[w].pending, limits)
    {
      if w != step.worker {
        assert t.workers[w] == s.workers[w];
        forall i | 0 <= i < |t.workers[w].pending| ensures Sound(t.deliveries, t.workers[w].pending[i], limits) {
          SoundGrows(s.deliveries, step.arrived, s.workers[w].pending[i], limits);
        }
      }
    }
    forall i | 0 <= i < |t.sends| ensures Sound(t.deliveries, t.sends[i].group, limits) {
      SoundGrows(s.deliveries, step.arrived, s.sends[i].group, limits);
    }
  }

  lemma SendKeepsSound(s: State, step: Step, limits: Limits)
    requires Enabled(s, step) && step.SendEnds? && AllBatchesSound(s, limits)
    ensures AllBatchesSound(Next(s, step, limits), limits)
  {
    assert AllSound(s.deliveries, s.workers[step.worker].pending, limits);
  }

  lemma OtherKeepsSound(s: State, step: Step, limits: Limits)
    requires Enabled(s, step) && !step.PullEnds? && !step.SendEnds? && AllBatchesSound(s, limits)
    ensures AllBatchesSound(Next(s, step, limits), limits)
  {
    var t := Next(s, step, limits);
    assert t.deliveries == s.deliveries && t.sends == s.sends;
    assert forall w :: 0 <= w < |t.workers| ==> t.workers[w].Sending? ==> t.workers[w] == s.workers[w];
  }

  /** Every batch on its way or sent holds only entries made of its deliveries, at least
      one, and its request is within both limits. */
  lemma {:induction false} BatchesAlwaysSound(workers: nat, steps: seq<Step>, limits: Limits)
    requires limits.maxEvents >= 1
    ensures AllBatchesSound(Run(workers, steps, limits), limits)
  {
    if steps != [] {
      var last := |steps| - 1;
      var s, step := Run(workers, steps[..last], limits), steps[last];
      BatchesAlwaysSound(workers, steps[..last], limits);
      if Enabled(s, step) {
        match step
        case PullEnds(_, _) => PullKeepsSound(s, step, limits);
        case SendEnds(_, _, _) => SendKeepsSound(s, step, limits);
        case _ => OtherKeepsSound(s, step, limits);
      }
    }
  }

  // ---- Only settled deliveries are acknowledged ----

  /** The server has accepted the delivery, or it is erroneous. */
  predicate Settled(s: State, id: AckId) {
    id in AcceptedIds(s.sends) || id in s.erroneous
  }

  predicate AllSettled(s: State, ids: seq<AckId>) {
    forall k :: 0 <= k < |ids| ==> Settled(s, ids[k])
  }

  predicate ChunksSettled(s: State, chunks: seq<seq<AckId>>) {
    forall i :: 0 <= i < |chunks| ==> AllSettled(s, chunks[i]) && 1 <= |chunks[i]| <= ACK_CHUNK_SIZE
  }

  predicate WorkerSettled(s: State, worker: Worker) {
    match worker
    case Sending(_, ackIdsToSend, erroneous) => AllSettled(s, ackIdsToSend) && AllSettled(s, erroneous)
    case Acking(chunks) => ChunksSettled(s, chunks)
    case _ => true
  }

  predicate AcksSettled(s: State) {
    && ChunksSettled(s, s.acks)
    && forall w :: 0 <= w < |s.workers| ==> WorkerSettled(s, s.workers[w])
  }

  /** What is settled stays settled. */
  lemma SettledStays(s: State, step: Step, limits: Limits, id: AckId)
    requires Enabled(s, step) && Settled(s, id)
    ensures Settled(Next(s, step, limits), id)
  {
    if step.SendEnds? { AcceptedMore(s.sends, Send(s.workers[step.worker].pending[step.batch], step.answer)); }
  }

  lemma WorkerStaysSettled(s: State, step: Step, limits: Limits, worker: Worker)
    requires Enabled(s, step) && WorkerSettled(s, worker)
    ensures WorkerSettled(Next(s, step, limits), worker)
  {
    forall id | Settled(s, id) ensures Settled(Next(s, step, limits), id) {
      SettledStays(s, step, limits, id);
    }
  }

  lemma ChunksStaySettled(s: State, step: Step, limits: Limits, chunks: seq<seq<AckId>>)
    requires Enabled(s, step) && ChunksSettled(s, chunks)
    ensures ChunksSettled(Next(s, step, limits), chunks)
  {
    WorkerStaysSettled(s, step, limits, Acking(chunks));
  }

  lemma ChunkingSettles(s: State, ids: seq<AckId>)
    requires AllSettled(s, ids)
    ensures ChunksSettled(s, Chunks(ids, ACK_CHUNK_SIZE))
  {
    var chunks := Chunks(ids, ACK_CHUNK_SIZE);
    ChunksRejoin(ids, ACK_CHUNK_SIZE);
    ChunkSizes(ids, ACK_CHUNK_SIZE);
    forall i, k | 0 <= i < |chunks| && 0 <= k < |chunks[i]| ensures Settled(s, chunks[i][k]) {
      InFlatten(chunks, i, chunks[i][k]);
    }
  }

  lemma SenderSettled(s: State, step: Step, limits: Limits)
    requires Enabled(s, step) && step.SendEnds? && WorkerSettled(s, s.workers[step.worker])
    ensures WorkerSettled(Next(s, step, limits), Next(s, step, limits).workers[step.worker])
  {
    var worker := s.workers[step.worker];
    var ids := AckIds(worker.pending[step.batch]);
    AcceptedMore(s.sends, Send(worker.pending[step.batch], step.answer));
    WorkerStaysSettled(s, step, limits, worker);
    if Accepts(step.answer) {
      forall k | 0 <= k < |ids| ensures Settled(Next(s, step, limits), ids[k]) {
        assert ids[k] in AcceptedIds(s.sends) + ids;
      }
      assert AllSettled(Next(s, step, limits), worker.ackIdsToSend + ids);
    }
  }

  lemma PullerSettled(s: State, step: Step, limits: Limits)
    requires Enabled(s, step) && step.PullEnds?
    ensures WorkerSettled(Next(s, step, limits), Next(s, step, limits).workers[step.worker])
  {
    var erroneous := ErroneousIds(Arrivals(|s.deliveries|, step.arrived), limits);
    forall k | 0 <= k < |erroneous| ensures Settled(Next(s, step, limits), erroneous[k]) {
      assert erroneous[k] in s.erroneous + erroneous;
    }
  }

  lemma AckerSettled(s: State, step: Step, limits: Limits)
    requires Enabled(s, step) && (step.SendsOver? || step.AckEnds?) && WorkerSettled(s, s.workers[step.worker])
    ensures WorkerSettled(Next(s, step, limits), Next(s, step, limits).workers[step.worker])
  {
    var worker := s.workers[step.worker];
    WorkerStaysSettled(s, step, limits, worker);
    if step.SendsOver? { ChunkingSettles(Next(s, step, limits), worker.ackIdsToSend + worker.erroneous); }
  }

  /** The worker that takes the step holds only settled ack ids afterwards. */
  lemma StepperSettled(s: State, step: Step, limits: Limits)
    requires Enabled(s, step) && AcksSettled(s)
    ensures WorkerSettled(Next(s, step, limits), Next(s, step, limits).workers[step.worker])
  {
    assert WorkerSettled(s, s.workers[step.worker]);
    match step
    case PullEnds(_, _) => PullerSettled(s, step, limits);
    case SendEnds(_, _, _) => SenderSettled(s, step, limits);
    case SendsOver(_) => AckerSettled(s, step, limits);
    case AckEnds(_, _, _) => AckerSettled(s, step, limits);
    case AckArrives(_, _) => WorkerStaysSettled(s, step, limits, s.workers[step.worker]);
    case _ =>
  }

  lemma NextKeepsSettled(s: State, step: Step, limits: Limits)
    requires Enabled(s, step) && AcksSettled(s)
    ensures AcksSettled(Next(s, step, limits))
  {
    var t := Next(s, step, limits);
    StepperSettled(s, step, limits);
    ChunksStaySettled(s, step, limits, s.acks);
    forall w | 0 <= w < |t.workers| ensures WorkerSettled(t, t.workers[w]) {
      if w != step.worker {
        assert WorkerSettled(s, s.workers[w]) && t.workers[w] == s.workers[w];
        WorkerStaysSettled(s, step, limits, s.workers[w]);
      }
    }
    if step.AckArrives? {
      assert WorkerSettled(s, s.workers[step.worker]);
      WorkerStaysSettled(s, step, limits, s.workers[step.worker]);
    }
  }

  lemma {:induction false} AcksAlwaysSettled(workers: nat, steps: seq<Step>, limits: Limits)
    ensures AcksSettled(Run(workers, steps, limits))
  {
    if steps != [] {
      var last := |steps| - 1;
      var s := Run(workers, steps[..last], limits);
      AcksAlwaysSettled(workers, steps[..last], limits);
      if Enabled(s, steps[last]) { NextKeepsSettled(s, steps[last], limits); }
    }
  }

  /** The delivery's own entry is in a batch that the server accepted. */
  predicate Delivered(s: State, id: AckId) {
    exists i, k :: 0 <= i < |s.sends| && 0 <= k < |s.sends[i].group| && Carries(s, i, k, id)
  }

  predicate Carries(s: State, i: nat, k: nat, id: AckId)
    requires i < |s.sends| && k < |s.sends[i].group|
  {
    && s.sends[i].answer.Answered? && s.sends[i].answer.status <= 299
    && s.sends[i].group[k].ackId == id && Genuine(s.deliveries, s.sends[i].group[k])
  }

  lemma {:induction false} AcceptedSend(sends: seq<Send>, id: AckId) returns (i: nat, k: nat)
    requires id in AcceptedIds(sends)
    ensures i < |sends| && Accepts(sends[i].answer) && k < |sends[i].group| && sends[i].group[k].ackId == id
  {
    var last := |sends| - 1;
    if id in AcceptedIds(sends[..last]) {
      i, k := AcceptedSend(sends[..last], id);
    } else {
      i := last;
      k :| 0 <= k < |sends[last].group| && AckIds(sends[last].group)[k] == id;
    }
  }

  /** In every run, with any number of workers, a delivery is acknowledged only if a batch
      carrying its entry got a status of at most 299, or processing made nothing of it, or
      its entry was over the size limit; no acknowledgement names more than 2048. */
  lemma AcknowledgedOnlyIf(workers: nat, steps: seq<Step>, limits: Limits, ack: nat, id: AckId)
    requires limits.maxEvents >= 1
    requires var s := Run(workers, steps, limits); ack < |s.acks| && id in s.acks[ack]
    ensures var s := Run(workers, steps, limits);
            && id < |s.deliveries| && 1 <= |s.acks[ack]| <= 2048
            && (Delivered(s, id) || s.deliveries[id].processing.Rejected?
                || |s.deliveries[id].processing.payload| > limits.maxBytes - 2)
  {
    var s := Run(workers, steps, limits);
    AcksAlwaysSettled(workers, steps, limits);
    assert AllSettled(s, s.acks[ack]);
    assert Settled(s, id);
    if id in AcceptedIds(s.sends) {
      var i, k := AcceptedSend(s.sends, id);
      BatchesAlwaysSound(workers, steps, limits);
      assert Sound(s.deliveries, s.sends[i].group, limits);
      assert Carries(s, i, k, id);
    } else {
      ErroneousIff(workers, steps, limits, id);
    }
  }

  /** A message is acknowledged only if one of its deliveries was accepted as above, was
      processed to nothing, or was over the size limit. */
  lemma MessageAcknowledgedOnlyIf(workers: nat, steps: seq<Step>, limits: Limits, ack: nat, id: AckId, message: Message)
    requires limits.maxEvents >= 1
    requires var s := Run(workers, steps, limits);
             ack < |s.acks| && id in s.acks[ack] && id < |s.deliveries| && s.deliveries[id].message == message
    ensures var s := Run(workers, steps, limits);
            exists d :: 0 <= d < |s.deliveries| && s.deliveries[d].message == message
                        && (Delivered(s, d) || s.deliveries[d].processing.Rejected?
                            || |s.deliveries[d].processing.payload| > limits.maxBytes - 2)
  {
    AcknowledgedOnlyIf(workers, steps, limits, ack, id);
  }

  /** `sent_logs_entries` is the number of deliveries accepted. */
  lemma {:induction false} SentEntriesAreAccepted(workers: nat, steps: seq<Step>, limits: Limits)
    ensures Run(workers, steps, limits).sentLogsEntries == |AcceptedIds(Run(workers, steps, limits).sends)|
  {
    if steps != [] {
      var last := |steps| - 1;
      var s, step := Run(workers, steps[..last], limits), steps[last];
      SentEntriesAreAccepted(workers, steps[..last], limits);
      if Enabled(s, step) && step.SendEnds? {
        AcceptedMore(s.sends, Send(s.workers[step.worker].pending[step.batch], step.answer));
      }
    }
  }

  // ---- Settled deliveries are acknowledged ----

  function AckCounts(workers: seq<Worker>, id: AckId): (counts: seq<nat>)
    ensures |counts| == |workers|
    ensures forall w :: 0 <= w < |workers| ==> counts[w] == Count(ToAck(workers[w]), id)
  {
    seq(|workers|, w requires 0 <= w < |workers| => Count(ToAck(workers[w]), id))
  }

  function Outstanding(workers: seq<Worker>, id: AckId): nat { Sum(AckCounts(workers, id)) }

  /** How often a delivery was accepted or found erroneous. */
  function Settlements(s: State, id: AckId): nat {
    Count(AcceptedIds(s.sends), id) + Count(s.erroneous, id)
  }

  /** How often it was in an ack request that ended, or was abandoned. */
  function Released(s: State, id: AckId): nat {
    Count(s.confirmed, id) + Count(s.unconfirmed, id) + Count(s.abandoned, id)
  }

  /** Each settlement is still to be acknowledged, in a request that ended, or abandoned. */
  predicate Balanced(s: State, id: AckId) {
    Settlements(s, id) == Outstanding(s.workers, id) + Released(s, id)
  }

  lemma OutstandingUpdate(workers: seq<Worker>, w: nat, worker: Worker, id: AckId)
    requires w < |workers|
    ensures Outstanding(workers[w := worker], id) + Count(ToAck(workers[w]), id)
            == Outstanding(workers, id) + Count(ToAck(worker), id)
  {
    SumUpdate(AckCounts(workers, id), w, Count(ToAck(worker), id));
    assert AckCounts(workers[w := worker], id) == AckCounts(workers, id)[w := Count(ToAck(worker), id)];
  }

  lemma NoneOutstanding(count: nat, id: AckId)
    ensures Outstanding(Idle(count), id) == 0
  {
    SumOfZeros(AckCounts(Idle(count), id));
  }

  lemma FlattenWithout(chunks: seq<seq<AckId>>, i: nat, id: AckId)
    requires i < |chunks|
    ensures Count(Flatten(chunks), id) == Count(Flatten(Without(chunks, i)), id) + Count(chunks[i], id)
  {
    var before, after := chunks[..i], chunks[i + 1..];
    SplitAround(chunks, i);
    FlattenAppend(before + [chunks[i]], after);
    FlattenSnoc(before, chunks[i]);
    FlattenAppend(before, after);
    CountThree(Flatten(before), chunks[i], Flatten(after), id);
  }

  /** A step of one worker that settles some deliveries and releases some. */
  lemma WorkerBalances(s: State, t: State, w: nat, settled: seq<AckId>, released: seq<AckId>, id: AckId)
    requires w < |s.workers| == |t.workers| && t.workers == s.workers[w := t.workers[w]] && Balanced(s, id)
    requires Settlements(t, id) == Settlements(s, id) + Count(settled, id)
    requires Released(t, id) == Released(s, id) + Count(released, id)
    requires Count(ToAck(s.workers[w]), id) + Count(settled, id) == Count(ToAck(t.workers[w]), id) + Count(released, id)
    ensures Balanced(t, id)
  {
    OutstandingUpdate(s.workers, w, t.workers[w], id);
  }

  lemma PullBalances(s: State, step: Step, limits: Limits, id: AckId)
    requires Enabled(s, step) && step.PullEnds? && Balanced(s, id)
    ensures Balanced(Next(s, step, limits), id)
  {
    var erroneous := ErroneousIds(Arrivals(|s.deliveries|, step.arrived), limits);
    CountAppend(s.erroneous, erroneous, id);
    CountAppend([], erroneous, id);
    WorkerBalances(s, Next(s, step, limits), step.worker, erroneous, [], id);
  }

  lemma SendBalances(s: State, step: Step, limits: Limits, id: AckId)
    requires Enabled(s, step) && step.SendEnds? && Balanced(s, id)
    ensures Balanced(Next(s, step, limits), id)
  {
    var worker := s.workers[step.worker];
    var ids := AckIds(worker.pending[step.batch]);
    AcceptedMore(s.sends, Send(worker.pending[step.batch], step.answer));
    if Accepts(step.answer) {
      CountAppend(AcceptedIds(s.sends), ids, id);
      CountAppend(worker.ackIdsToSend, ids, id);
      CountAppend(worker.ackIdsToSend + ids, worker.erroneous, id);
      CountAppend(worker.ackIdsToSend, worker.erroneous, id);
      WorkerBalances(s, Next(s, step, limits), step.worker, ids, [], id);
    } else {
      ConcatEmpty(AcceptedIds(s.sends));
      WorkerBalances(s, Next(s, step, limits), step.worker, [], [], id);
    }
  }

  lemma AckBalances(s: State, step: Step, limits: Limits, id: AckId)
    requires Enabled(s, step) && step.AckEnds? && Balanced(s, id)
    ensures Balanced(Next(s, step, limits), id)
  {
    var chunks := s.workers[step.worker].chunks;
    var ids := chunks[step.chunk];
    FlattenWithout(chunks, step.chunk, id);
    CountAppend(s.confirmed, ids, id);
    CountAppend(s.unconfirmed, ids, id);
    WorkerBalances(s, Next(s, step, limits), step.worker, [], ids, id);
  }

  lemma GiveUpBalances(s: State, step: Step, limits: Limits, id: AckId)
    requires Enabled(s, step) && (step.Fail? || step.Cancel?) && Balanced(s, id)
    ensures Balanced(Next(s, step, limits), id)
  {
    var worker := s.workers[step.worker];
    CountAppend(s.abandoned, ToAck(worker), id);
    WorkerBalances(s, Next(s, step, limits), step.worker, [], ToAck(worker), id);
  }

  lemma SendsOverBalances(s: State, step: Step, limits: Limits, id: AckId)
    requires Enabled(s, step) && step.SendsOver? && Balanced(s, id)
    ensures Balanced(Next(s, step, limits), id)
  {
    ChunksRejoin(ToAck(s.workers[step.worker]), ACK_CHUNK_SIZE);
    WorkerBalances(s, Next(s, step, limits), step.worker, [], [], id);
  }

  lemma QuietBalances(s: State, step: Step, limits: Limits, id: AckId)
    requires Enabled(s, step) && (step.AckArrives? || step.AcksOver? || step.BackoffOver?) && Balanced(s, id)
    ensures Balanced(Next(s, step, limits), id)
  {
    WorkerBalances(s, Next(s, step, limits), step.worker, [], [], id);
  }

  lemma NextBalances(s: State, step: Step, limits: Limits, id: AckId)
    requires Enabled(s, step) && Balanced(s, id)
    ensures Balanced(Next(s, step, limits), id)
  {
    match step
    case PullEnds(_, _) => PullBalances(s, step, limits, id);
    case SendEnds(_, _, _) => SendBalances(s, step, limits, id);
    case SendsOver(_) => SendsOverBalances(s, step, limits, id);
    case AckEnds(_, _, _) => AckBalances(s, step, limits, id);
    case Fail(_) => GiveUpBalances(s, step, limits, id);
    case Cancel(_) => GiveUpBalances(s, step, limits, id);
    case _ => QuietBalances(s, step, limits, id);
  }

  /** Over any run every delivery accepted or erroneous is accounted for once, and as often
      as it was settled: it is still to be acknowledged by some worker, it was in an ack
      request that ended, or its worker failed before that. */
  lemma {:induction false} SettledIsAccountedFor(workers: nat, steps: seq<Step>, limits: Limits, id: AckId)
    ensures Balanced(Run(workers, steps, limits), id)
  {
    if steps == [] {
      NoneOutstanding(workers, id);
    } else {
      var last := |steps| - 1;
      var s := Run(workers, steps[..last], limits);
      SettledIsAccountedFor(workers, steps[..last], limits, id);
      if Enabled(s, steps[last]) { NextBalances(s, steps[last], limits, id); }
    }
  }

  /** An acknowledgement of the delivery has reached Pub/Sub. */
  predicate Acknowledged(s: State, id: AckId) {
    exists i :: 0 <= i < |s.acks| && id in s.acks[i]
  }

  lemma {:induction false} AcksGrow(workers: nat, steps: seq<Step>, later: seq<Step>, limits: Limits)
    ensures Run(workers, steps, limits).acks <= Run(workers, steps + later, limits).acks
  {
    if later == [] {
      assert steps + later == steps;
    } else {
      AcksGrow(workers, steps, later[..|later| - 1], limits);
      assert (steps + later)[..|steps + later| - 1] == steps + later[..|later| - 1];
    }
  }

  /** What a request that reaches Pub/Sub names is acknowledged from then on. */
  lemma ArrivedIsAcknowledged(workers: nat, steps: seq<Step>, step: Step, later: seq<Step>, limits: Limits, id: AckId)
    requires var s := Run(workers, steps, limits);
             step.AckArrives? && Enabled(s, step) && id in s.workers[step.worker].chunks[step.chunk]
    ensures Acknowledged(Run(workers, (steps + [step]) + later, limits), id)
  {
    var s := Run(workers, steps, limits);
    assert (steps + [step])[..|steps + [step]| - 1] == steps;
    var t := Run(workers, steps + [step], limits);
    AcksGrow(workers, steps + [step], later, limits);
    assert id in t.acks[|s.acks|];
  }

  predicate AllAcknowledged(s: State, ids: seq<AckId>) {
    forall k :: 0 <= k < |ids| ==> Acknowledged(s, ids[k])
  }

  lemma NextConfirms(s: State, step: Step, limits: Limits)
    requires Enabled(s, step) && AllAcknowledged(s, s.confirmed)
    ensures AllAcknowledged(Next(s, step, limits), Next(s, step, limits).confirmed)
  {
    var t := Next(s, step, limits);
    AcknowledgedStays(s, t);
    if step.AckEnds? && step.confirmed {
      var ids := s.workers[step.worker].chunks[step.chunk];
      var i :| 0 <= i < |s.acks| && s.acks[i] == ids;
      forall k | 0 <= k < |ids| ensures Acknowledged(t, ids[k]) {
        assert ids[k] in t.acks[i];
      }
    }
  }

  lemma {:induction false} ConfirmedIsAcknowledged(workers: nat, steps: seq<Step>, limits: Limits)
    ensures AllAcknowledged(Run(workers, steps, limits), Run(workers, steps, limits).confirmed)
  {
    if steps != [] {
      var last := |steps| - 1;
      var s := Run(workers, steps[..last], limits);
      ConfirmedIsAcknowledged(workers, steps[..last], limits);
      if Enabled(s, steps[last]) { NextConfirms(s, steps[last], limits); }
    }
  }

  /** The converse: a delivery that no worker still has to acknowledge, and whose ack request
      neither ended badly nor was abandoned, is acknowledged exactly when it was accepted or
      is erroneous. */
  lemma AcknowledgedIffSettled(workers: nat, steps: seq<Step>, limits: Limits, id: AckId)
    requires var s := Run(workers, steps, limits);
             Outstanding(s.workers, id) == 0 && id !in s.unconfirmed && id !in s.abandoned
    ensures var s := Run(workers, steps, limits);
            Acknowledged(s, id) <==> id in AcceptedIds(s.sends) || id in s.erroneous
  {
    var s := Run(workers, steps, limits);
    SettledIsAccountedFor(workers, steps, limits, id);
    ConfirmedIsAcknowledged(workers, steps, limits);
    AcksAlwaysSettled(workers, steps, limits);
    if Acknowledged(s, id) {
      var i :| 0 <= i < |s.acks| && id in s.acks[i];
      assert AllSettled(s, s.acks[i]);
      assert Settled(s, id);
    } else {
      assert id !in s.confirmed;
    }
  }

  // ---- Refused deliveries are left ----

  /** The ids of batches that were not accepted are left for redelivery. */
  predicate RefusedAreLeft(s: State) {
    forall i, k :: 0 <= i < |s.sends| && 0 <= k < |s.sends[i].group| && !Accepts(s.sends[i].answer) ==>
      s.sends[i].group[k].ackId in s.left
  }

  lemma NextLeavesRefused(s: State, step: Step, limits: Limits)
    requires Enabled(s, step) && RefusedAreLeft(s)
    ensures RefusedAreLeft(Next(s, step, limits))
  {
    if step.SendEnds? && !Accepts(step.answer) {
      var group := s.workers[step.worker].pending[step.batch];
      forall k | 0 <= k < |group| ensures group[k].ackId in s.left + AckIds(group) {
        assert AckIds(group)[k] == group[k].ackId;
      }
    }
  }

  lemma {:induction false} RefusedAlwaysLeft(workers: nat, steps: seq<Step>, limits: Limits)
    ensures RefusedAreLeft(Run(workers, steps, limits))
  {
    if steps != [] {
      var last := |steps| - 1;
      var s := Run(workers, steps[..last], limits);
      RefusedAlwaysLeft(workers, steps[..last], limits);
      if Enabled(s, steps[last]) { NextLeavesRefused(s, steps[last], limits); }
    }
  }

  /** A delivery whose batch got no answer, or a status from 300 on, is left for redelivery
      once, was not accepted or erroneous, and is in no acknowledgement. */
  lemma RefusedIsNotAcknowledged(workers: nat, steps: seq<Step>, limits: Limits, i: nat, k: nat)
    requires var s := Run(workers, steps, limits);
             i < |s.sends| && k < |s.sends[i].group| && (s.sends[i].answer.NoAnswer? || s.sends[i].answer.status >= 300)
    ensures var s := Run(workers, steps, limits);
            var id := s.sends[i].group[k].ackId;
            && Count(s.left, id) == 1 && id !in s.erroneous && id !in AcceptedIds(s.sends)
            && forall ack :: 0 <= ack < |s.acks| ==> id !in s.acks[ack]
  {
    var s := Run(workers, steps, limits);
    var id := s.sends[i].group[k].ackId;
    RefusedAlwaysLeft(workers, steps, limits);
    EachDeliveryHasOneFate(workers, steps, limits, id);
    AcksAlwaysSettled(workers, steps, limits);
    assert id in s.left;
    forall ack | 0 <= ack < |s.acks| ensures id !in s.acks[ack] {
      assert AllSettled(s, s.acks[ack]);
      assert !Settled(s, id);
    }
  }

  // ---- Workers go on ----

  /** A bound on the steps a worker takes until it pulls again. */
  function Work(worker: Worker): nat {
    match worker
    case Pulling => 0
    case Sending(pending, ackIdsToSend, erroneous) =>
      |pending| + |Flatten(pending)| + |ackIdsToSend| + |erroneous| + 3
    case Acking(chunks) => |chunks| + 2
    case BackingOff => 1
    case Stopped => 0
  }

  lemma OthersStay(s: State, step: Step, limits: Limits, w: nat)
    requires Enabled(s, step) && w < |s.workers| && (step.worker != w || step.AckArrives?)
    ensures Next(s, step, limits).workers[w] == s.workers[w]
  {
  }

  /** A worker's own steps are all but those that bring an ack request to Pub/Sub. Outside a
      pull each of them, a failure too, leaves less to do. */
  lemma WorkDescends(s: State, step: Step, limits: Limits)
    requires Enabled(s, step) && !s.workers[step.worker].Pulling? && !step.AckArrives?
    ensures Work(Next(s, step, limits).workers[step.worker]) < Work(s.workers[step.worker])
  {
    var worker := s.workers[step.worker];
    if step.SendEnds? {
      FlattenLength(worker.pending, step.batch);
      assert |AckIds(worker.pending[step.batch])| == |worker.pending[step.batch]|;
    } else if step.SendsOver? {
      ChunksAreFew(worker.ackIdsToSend + worker.erroneous, ACK_CHUNK_SIZE);
    }
  }

  /** A worker that is not cancelled has a step of its own to take, not a failure. */
  lemma WorkerCanGoOn(s: State, w: nat) returns (step: Step)
    requires w < |s.workers| && !s.workers[w].Stopped?
    ensures Enabled(s, step) && step.worker == w && !step.Fail? && !step.Cancel? && !step.AckArrives?
  {
    match s.workers[w]
    case Pulling => step := PullEnds(w, []);
    case Sending(pending, _, _) => step := if pending == [] then SendsOver(w) else SendEnds(w, 0, NoAnswer);
    case Acking(chunks) => step := if chunks == [] then AcksOver(w) else AckEnds(w, 0, false);
    case BackingOff => step := BackoffOver(w);
  }

  lemma RunMore(workers: nat, steps: seq<Step>, step: Step, limits: Limits)
    ensures var s := Run(workers, steps, limits);
            Run(workers, steps + [step], limits) == if Enabled(s, step) then Next(s, step, limits) else s
  {
    DropLast(steps, step);
  }

  /** The steps that the worker takes itself while the later ones run. */
  function StepsOf(workers: nat, steps: seq<Step>, later: seq<Step>, limits: Limits, w: nat): nat {
    if later == [] then 0
    else
      var last := |later| - 1;
      var own := later[last].worker == w && !later[last].AckArrives?;
      StepsOf(workers, steps, later[..last], limits, w)
      + if own && Enabled(Run(workers, steps + later[..last], limits), later[last]) then 1 else 0
  }

  /** The worker does not pull before any of the later steps. */
  predicate Busy(workers: nat, steps: seq<Step>, later: seq<Step>, limits: Limits, w: nat)
    requires w < workers
  {
    forall k :: 0 <= k < |later| ==> !Run(workers, steps + later[..k], limits).workers[w].Pulling?
  }

  lemma BusyBefore(workers: nat, steps: seq<Step>, later: seq<Step>, limits: Limits, w: nat, count: nat)
    requires w < workers && count <= |later| && Busy(workers, steps, later, limits, w)
    ensures Busy(workers, steps, later[..count], limits, w)
  {
    forall k | 0 <= k < count
      ensures !Run(workers, steps + later[..count][..k], limits).workers[w].Pulling?
    {
      PrefixOfPrefix(later, k, count);
    }
  }

  /** Whatever the others do, a worker takes no more steps than it has work before it pulls
      again. */
  lemma {:induction false} BusyRunsEnd(workers: nat, steps: seq<Step>, later: seq<Step>, limits: Limits, w: nat)
    requires w < workers && Busy(workers, steps, later, limits, w)
    ensures StepsOf(workers, steps, later, limits, w) + Work(Run(workers, steps + later, limits).workers[w])
            <= Work(Run(workers, steps, limits).workers[w])
  {
    if later == [] {
      ConcatEmpty(steps);
    } else {
      var last := |later| - 1;
      BusyBefore(workers, steps, later, limits, w, last);
      BusyRunsEnd(workers, steps, later[..last], limits, w);
      TakeOneMore(later, last);
      TakeAll(later);
      ConcatIsAssociative(steps, later[..last], [later[last]]);
      RunMore(workers, steps + later[..last], later[last], limits);
      var s := Run(workers, steps + later[..last], limits);
      if Enabled(s, later[last]) {
        if later[last].worker == w && !later[last].AckArrives? {
          WorkDescends(s, later[last], limits);
        } else {
          OthersStay(s, later[last], limits, w);
        }
      }
    }
  }

  // ---- No cycle is a dead end ----

  predicate InCycle(worker: Worker) { worker.Sending? || worker.Acking? }

  /** The next step of a cycle in which all goes well. */
  function Onward(s: State, w: nat): Step
    requires w < |s.workers| && InCycle(s.workers[w])
  {
    match s.workers[w]
    case Sending(pending, _, _) => if pending == [] then SendsOver(w) else SendEnds(w, 0, Answered(200))
    case Acking(chunks) =>
      if chunks == [] then AcksOver(w)
      else if chunks[0] in s.acks then AckEnds(w, 0, true)
      else AckArrives(w, 0)
  }

  /** The ids that a worker still holds or has to acknowledge. */
  predicate Owes(worker: Worker, id: AckId) {
    id in Held(worker) || id in ToAck(worker)
  }

  /** What a worker owed it still owes, or it is acknowledged. */
  ghost predicate Follows(s: State, t: State, w: nat)
    requires w < |s.workers| == |t.workers|
  {
    forall id :: Owes(s.workers[w], id) ==> Owes(t.workers[w], id) || Acknowledged(t, id)
  }

  lemma SendFollows(s: State, w: nat, limits: Limits)
    requires w < |s.workers| && s.workers[w].Sending? && s.workers[w].pending != []
    ensures Enabled(s, Onward(s, w)) && Follows(s, Next(s, Onward(s, w), limits), w)
    ensures Next(s, Onward(s, w), limits).workers[w].Sending?
  {
    var worker, t := s.workers[w], Next(s, Onward(s, w), limits);
    forall id | Owes(worker, id) ensures Owes(t.workers[w], id) {
      HeldWithout(worker.pending, 0, id);
    }
  }

  lemma SendsOverFollows(s: State, w: nat, limits: Limits)
    requires w < |s.workers| && s.workers[w].Sending? && s.workers[w].pending == []
    ensures Enabled(s, Onward(s, w)) && Follows(s, Next(s, Onward(s, w), limits), w)
    ensures Next(s, Onward(s, w), limits).workers[w].Acking?
  {
    ChunksRejoin(ToAck(s.workers[w]), ACK_CHUNK_SIZE);
  }

  lemma AckFollows(s: State, w: nat, limits: Limits)
    requires w < |s.workers| && s.workers[w].Acking?
    ensures Enabled(s, Onward(s, w)) && Follows(s, Next(s, Onward(s, w), limits), w)
    ensures Next(s, Onward(s, w), limits).workers[w].Acking? || Next(s, Onward(s, w), limits).workers[w].Pulling?
  {
    var worker, t := s.workers[w], Next(s, Onward(s, w), limits);
    if Onward(s, w).AckEnds? {
      var i :| 0 <= i < |s.acks| && s.acks[i] == worker.chunks[0];
      forall id | Owes(worker, id) ensures Owes(t.workers[w], id) || Acknowledged(t, id) {
        FlattenWithout(worker.chunks, 0, id);
        if id in worker.chunks[0] { assert id in t.acks[i]; }
      }
    }
  }

  /** Two for each step of the worker, one for a request that has yet to reach Pub/Sub. */
  function Distance(s: State, w: nat): nat
    requires w < |s.workers|
  {
    var worker := s.workers[w];
    2 * Work(worker) + if worker.Acking? && worker.chunks != [] && worker.chunks[0] !in s.acks then 1 else 0
  }

  lemma OnwardDescends(s: State, w: nat, limits: Limits)
    requires w < |s.workers| && InCycle(s.workers[w]) && Enabled(s, Onward(s, w))
    ensures Distance(Next(s, Onward(s, w), limits), w) < Distance(s, w)
  {
    var step := Onward(s, w);
    if step.AckArrives? {
      assert Next(s, step, limits).acks[|s.acks|] == s.workers[w].chunks[0];
    } else {
      WorkDescends(s, step, limits);
    }
  }

  lemma OnwardFollows(s: State, w: nat, limits: Limits)
    requires w < |s.workers| && InCycle(s.workers[w])
    ensures Enabled(s, Onward(s, w)) && Follows(s, Next(s, Onward(s, w), limits), w)
    ensures var worker := Next(s, Onward(s, w), limits).workers[w]; InCycle(worker) || worker.Pulling?
    ensures Distance(Next(s, Onward(s, w), limits), w) < Distance(s, w)
  {
    if s.workers[w].Acking? {
      AckFollows(s, w, limits);
    } else if s.workers[w].pending == [] {
      SendsOverFollows(s, w, limits);
    } else {
      SendFollows(s, w, limits);
    }
    OnwardDescends(s, w, limits);
  }

  predicate AllBy(steps: seq<Step>, w: nat) {
    forall k :: 0 <= k < |steps| ==> steps[k].worker == w
  }

  predicate NoPulls(steps: seq<Step>) {
    forall k :: 0 <= k < |steps| ==> !steps[k].PullEnds?
  }

  lemma OneFirst(step: Step, rest: seq<Step>, w: nat)
    requires step.worker == w && AllBy(rest, w)
    ensures AllBy([step] + rest, w)
    ensures !step.PullEnds? && NoPulls(rest) ==> NoPulls([step] + rest)
  {
  }

  ghost predicate AllOwedAcknowledged(s: State, t: State, w: nat)
    requires w < |s.workers|
  {
    forall id :: Owes(s.workers[w], id) ==> Acknowledged(t, id)
  }

  lemma FollowedThenAcknowledged(s: State, next: State, t: State, w: nat)
    requires w < |s.workers| == |next.workers| && Follows(s, next, w) && next.acks <= t.acks
    requires AllOwedAcknowledged(next, t, w)
    ensures AllOwedAcknowledged(s, t, w)
  {
    AcknowledgedStays(next, t);
  }

  /** From every state of every run a worker in its cycle can still finish it by steps of its
      own, back at its next pull with everything it held or had to acknowledge acknowledged. */
  lemma {:induction false} CycleCanFinish(workers: nat, steps: seq<Step>, limits: Limits, w: nat)
    returns (later: seq<Step>)
    requires w < workers && InCycle(Run(workers, steps, limits).workers[w])
    ensures AllBy(later, w) && NoPulls(later) && Run(workers, steps + later, limits).workers[w].Pulling?
    ensures AllOwedAcknowledged(Run(workers, steps, limits), Run(workers, steps + later, limits), w)
    decreases Distance(Run(workers, steps, limits), w)
  {
    var s := Run(workers, steps, limits);
    var step := Onward(s, w);
    OnwardFollows(s, w, limits);
    var next := Next(s, step, limits);
    var rest: seq<Step> := [];
    AfterOne(workers, steps, step, [], limits);
    if InCycle(next.workers[w]) { rest := CycleCanFinish(workers, steps + [step], limits, w); }
    later := [step] + rest;
    OneFirst(step, rest, w);
    AfterOne(workers, steps, step, rest, limits);
    FollowedThenAcknowledged(s, next, Run(workers, steps + later, limits), w);
  }

  lemma AfterOne(workers: nat, steps: seq<Step>, step: Step, rest: seq<Step>, limits: Limits)
    requires Enabled(Run(workers, steps, limits), step)
    ensures var next := Next(Run(workers, steps, limits), step, limits);
            var t := Run(workers, steps + ([step] + rest), limits);
            && Run(workers, steps + [step], limits) == next
            && t == Run(workers, (steps + [step]) + rest, limits)
            && next.acks <= t.acks && (rest == [] ==> t == next)
  {
    RunMore(workers, steps, step, limits);
    AcksGrow(workers, steps + [step], rest, limits);
    ConcatIsAssociative(steps, [step], rest);
    ConcatEmpty(steps + [step]);
  }

  lemma AcknowledgedStays(s: State, t: State)
    requires s.acks <= t.acks
    ensures forall id :: Acknowledged(s, id) ==> Acknowledged(t, id)
  {
    forall id | Acknowledged(s, id) ensures Acknowledged(t, id) {
      var i :| 0 <= i < |s.acks| && id in s.acks[i];
      assert id in t.acks[i];
    }
  }

  lemma {:induction false} DeliveriesKept(workers: nat, steps: seq<Step>, later: seq<Step>, limits: Limits)
    requires NoPulls(later)
    ensures Run(workers, steps + later, limits).deliveries == Run(workers, steps, limits).deliveries
  {
    if later == [] {
      ConcatEmpty(steps);
    } else {
      var last := |later| - 1;
      DeliveriesKept(workers, steps, later[..last], limits);
      TakeOneMore(later, last);
      TakeAll(later);
      ConcatIsAssociative(steps, later[..last], [later[last]]);
      RunMore(workers, steps + later[..last], later[last], limits);
      var s := Run(workers, steps + later[..last], limits);
      if Enabled(s, later[last]) { OthersKeepErroneous(s, later[last], limits); }
    }
  }

  lemma PulledIsOwed(messages: seq<ReceivedMessage>, limits: Limits, id: AckId)
    requires Count(IdsOf(messages), id) > 0
    ensures Owes(Sending(Groups(JobsOf(messages, limits), limits), [], ErroneousIds(messages, limits)), id)
  {
    PullGroups(messages, limits, id);
  }

  /** What a pull brings its worker owes. */
  lemma ArrivedIsOwed(s: State, w: nat, arrived: seq<Delivery>, limits: Limits, id: AckId)
    requires w < |s.workers| && s.workers[w].Pulling? && |s.deliveries| <= id < |s.deliveries| + |arrived|
    ensures Owes(Next(s, PullEnds(w, arrived), limits).workers[w], id)
  {
    ArrivalIds(|s.deliveries|, arrived, id);
    PulledIsOwed(Arrivals(|s.deliveries|, arrived), limits, id);
  }

  /** A pull can bring anything, and from every run whatever it brings can be acknowledged by
      steps of its worker alone. */
  lemma AnyPullCanFinish(workers: nat, steps: seq<Step>, limits: Limits, w: nat, arrived: seq<Delivery>)
    returns (later: seq<Step>)
    requires w < workers && Run(workers, steps, limits).workers[w].Pulling?
    ensures AllBy(later, w) && later != [] && later[0] == PullEnds(w, arrived)
    ensures var s, t := Run(workers, steps, limits), Run(workers, steps + later, limits);
            && t.workers[w].Pulling? && t.deliveries == s.deliveries + arrived
            && forall id :: |s.deliveries| <= id < |t.deliveries| ==> Acknowledged(t, id)
  {
    var s := Run(workers, steps, limits);
    var step := PullEnds(w, arrived);
    AfterOne(workers, steps, step, [], limits);
    var next := Next(s, step, limits);
    var rest := CycleCanFinish(workers, steps + [step], limits, w);
    later := [step] + rest;
    OneFirst(step, rest, w);
    AfterOne(workers, steps, step, rest, limits);
    DeliveriesKept(workers, steps + [step], rest, limits);
    forall id | |s.deliveries| <= id < |next.deliveries| ensures Acknowledged(Run(workers, steps + later, limits), id) {
      ArrivedIsOwed(s, w, arrived, limits, id);
    }
  }

  /** Whatever the servers do is possible: a request can end with any answer, an ack request
      can reach Pub/Sub or end badly, and a worker can fail or be cancelled at any time. */
  lemma NothingIsRuledOut(s: State, w: nat, i: nat, answer: Answer)
    requires w < |s.workers|
    ensures s.workers[w].Sending? && i < |s.workers[w].pending| ==> Enabled(s, SendEnds(w, i, answer))
    ensures s.workers[w].Acking? && i < |s.workers[w].chunks| ==>
              Enabled(s, AckArrives(w, i)) && Enabled(s, AckEnds(w, i, false))
    ensures s.workers[w].Pulling? || InCycle(s.workers[w]) ==> Enabled(s, Fail(w))
    ensures !s.workers[w].Stopped? ==> Enabled(s, Cancel(w))
  {
  }
}
