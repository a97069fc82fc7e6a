/** One push of a batch to Dynatrace with its retries: `_push_to_dynatrace` in
    src/lib/metric_ingest.py, over the counters of
    src/lib/sfm/for_metrics/metrics_definitions.py and the connectivity of
    src/lib/context.py. The server is a script of replies, one for each attempt. */
module PushRetry {
  import opened Wrappers
  import opened Connectivity
  import opened Time

  const MAX_PUSH_RETRIES: nat := 3
  const INITIAL_RETRY_DELAY: int := 1 * SECOND
  const MAX_RETRY_AFTER: int := 10 * SECOND

  /** What the push makes of an HTTP status code. */
  datatype Status = Unauthorized | Forbidden | NotFound | MethodNotAllowed | PayloadTooLarge | Retryable | Settled

  function StatusOf(code: int): Status {
    if code == 401 then Unauthorized
    else if code == 403 then Forbidden
    else if code == 404 then NotFound
    else if code == 405 then MethodNotAllowed
    else if code == 429 || code == 500 || code == 502 || code == 503 || code == 504 then Retryable
    else if code == 413 then PayloadTooLarge
    else Settled
  }

  // ---- The environment ----

  /** Times are integer microseconds. A header that parses to NaN makes a timer that compares
      with no other, so how long it takes to fire is up to the event loop. */
  datatype RetryAfter = NoHeader | Unparsable | After(delay: int) | NotANumber(fires: nat)

  /** The body read after the retry loop. `NotObject` is JSON without line counts to read,
      such as a list: reading it raises. A line count is absent here when the body holds
      something that cannot be added to a number, such as null; a missing one is zero. */
  datatype Body = NotJson | NotObject | LineCounts(linesOk: Option<int>, linesInvalid: Option<int>)

  datatype Reply = NetworkError | Response(code: int, retryAfter: RetryAfter, body: Body)
  {
    function Status(): Status
      requires Response?
    {
      StatusOf(code)
    }
  }

  /** The replies to the attempts of one batch; an attempt beyond them gets none. */
  datatype Script = Script(replies: seq<Reply>)
  {
    function At(attempt: nat): Reply {
      if attempt < |replies| then replies[attempt] else NetworkError
    }
  }

  // ---- Counters ----

  /** What a push adds to the self-monitoring counters of its project. */
  datatype Tally = Tally(requests: multiset<int>, linesOk: int, linesInvalid: int, linesDropped: int)
  {
    function Plus(other: Tally): Tally {
      Tally(requests + other.requests, linesOk + other.linesOk,
            linesInvalid + other.linesInvalid, linesDropped + other.linesDropped)
    }

    function Lines(): int { linesOk + linesInvalid + linesDropped }
  }

  const NOTHING: Tally := Tally(multiset{}, 0, 0, 0)

  function Requests(codes: multiset<int>): Tally { Tally(codes, 0, 0, 0) }
  function Request(code: int): Tally { Requests(multiset{code}) }
  function Drop(lines: nat): Tally { Tally(multiset{}, 0, 0, lines) }
  function DropAfter(code: int, lines: nat): Tally { Tally(multiset{code}, 0, 0, lines) }

  lemma PlusNothing(a: Tally)
    ensures a.Plus(NOTHING) == a
    ensures NOTHING.Plus(a) == a
  {
    assert a.requests + multiset{} == a.requests;
    assert multiset{} + a.requests == a.requests;
  }

  lemma PlusIsAssociative(a: Tally, b: Tally, c: Tally)
    ensures a.Plus(b).Plus(c) == a.Plus(b.Plus(c))
  {
    assert (a.requests + b.requests) + c.requests == a.requests + (b.requests + c.requests);
  }

  // ---- The retry machine, one step per resumed await ----

  /** The exceptions of a push: the fatal statuses, a body that is no object, and a body
      whose count of ok lines, or only that of invalid lines, cannot be added. */
  datatype PushError =
    | ExpiredTokenError | WrongTokenError | WrongUrlError
    | UnreadableBody | UnreadableOk | UnreadableInvalid
  {
    /** The exception comes with a mark on the connection. */
    predicate Severs() { ExpiredTokenError? || WrongTokenError? || WrongUrlError? }
  }

  datatype Ending = Dropped | Recorded | Raised(error: PushError)

  /** Where a push stands: waiting for the reply to an attempt, asleep after it, waiting
      for the body of a response, or over. */
  datatype Pc =
    | Posting(attempt: nat)
    | Sleeping(attempt: nat, delay: int)
    | Reading(attempt: nat, code: int, body: Body)
    | Finished(ending: Ending)

  datatype Step = Step(pc: Pc, tally: Tally, connectivity: Option<DynatraceConnectivity>)

  /** `_INITIAL_RETRY_DELAY_S * (2 ** attempt)`. */
  function Backoff(attempt: nat): int {
    if attempt == 0 then INITIAL_RETRY_DELAY else 2 * Backoff(attempt - 1)
  }

  /** The reply asks for a delay that is no number. */
  predicate IsStray(reply: Reply) {
    reply.Response? && reply.retryAfter.NotANumber?
  }

  /** The delay asked of `asyncio.sleep` after an attempt, or what a stray one comes to. */
  function Delay(attempt: nat, reply: Reply): int {
    if reply.NetworkError? then Backoff(attempt)
    else
      match reply.retryAfter
      case After(delay) => if delay <= MAX_RETRY_AFTER then delay else MAX_RETRY_AFTER
      case NotANumber(fires) => fires
      case _ => Backoff(attempt)
  }

  /** `asyncio.sleep` returns at once for a negative delay. */
  function Slept(delay: int): int {
    if delay < 0 then 0 else delay
  }

  predicate IsFatal(status: Status) {
    status.Unauthorized? || status.Forbidden? || status.NotFound? || status.MethodNotAllowed?
  }

  function FatalError(status: Status): PushError {
    if status.Unauthorized? then ExpiredTokenError else if status.Forbidden? then WrongTokenError else WrongUrlError
  }

  function FatalConnectivity(status: Status): DynatraceConnectivity {
    if status.Unauthorized? then ExpiredToken else if status.Forbidden? then WrongToken else WrongURL
  }

  function AfterReply(attempt: nat, reply: Reply, lines: nat): Step {
    match reply
    case NetworkError =>
      if attempt < MAX_PUSH_RETRIES then Step(Sleeping(attempt, Delay(attempt, reply)), NOTHING, None)
      else Step(Finished(Dropped), Drop(lines), None)
    case Response(code, _, body) =>
      var status := reply.Status();
      if IsFatal(status) then
        Step(Finished(Raised(FatalError(status))), Request(code), Some(FatalConnectivity(status)))
      else if status.Retryable? && attempt < MAX_PUSH_RETRIES then
        Step(Sleeping(attempt, Delay(attempt, reply)), Request(code), None)
      else if status.Retryable? || status.PayloadTooLarge? then
        Step(Finished(Dropped), DropAfter(code, lines), None)
      else Step(Reading(attempt, code, body), NOTHING, None)
  }

  function AfterBody(code: int, body: Body, lines: nat): Step {
    match body
    case NotJson => Step(Finished(Dropped), DropAfter(code, lines), None)
    case NotObject => Step(Finished(Raised(UnreadableBody)), NOTHING, None)
    case LineCounts(None, _) => Step(Finished(Raised(UnreadableOk)), Request(code), None)
    case LineCounts(Some(ok), None) => Step(Finished(Raised(UnreadableInvalid)), Tally(multiset{code}, ok, 0, 0), None)
    case LineCounts(Some(ok), Some(invalid)) => Step(Finished(Recorded), Tally(multiset{code}, ok, invalid, 0), None)
  }

  function Advance(pc: Pc, script: Script, lines: nat): Step
    requires !pc.Finished?
  {
    match pc
    case Posting(attempt) => AfterReply(attempt, script.At(attempt), lines)
    case Sleeping(attempt, _) => Step(Posting(attempt + 1), NOTHING, None)
    case Reading(_, code, body) => AfterBody(code, body, lines)
  }

  function AttemptsLeft(attempt: nat): nat {
    if attempt < MAX_PUSH_RETRIES then MAX_PUSH_RETRIES - attempt else 0
  }

  /** A bound on the steps a push still takes. */
  function Remaining(pc: Pc): nat {
    match pc
    case Posting(attempt) => 2 * AttemptsLeft(attempt) + 2
    case Sleeping(attempt, _) => 2 * AttemptsLeft(attempt + 1) + 3
    case Reading(_, _, _) => 1
    case Finished(_) => 0
  }

  lemma AdvanceDescends(pc: Pc, script: Script, lines: nat)
    requires !pc.Finished?
    ensures Remaining(Advance(pc, script, lines).pc) < Remaining(pc)
  {
  }

  // ---- What one push amounts to ----

  /** The reply makes the loop try again, if there are attempts left. */
  predicate Transient(reply: Reply) {
    reply.NetworkError? || reply.Status().Retryable?
  }

  function CodesOf(reply: Reply): multiset<int> {
    if reply.NetworkError? then multiset{} else multiset{reply.code}
  }

  /** The attempt whose reply ends the push: the first that is not transient, or the
      last one allowed. */
  function DecidingAttempt(script: Script, from: nat): nat
    requires from <= MAX_PUSH_RETRIES
    decreases MAX_PUSH_RETRIES - from
  {
    if from < MAX_PUSH_RETRIES && Transient(script.At(from)) then DecidingAttempt(script, from + 1) else from
  }

  /** The responses among the first replies, each counted once under its status; network
      errors count nothing. */
  function CountedBefore(script: Script, attempts: nat): multiset<int> {
    if attempts == 0 then multiset{}
    else CountedBefore(script, attempts - 1) + CodesOf(script.At(attempts - 1))
  }

  function SleptBefore(script: Script, attempts: nat): int {
    if attempts == 0 then 0
    else SleptBefore(script, attempts - 1) + Slept(Delay(attempts - 1, script.At(attempts - 1)))
  }

  /** What the deciding reply means for the batch. */
  datatype Verdict = Verdict(tally: Tally, connectivity: Option<DynatraceConnectivity>, ending: Ending)
  {
    function ConnectivityAfter(before: DynatraceConnectivity): DynatraceConnectivity {
      if connectivity.Some? then connectivity.value else before
    }
  }

  function VerdictOn(reply: Reply, lines: nat): Verdict {
    match reply
    case NetworkError => Verdict(Drop(lines), None, Dropped)
    case Response(code, _, body) =>
      var status := reply.Status();
      if IsFatal(status) then Verdict(Request(code), Some(FatalConnectivity(status)), Raised(FatalError(status)))
      else if status.Retryable? || status.PayloadTooLarge? || body.NotJson? then
        Verdict(DropAfter(code, lines), None, Dropped)
      else if body.NotObject? then Verdict(NOTHING, None, Raised(UnreadableBody))
      else if body.linesOk.None? then Verdict(Request(code), None, Raised(UnreadableOk))
      else if body.linesInvalid.None? then
        Verdict(Tally(multiset{code}, body.linesOk.value, 0, 0), None, Raised(UnreadableInvalid))
      else Verdict(Tally(multiset{code}, body.linesOk.value, body.linesInvalid.value, 0), None, Recorded)
  }

  /** Everything one push does. */
  datatype PushResult = PushResult(posts: nat, slept: int, tally: Tally, verdict: Verdict)

  function Push(script: Script, lines: nat): PushResult {
    var last := DecidingAttempt(script, 0);
    var verdict := VerdictOn(script.At(last), lines);
    PushResult(last + 1, SleptBefore(script, last),
               verdict.tally.(requests := CountedBefore(script, last) + verdict.tally.requests), verdict)
  }

  /** The first replies are all transient. */
  predicate FailedBefore(script: Script, attempts: nat) {
    attempts == 0 || (FailedBefore(script, attempts - 1) && Transient(script.At(attempts - 1)))
  }

  /** A reply ends the push when all before it were transient, and it is not or is the
      reply to the last attempt allowed. */
  predicate Decides(script: Script, attempt: nat) {
    && attempt <= MAX_PUSH_RETRIES && FailedBefore(script, attempt)
    && (attempt < MAX_PUSH_RETRIES ==> !Transient(script.At(attempt)))
  }

  lemma {:induction false} FailedBeforeIsPrefix(script: Script, attempts: nat, k: nat)
    requires k < attempts && FailedBefore(script, attempts)
    ensures Transient(script.At(k))
  {
    if k < attempts - 1 { FailedBeforeIsPrefix(script, attempts - 1, k); }
  }

  lemma {:induction false} DecidingAttemptDecides(script: Script, from: nat)
    requires from <= MAX_PUSH_RETRIES && FailedBefore(script, from)
    ensures Decides(script, DecidingAttempt(script, from))
    decreases MAX_PUSH_RETRIES - from
  {
    if from < MAX_PUSH_RETRIES && Transient(script.At(from)) { DecidingAttemptDecides(script, from + 1); }
  }

  /** Exactly one attempt decides. */
  lemma DecidesIff(script: Script, attempt: nat)
    ensures Decides(script, attempt) <==> attempt == DecidingAttempt(script, 0)
  {
    DecidingAttemptDecides(script, 0);
    var last := DecidingAttempt(script, 0);
    if Decides(script, attempt) {
      if attempt < last { FailedBeforeIsPrefix(script, last, attempt); }
      if last < attempt { FailedBeforeIsPrefix(script, attempt, last); }
    }
  }

  // ---- What holds for every script ----

  lemma DelayIsBounded(attempt: nat, reply: Reply)
    requires attempt < MAX_PUSH_RETRIES
    ensures if IsStray(reply) then Slept(Delay(attempt, reply)) == reply.retryAfter.fires
            else 0 <= Slept(Delay(attempt, reply)) <= MAX_RETRY_AFTER
  {
    assert Backoff(1) == 2 * SECOND && Backoff(2) == 4 * SECOND;
  }

  /** The sleep after the first attempts that stray delays come to. */
  function StrayBefore(script: Script, attempts: nat): nat {
    if attempts == 0 then 0
    else
      var last := script.At(attempts - 1);
      StrayBefore(script, attempts - 1) + if IsStray(last) then last.retryAfter.fires else 0
  }

  lemma {:induction false} SleepIsBounded(script: Script, attempts: nat)
    requires attempts <= MAX_PUSH_RETRIES
    ensures 0 <= SleptBefore(script, attempts) - StrayBefore(script, attempts) <= attempts * MAX_RETRY_AFTER
  {
    if attempts > 0 {
      SleepIsBounded(script, attempts - 1);
      DelayIsBounded(attempts - 1, script.At(attempts - 1));
    }
  }

  lemma {:induction false} NoStrayBefore(script: Script, attempts: nat)
    requires forall reply <- script.replies :: !IsStray(reply)
    ensures StrayBefore(script, attempts) == 0
  {
    if attempts > 0 {
      NoStrayBefore(script, attempts - 1);
      if attempts - 1 < |script.replies| { assert script.replies[attempts - 1] in script.replies; }
    }
  }

  /** The attempts among the first ones that were answered with this code. */
  function AnsweredWith(script: Script, attempts: nat, code: int): set<nat> {
    set k: nat | k < attempts && script.At(k).Response? && script.At(k).code == code
  }

  lemma AnsweredMore(script: Script, attempts: nat, code: int)
    ensures var last := script.At(attempts);
            |AnsweredWith(script, attempts + 1, code)|
            == |AnsweredWith(script, attempts, code)| + if last.Response? && last.code == code then 1 else 0
  {
    var last := script.At(attempts);
    var before := AnsweredWith(script, attempts, code);
    if last.Response? && last.code == code {
      assert AnsweredWith(script, attempts + 1, code) == before + {attempts};
    } else {
      assert AnsweredWith(script, attempts + 1, code) == before;
    }
  }

  lemma CountOfOne(counted: multiset<int>, reply: Reply, code: int)
    ensures (counted + CodesOf(reply))[code] == counted[code] + if reply.Response? && reply.code == code then 1 else 0
  {
  }

  /** Each response is counted once, under its own status code. */
  lemma {:induction false} EachResponseCountedOnce(script: Script, attempts: nat, code: int)
    ensures CountedBefore(script, attempts)[code] == |AnsweredWith(script, attempts, code)|
  {
    if attempts > 0 {
      EachResponseCountedOnce(script, attempts - 1, code);
      AnsweredMore(script, attempts - 1, code);
      CountOfOne(CountedBefore(script, attempts - 1), script.At(attempts - 1), code);
    }
  }

  /** The response whose body is asked for: it is neither fatal, nor worth retrying, nor too
      large. */
  predicate AwaitsBody(reply: Reply) {
    reply.Response? && reply.code !in {401, 403, 404, 405, 413, 429, 500, 502, 503, 504}
  }

  /** The one kind of response that is not counted: its body is asked for, and is JSON but
      no object. */
  predicate IsUncounted(reply: Reply) {
    AwaitsBody(reply) && reply.body.NotObject?
  }

  lemma VerdictCountsResponse(reply: Reply, lines: nat)
    ensures VerdictOn(reply, lines).tally.requests == if IsUncounted(reply) then multiset{} else CodesOf(reply)
  {
  }

  /** For every script of replies: one to four posts, all but the last of them failed in a
      way worth retrying; every response received is counted once under its code, except an
      uncounted last one; at most ten seconds of sleep between two posts, on top of what
      stray delays come to, which nothing bounds. */
  lemma RetryAccounting(script: Script, lines: nat)
    ensures var push := Push(script, lines);
            var last := script.At(push.posts - 1);
            && 1 <= push.posts <= 4
            && FailedBefore(script, push.posts - 1)
            && (push.posts <= 3 ==> !Transient(last))
            && push.verdict == VerdictOn(last, lines)
            && push.tally.requests == CountedBefore(script, if IsUncounted(last) then push.posts - 1 else push.posts)
            && 0 <= push.slept - StrayBefore(script, push.posts - 1) <= (push.posts - 1) * (10 * SECOND) <= 30 * SECOND
  {
    var last := DecidingAttempt(script, 0);
    var counted, reply := CountedBefore(script, last), script.At(last);
    DecidesIff(script, last);
    PushIs(script, lines, last);
    SleepIsBounded(script, last);
    VerdictCountsResponse(reply, lines);
    CountedMore(script, last);
    AddNothing(counted);
    assert last * MAX_RETRY_AFTER <= MAX_PUSH_RETRIES * MAX_RETRY_AFTER;
  }

  /** There is a further post exactly when all replies so far were network errors or had one
      of the five codes worth retrying. */
  lemma PostsAgainIff(script: Script, lines: nat, k: nat)
    requires k < 3
    ensures Push(script, lines).posts > k + 1
            <==> forall j :: 0 <= j <= k ==>
                   script.At(j).NetworkError? || script.At(j).code in {429, 500, 502, 503, 504}
  {
    var last := DecidingAttempt(script, 0);
    DecidesIff(script, last);
    forall j | 0 <= j < last ensures Transient(script.At(j)) { FailedBeforeIsPrefix(script, last, j); }
    if last <= k { assert !Transient(script.At(last)); }
  }

  /** The sleep after a failed attempt: 1, 2 or 4 seconds, or what the header asks for, within
      0 and 10 seconds. */
  lemma SleepAfter(attempt: nat, reply: Reply)
    requires attempt < 3
    ensures var slept := Slept(Delay(attempt, reply));
            if reply.Response? && reply.retryAfter.After? then
              slept == if reply.retryAfter.delay <= 0 then 0
                       else if reply.retryAfter.delay <= 10 * SECOND then reply.retryAfter.delay else 10 * SECOND
            else if reply.Response? && reply.retryAfter.NotANumber? then slept == reply.retryAfter.fires
            else slept == if attempt == 0 then 1 * SECOND else if attempt == 1 then 2 * SECOND else 4 * SECOND
  {
    assert Backoff(0) == SECOND && Backoff(1) == 2 * SECOND && Backoff(2) == 4 * SECOND;
  }

  /** A push sleeps once between two posts. */
  lemma SleepIsSum(script: Script, lines: nat)
    ensures var push := Push(script, lines);
            push.slept
            == (if push.posts > 1 then Slept(Delay(0, script.At(0))) else 0)
               + (if push.posts > 2 then Slept(Delay(1, script.At(1))) else 0)
               + (if push.posts > 3 then Slept(Delay(2, script.At(2))) else 0)
  {
    RetryAccounting(script, lines);
    assert SleptBefore(script, 1) == Slept(Delay(0, script.At(0)));
    assert SleptBefore(script, 2) == SleptBefore(script, 1) + Slept(Delay(1, script.At(1)));
    assert SleptBefore(script, 3) == SleptBefore(script, 2) + Slept(Delay(2, script.At(2)));
  }

  /** How the deciding reply ends a push. All lines are dropped exactly for a network error,
      a code worth retrying, 413, and a body that is no JSON; both counts are recorded exactly
      for a body with both; everything else raises. */
  lemma EndingIff(script: Script, lines: nat)
    ensures var ending, last := Push(script, lines).verdict.ending, script.At(DecidingAttempt(script, 0));
            && (ending.Dropped?
                <==> last.NetworkError? || last.code in {413, 429, 500, 502, 503, 504}
                     || (last.code !in {401, 403, 404, 405} && last.body.NotJson?))
            && (ending.Recorded?
                <==> last.Response? && last.code !in {401, 403, 404, 405, 413, 429, 500, 502, 503, 504}
                     && last.body.LineCounts? && last.body.linesOk.Some? && last.body.linesInvalid.Some?)
  {
  }

  /** Which fatal code leaves which connectivity and raises which exception; nothing else
      touches the connectivity. */
  lemma FatalEnds(script: Script, lines: nat)
    ensures var verdict, last := Push(script, lines).verdict, script.At(DecidingAttempt(script, 0));
            if last.NetworkError? || last.code !in {401, 403, 404, 405} then verdict.connectivity == None
            else
              var connectivity := if last.code == 401 then ExpiredToken
                                  else if last.code == 403 then WrongToken else WrongURL;
              var error := if last.code == 401 then ExpiredTokenError
                           else if last.code == 403 then WrongTokenError else WrongUrlError;
              verdict.connectivity == Some(connectivity) && verdict.ending == Raised(error)
  {
  }

  /** Without a stray delay a push sleeps at most thirty seconds in all. */
  lemma TotalSleepIsBounded(script: Script, lines: nat)
    requires forall reply <- script.replies :: !IsStray(reply)
    ensures 0 <= Push(script, lines).slept <= 30 * SECOND
  {
    var last := DecidingAttempt(script, 0);
    DecidesIff(script, last);
    SleepIsBounded(script, last);
    NoStrayBefore(script, last);
  }

  lemma OneMoreDiffers(codes: multiset<int>, code: int)
    ensures codes + multiset{code} != codes
  {
    assert (codes + multiset{code})[code] == codes[code] + 1;
  }

  lemma CountedMore(script: Script, attempts: nat)
    ensures CountedBefore(script, attempts + 1) == CountedBefore(script, attempts) + CodesOf(script.At(attempts))
  {
  }

  lemma AddNothing(codes: multiset<int>)
    ensures codes + multiset{} == codes
  {
  }

  lemma DecidedPosts(script: Script, lines: nat, last: nat, reply: Reply)
    requires Decides(script, last) && reply == script.At(last)
    ensures CountedBefore(script, Push(script, lines).posts) == CountedBefore(script, last) + CodesOf(reply)
    ensures Push(script, lines).tally.requests
            == CountedBefore(script, last) + if IsUncounted(reply) then multiset{} else CodesOf(reply)
  {
    PushIs(script, lines, last);
    CountedMore(script, last);
    VerdictCountsResponse(reply, lines);
  }

  /** A response goes uncounted exactly when the deciding one is of that kind. */
  lemma AllCountedIff(script: Script, lines: nat)
    ensures Push(script, lines).tally.requests == CountedBefore(script, Push(script, lines).posts)
            <==> !IsUncounted(script.At(DecidingAttempt(script, 0)))
  {
    var last := DecidingAttempt(script, 0);
    var counted, reply := CountedBefore(script, last), script.At(last);
    DecidesIff(script, last);
    DecidedPosts(script, lines, last, reply);
    AddNothing(counted);
    if IsUncounted(reply) { OneMoreDiffers(counted, reply.code); }
  }

  /** A push answered at once with status 200 and a list for a body: one post, one response,
      nothing counted. */
  lemma UncountedResponse(script: Script, lines: nat)
    requires script == Script([Response(200, NoHeader, NotObject)])
    ensures AnsweredWith(script, 1, 200) == {0}
    ensures Push(script, lines) == PushResult(1, 0, NOTHING, Verdict(NOTHING, None, Raised(UnreadableBody)))
  {
    assert script.At(0) == Response(200, NoHeader, NotObject);
    PushIs(script, lines, 0);
  }

  lemma PushIs(script: Script, lines: nat, attempt: nat)
    requires Decides(script, attempt)
    ensures Push(script, lines).posts == attempt + 1 && Push(script, lines).slept == SleptBefore(script, attempt)
    ensures Push(script, lines).verdict == VerdictOn(script.At(attempt), lines)
    ensures Push(script, lines).tally
            == VerdictOn(script.At(attempt), lines).tally
                 .(requests := CountedBefore(script, attempt) + VerdictOn(script.At(attempt), lines).tally.requests)
  {
    DecidesIff(script, attempt);
  }

  /** The one kind of response whose ok lines are counted before it raises: its body is
      asked for, and of its two counts only that of invalid lines cannot be added. */
  predicate IsHalfCounted(reply: Reply) {
    && AwaitsBody(reply) && reply.body.LineCounts?
    && reply.body.linesOk.Some? && reply.body.linesInvalid.None?
  }

  /** A response with two counts that can be added. */
  predicate IsCounted(reply: Reply) {
    && AwaitsBody(reply) && reply.body.LineCounts?
    && reply.body.linesOk.Some? && reply.body.linesInvalid.Some?
  }

  predicate CountsLines(tally: Tally, ok: int, invalid: int, dropped: int) {
    tally.linesOk == ok && tally.linesInvalid == invalid && tally.linesDropped == dropped
  }

  /** The lines counted, by how a push ended and its last reply. */
  predicate AccountsLines(tally: Tally, ending: Ending, last: Reply, lines: nat) {
    && (ending.Recorded? <==> IsCounted(last))
    && match ending
       case Dropped => CountsLines(tally, 0, 0, lines)
       case Recorded => CountsLines(tally, last.body.linesOk.value, last.body.linesInvalid.value, 0)
       case Raised(_) => CountsLines(tally, if IsHalfCounted(last) then last.body.linesOk.value else 0, 0, 0)
  }

  lemma VerdictAccountsLines(reply: Reply, lines: nat)
    ensures AccountsLines(VerdictOn(reply, lines).tally, VerdictOn(reply, lines).ending, reply, lines)
    ensures IsHalfCounted(reply) ==> VerdictOn(reply, lines).ending.Raised?
  {
  }

  /** What happens to the lines of a batch is decided by the last reply: its two counts are
      recorded; or all lines are dropped; or the push raises, with no line counted but the
      ok lines of a half-counted response. */
  lemma LinesAccounting(script: Script, lines: nat)
    ensures var push := Push(script, lines);
            AccountsLines(push.tally, push.verdict.ending, script.At(push.posts - 1), lines)
  {
    VerdictAccountsLines(script.At(DecidingAttempt(script, 0)), lines);
  }

  /** A push that raises has counted lines exactly when the deciding response is half-counted
      with a count of ok lines other than zero. */
  lemma RaiseCountsLinesIff(script: Script, lines: nat)
    ensures var push, last := Push(script, lines), script.At(DecidingAttempt(script, 0));
            push.verdict.ending.Raised? && push.tally.Lines() != 0
            <==> IsHalfCounted(last) && last.body.linesOk != Some(0)
  {
    VerdictAccountsLines(script.At(DecidingAttempt(script, 0)), lines);
  }

  /** Such a push: five ok lines and null for the invalid ones are answered with status 200. */
  lemma HalfCountedResponse(script: Script, lines: nat)
    requires script == Script([Response(200, NoHeader, LineCounts(Some(5), None))])
    ensures Push(script, lines).verdict.ending == Raised(UnreadableInvalid)
    ensures Push(script, lines).tally == Tally(multiset{200}, 5, 0, 0)
  {
    assert script.At(0) == Response(200, NoHeader, LineCounts(Some(5), None));
    PushIs(script, lines, 0);
  }

  /** A push marks the connection as broken exactly when the deciding response is a 401, 403,
      404 or 405. */
  lemma ConnectivityBreaksIff(script: Script, lines: nat, before: DynatraceConnectivity)
    requires before == Ok
    ensures var last := script.At(DecidingAttempt(script, 0));
            Push(script, lines).verdict.ConnectivityAfter(before) != Ok
            <==> last.Response? && (last.code == 401 || last.code == 403 || last.code == 404 || last.code == 405)
  {
  }

  /** The server accounts for every line of a batch it answers with counts. */
  predicate Honest(script: Script, lines: nat) {
    forall reply <- script.replies :: reply.Response? && reply.body.LineCounts? ==> Accounts(reply.body, lines)
  }

  predicate Accounts(body: Body, lines: nat)
    requires body.LineCounts?
  {
    body.linesOk.Some? && body.linesInvalid.Some? && body.linesOk.value + body.linesInvalid.value == lines
  }

  lemma VerdictConservesLines(script: Script, attempt: nat, lines: nat)
    requires Honest(script, lines)
    ensures VerdictOn(script.At(attempt), lines).tally.Lines()
            == if VerdictOn(script.At(attempt), lines).ending.Raised? then 0 else lines
  {
    if attempt < |script.replies| { assert script.replies[attempt] in script.replies; }
  }

  /** With such a server every line is counted once, unless the push raises. */
  lemma PushConservesLines(script: Script, lines: nat)
    requires Honest(script, lines)
    ensures Push(script, lines).tally.Lines() == if Push(script, lines).verdict.ending.Raised? then 0 else lines
  {
    VerdictConservesLines(script, DecidingAttempt(script, 0), lines);
  }

  // ---- The step machine does exactly that ----

  /** How far a push has come, with what it did on the way. */
  datatype Progress = Progress(pc: Pc, posts: nat, slept: int, tally: Tally)

  const START: Progress := Progress(Posting(0), 0, 0, NOTHING)

  function Proceed(progress: Progress, script: Script, lines: nat): Progress
    requires !progress.pc.Finished?
  {
    var step := Advance(progress.pc, script, lines);
    Progress(step.pc,
             progress.posts + (if progress.pc.Posting? then 1 else 0),
             progress.slept + (if progress.pc.Sleeping? then Slept(progress.pc.delay) else 0),
             progress.tally.Plus(step.tally))
  }

  /** Every state a push can be in is one on the way to `Push`. */
  predicate OnTrack(progress: Progress, script: Script, lines: nat) {
    match progress.pc
    case Posting(a) =>
      && a <= MAX_PUSH_RETRIES && FailedBefore(script, a)
      && progress == Progress(Posting(a), a, SleptBefore(script, a), Requests(CountedBefore(script, a)))
    case Sleeping(a, delay) =>
      && a < MAX_PUSH_RETRIES && FailedBefore(script, a + 1) && delay == Delay(a, script.At(a))
      && progress == Progress(Sleeping(a, delay), a + 1, SleptBefore(script, a), Requests(CountedBefore(script, a + 1)))
    case Reading(a, code, body) =>
      && a <= MAX_PUSH_RETRIES && FailedBefore(script, a) && AwaitsBody(script.At(a))
      && code == script.At(a).code && body == script.At(a).body
      && progress == Progress(Reading(a, code, body), a + 1, SleptBefore(script, a), Requests(CountedBefore(script, a)))
    case Finished(ending) =>
      var push := Push(script, lines);
      progress == Progress(Finished(push.verdict.ending), push.posts, push.slept, push.tally)
  }

  lemma TrackRetry(progress: Progress, script: Script, lines: nat)
    requires OnTrack(progress, script, lines) && progress.pc.Posting?
    requires progress.pc.attempt < MAX_PUSH_RETRIES && Transient(script.At(progress.pc.attempt))
    ensures OnTrack(Proceed(progress, script, lines), script, lines)
  {
    var a := progress.pc.attempt;
    var reply := script.At(a);
    assert AfterReply(a, reply, lines) == Step(Sleeping(a, Delay(a, reply)), Requests(CodesOf(reply)), None);
    assert Proceed(progress, script, lines)
        == Progress(Sleeping(a, Delay(a, reply)), a + 1, SleptBefore(script, a),
                    Requests(CountedBefore(script, a) + CodesOf(reply)));
  }

  lemma TrackToBody(progress: Progress, script: Script, lines: nat)
    requires OnTrack(progress, script, lines) && progress.pc.Posting?
    requires AwaitsBody(script.At(progress.pc.attempt))
    ensures OnTrack(Proceed(progress, script, lines), script, lines)
  {
    PlusNothing(progress.tally);
  }

  /** The push is over at the deciding attempt, with what had been counted before and the
      verdict on its reply. */
  lemma EndsOnTrack(script: Script, lines: nat, a: nat, progress: Progress)
    requires Decides(script, a)
    requires var verdict := VerdictOn(script.At(a), lines);
             progress == Progress(Finished(verdict.ending), a + 1, SleptBefore(script, a),
                                  Requests(CountedBefore(script, a)).Plus(verdict.tally))
    ensures OnTrack(progress, script, lines)
  {
    PushIs(script, lines, a);
  }

  lemma TrackToEnd(progress: Progress, script: Script, lines: nat)
    requires OnTrack(progress, script, lines) && progress.pc.Posting?
    requires Decides(script, progress.pc.attempt) && !AwaitsBody(script.At(progress.pc.attempt))
    ensures OnTrack(Proceed(progress, script, lines), script, lines)
  {
    var a := progress.pc.attempt;
    var verdict := VerdictOn(script.At(a), lines);
    assert AfterReply(a, script.At(a), lines) == Step(Finished(verdict.ending), verdict.tally, verdict.connectivity);
    EndsOnTrack(script, lines, a, Proceed(progress, script, lines));
  }

  lemma TrackSleep(progress: Progress, script: Script, lines: nat)
    requires OnTrack(progress, script, lines) && progress.pc.Sleeping?
    ensures OnTrack(Proceed(progress, script, lines), script, lines)
  {
    var a := progress.pc.attempt;
    PlusNothing(progress.tally);
    assert Proceed(progress, script, lines)
        == Progress(Posting(a + 1), a + 1, SleptBefore(script, a) + Slept(progress.pc.delay),
                    Requests(CountedBefore(script, a + 1)));
  }

  lemma TrackBody(progress: Progress, script: Script, lines: nat)
    requires OnTrack(progress, script, lines) && progress.pc.Reading?
    ensures OnTrack(Proceed(progress, script, lines), script, lines)
  {
    var a := progress.pc.attempt;
    var verdict := VerdictOn(script.At(a), lines);
    assert AfterBody(progress.pc.code, progress.pc.body, lines) == Step(Finished(verdict.ending), verdict.tally, None);
    EndsOnTrack(script, lines, a, Proceed(progress, script, lines));
  }

  /** Every step stays on the way to `Push`, so a push that is over did what `Push` says. */
  lemma TrackStep(progress: Progress, script: Script, lines: nat)
    requires OnTrack(progress, script, lines) && !progress.pc.Finished?
    ensures OnTrack(Proceed(progress, script, lines), script, lines)
  {
    if progress.pc.Posting? {
      var a := progress.pc.attempt;
      if AwaitsBody(script.At(a)) {
        TrackToBody(progress, script, lines);
      } else if a < MAX_PUSH_RETRIES && Transient(script.At(a)) {
        TrackRetry(progress, script, lines);
      } else {
        TrackToEnd(progress, script, lines);
      }
    } else if progress.pc.Sleeping? {
      TrackSleep(progress, script, lines);
    } else {
      TrackBody(progress, script, lines);
    }
  }

  // ---- The context and its counters ----

  function CountOf(counter: map<string, int>, project: string): int {
    if project in counter then counter[project] else 0
  }

  /** `value[project] = value.get(project, 0) + lines`. */
  function Bumped(counter: map<string, int>, project: string, lines: int): map<string, int> {
    counter[project := CountOf(counter, project) + lines]
  }

  /** A counter after a push: updated only by an ending that counts those lines. */
  function Updated(counter: map<string, int>, project: string, counts: bool, lines: int): map<string, int> {
    if counts then Bumped(counter, project, lines) else counter
  }

  /** The count of ok lines has been added, whatever came after. */
  predicate CountsOk(ending: Ending) {
    ending.Recorded? || ending == Raised(UnreadableInvalid)
  }

  /** Everything a push can change on a context; `posted` and `slept` record the requests
      sent and the time slept. */
  datatype Books = Books(requests: multiset<int>, linesOk: map<string, int>, linesInvalid: map<string, int>,
                         linesDropped: map<string, int>, connectivity: DynatraceConnectivity, posted: nat, slept: int)
  {
    /** After attempts that did not decide. */
    function Tried(attempts: nat, sleep: int, codes: multiset<int>): Books {
      this.(requests := requests + codes, posted := posted + attempts, slept := slept + sleep)
    }

    function Posted(): Books { this.(posted := posted + 1) }

    function Judged(project: string, verdict: Verdict): Books {
      Books(requests + verdict.tally.requests,
            Updated(linesOk, project, CountsOk(verdict.ending), verdict.tally.linesOk),
            Updated(linesInvalid, project, verdict.ending.Recorded?, verdict.tally.linesInvalid),
            Updated(linesDropped, project, verdict.ending.Dropped?, verdict.tally.linesDropped),
            verdict.ConnectivityAfter(connectivity), posted, slept)
    }

    /** After one turn of the retry loop. */
    function AfterTurn(project: string, lines: nat, attempt: nat, reply: Reply): Books {
      match TurnOn(attempt, reply, lines)
      case Continue => Tried(1, Slept(Delay(attempt, reply)), CodesOf(reply))
      case Break => Posted()
      case Return(_) => Posted().Judged(project, VerdictOn(reply, lines))
    }

    function After(project: string, push: PushResult): Books {
      Judged(project, push.verdict.(tally := push.tally)).(posted := posted + push.posts, slept := slept + push.slept)
    }

    /** What the counters say of one project, and of the requests. */
    function TallyOf(project: string): Tally {
      Tally(requests, CountOf(linesOk, project), CountOf(linesInvalid, project), CountOf(linesDropped, project))
    }
  }

  /** An ending that does not count lines of some kind has none in its tally. */
  predicate TalliesEnding(push: PushResult) {
    && (!CountsOk(push.verdict.ending) ==> push.tally.linesOk == 0)
    && (!push.verdict.ending.Recorded? ==> push.tally.linesInvalid == 0)
    && (!push.verdict.ending.Dropped? ==> push.tally.linesDropped == 0)
  }

  lemma PushTalliesEnding(script: Script, lines: nat)
    ensures TalliesEnding(Push(script, lines))
  {
  }

  /** The books of a push say what its tally says: the project's tally grows by it, and of
      every other project only the shared request counts move. */
  lemma BooksFollowTally(books: Books, project: string, push: PushResult, other: string)
    requires TalliesEnding(push)
    ensures books.After(project, push).TallyOf(other)
            == books.TallyOf(other).Plus(if other == project then push.tally else Requests(push.tally.requests))
  {
  }

  lemma TriedOnce(books: Books, script: Script, attempt: nat)
    ensures var reply := script.At(attempt);
            books.Tried(attempt, SleptBefore(script, attempt), CountedBefore(script, attempt))
                 .Tried(1, Slept(Delay(attempt, reply)), CodesOf(reply))
            == books.Tried(attempt + 1, SleptBefore(script, attempt + 1), CountedBefore(script, attempt + 1))
  {
    var counted, status := CountedBefore(script, attempt), CodesOf(script.At(attempt));
    assert (books.requests + counted) + status == books.requests + (counted + status);
  }

  lemma TriedThenJudged(books: Books, project: string, script: Script, lines: nat, attempt: nat)
    requires Decides(script, attempt)
    ensures var tried := books.Tried(attempt, SleptBefore(script, attempt), CountedBefore(script, attempt));
            books.After(project, Push(script, lines))
                == tried.Posted().Judged(project, VerdictOn(script.At(attempt), lines))
    ensures VerdictOn(script.At(attempt), lines) == Push(script, lines).verdict
  {
    DecidesIff(script, attempt);
    CountedThenJudged(books, project, attempt, SleptBefore(script, attempt), CountedBefore(script, attempt),
                      VerdictOn(script.At(attempt), lines));
  }

  lemma CountedThenJudged(books: Books, project: string, posts: nat, sleep: int, counted: multiset<int>,
                          verdict: Verdict)
    ensures var tally := verdict.tally.(requests := counted + verdict.tally.requests);
            books.Tried(posts, sleep, counted).Posted().Judged(project, verdict)
            == books.After(project, PushResult(posts + 1, sleep, tally, verdict))
  {
    var tally := verdict.tally.(requests := counted + verdict.tally.requests);
    assert (books.requests + counted) + verdict.tally.requests == books.requests + (counted + verdict.tally.requests);
    var before := books.Tried(posts, sleep, counted).Posted().Judged(project, verdict);
    var after := books.After(project, PushResult(posts + 1, sleep, tally, verdict));
    assert before.requests == after.requests;
    assert before.linesOk == after.linesOk;
    assert before.linesInvalid == after.linesInvalid;
    assert before.linesDropped == after.linesDropped;
  }

  /** How one turn of the retry loop ends. */
  datatype Turn = Continue | Break | Return(ending: Ending)

  function TurnOn(attempt: nat, reply: Reply, lines: nat): Turn {
    if attempt < MAX_PUSH_RETRIES && Transient(reply) then Continue
    else if reply.Response? && !IsFatal(reply.Status()) then Break
    else Return(VerdictOn(reply, lines).ending)
  }

  /** The loop goes on exactly after an attempt that does not decide. */
  lemma TurnDecides(script: Script, attempt: nat, lines: nat)
    requires attempt <= MAX_PUSH_RETRIES && FailedBefore(script, attempt)
    ensures if TurnOn(attempt, script.At(attempt), lines).Continue?
            then attempt < MAX_PUSH_RETRIES && FailedBefore(script, attempt + 1)
            else Decides(script, attempt)
  {
  }

  class MetricsContext {
    const metricIngestBatchSize: int
    const metricIngestConcurrentPushes: int
    var requestCount: map<int, nat>
    var linesOkCount: map<string, int>
    var linesInvalidCount: map<string, int>
    var linesDroppedCount: map<string, int>
    var dynatraceConnectivity: DynatraceConnectivity
    ghost var requests: multiset<int>
    ghost var posted: nat
    ghost var slept: int

    /** The dictionary of request counts is the multiset of the status codes counted. */
    ghost predicate Valid()
      reads this`requests, this`requestCount
    {
      forall code :: requests[code] == if code in requestCount then requestCount[code] else 0
    }

    ghost function Account(): Books
      reads this
    {
      Books(requests, linesOkCount, linesInvalidCount, linesDroppedCount, dynatraceConnectivity, posted, slept)
    }

    constructor (batchSize: int, concurrentPushes: int)
      ensures Valid() && Account() == Books(multiset{}, map[], map[], map[], Ok, 0, 0)
      ensures metricIngestBatchSize == batchSize && metricIngestConcurrentPushes == concurrentPushes
    {
      metricIngestBatchSize := batchSize;
      metricIngestConcurrentPushes := concurrentPushes;
      requestCount, linesOkCount, linesInvalidCount, linesDroppedCount := map[], map[], map[], map[];
      dynatraceConnectivity := Ok;
      requests, posted, slept := multiset{}, 0, 0;
    }

    /** `SFMMetricDynatraceRequestCount.increment`. */
    method Increment(code: int)
      requires Valid()
      modifies this`requestCount, this`requests
      ensures Valid() && requests == old(requests) + multiset{code}
    {
      requestCount := requestCount[code := (if code in requestCount then requestCount[code] else 0) + 1];
      requests := requests + multiset{code};
    }

    /** A status that ends the push with an exception and marks the connection. */
    method Fail(project: string, lines: nat, reply: Reply, connectivity: DynatraceConnectivity, error: PushError)
      returns (turn: Turn)
      requires Valid() && reply.Response? && IsFatal(reply.Status())
      requires connectivity == FatalConnectivity(reply.Status()) && error == FatalError(reply.Status())
      modifies this
      ensures Valid() && turn == Return(VerdictOn(reply, lines).ending)
      ensures Account() == old(Account()).Judged(project, VerdictOn(reply, lines))
    {
      Increment(reply.code);
      dynatraceConnectivity := connectivity;
      return Return(Raised(error));
    }

    method HandleFatal(project: string, lines: nat, reply: Reply) returns (turn: Turn)
      requires Valid() && reply.Response? && IsFatal(reply.Status())
      modifies this
      ensures Valid() && turn == Return(VerdictOn(reply, lines).ending)
      ensures Account() == old(Account()).Judged(project, VerdictOn(reply, lines))
    {
      if reply.Status().Unauthorized? {
        turn := Fail(project, lines, reply, ExpiredToken, ExpiredTokenError);
      } else if reply.Status().Forbidden? {
        turn := Fail(project, lines, reply, WrongToken, WrongTokenError);
      } else {
        turn := Fail(project, lines, reply, WrongURL, WrongUrlError);
      }
    }

    /** Count a retryable status and sleep before the next attempt. */
    method Retry(attempt: nat, reply: Reply)
      requires Valid() && reply.Response?
      modifies this
      ensures Valid() && Account() == old(Account()).Tried(0, Slept(Delay(attempt, reply)), CodesOf(reply))
    {
      Increment(reply.code);
      slept := slept + Slept(Delay(attempt, reply));
    }

    /** The `except` branch of the retry loop. */
    method HandleNetworkError(project: string, lines: nat, attempt: nat) returns (turn: Turn)
      requires Valid() && attempt <= MAX_PUSH_RETRIES
      modifies this
      ensures Valid() && turn == TurnOn(attempt, NetworkError, lines)
      ensures Account() == old(Account()).AfterTurn(project, lines, attempt, NetworkError)
    {
      posted := posted + 1;
      assert requests == requests + multiset{};
      if attempt < MAX_PUSH_RETRIES {
        slept := slept + Slept(Delay(attempt, NetworkError));
        return Continue;
      }
      linesDroppedCount := Bumped(linesDroppedCount, project, lines);
      return Return(Dropped);
    }

    /** One turn of the retry loop that got a response: go on, leave the loop, or raise. */
    method HandleResponse(project: string, lines: nat, attempt: nat, ingestResponse: Reply) returns (turn: Turn)
      requires Valid() && attempt <= MAX_PUSH_RETRIES && ingestResponse.Response?
      modifies this
      ensures Valid() && turn == TurnOn(attempt, ingestResponse, lines)
      ensures Account() == old(Account()).AfterTurn(project, lines, attempt, ingestResponse)
    {
      posted := posted + 1;
      var status := ingestResponse.Status();
      if IsFatal(status) {
        turn := HandleFatal(project, lines, ingestResponse);
        return;
      }
      if status.Retryable? && attempt < MAX_PUSH_RETRIES {
        Retry(attempt, ingestResponse);
        return Continue;
      }
      return Break;
    }

    /** One turn of the retry loop. */
    method TakeTurn(project: string, lines: nat, attempt: nat, reply: Reply) returns (turn: Turn)
      requires Valid() && attempt <= MAX_PUSH_RETRIES
      modifies this
      ensures Valid() && turn == TurnOn(attempt, reply, lines)
      ensures Account() == old(Account()).AfterTurn(project, lines, attempt, reply)
    {
      if reply.NetworkError? {
        turn := HandleNetworkError(project, lines, attempt);
      } else {
        turn := HandleResponse(project, lines, attempt, reply);
      }
    }

    /** The retry loop of `_push_to_dynatrace`; the response it leaves behind is always the
        one to the last attempt made. */
    method RetryLoop(project: string, lines: nat, script: Script)
      returns (turn: Turn, attempt: nat, ingestResponse: Reply)
      requires Valid()
      modifies this
      ensures Valid() && Decides(script, attempt) && ingestResponse == script.At(attempt)
      ensures turn == TurnOn(attempt, ingestResponse, lines) && !turn.Continue?
      ensures Account() == old(Account()).Tried(attempt, SleptBefore(script, attempt), CountedBefore(script, attempt))
                                         .AfterTurn(project, lines, attempt, ingestResponse)
    {
      attempt := 0;
      ghost var before := Account();
      ghost var tried := before.Tried(0, 0, multiset{});
      while true
        invariant attempt <= MAX_PUSH_RETRIES && FailedBefore(script, attempt)
        invariant Valid() && Account() == tried
        invariant tried == before.Tried(attempt, SleptBefore(script, attempt), CountedBefore(script, attempt))
        decreases MAX_PUSH_RETRIES - attempt
      {
        ingestResponse := script.At(attempt);
        turn := TakeTurn(project, lines, attempt, ingestResponse);
        TurnDecides(script, attempt, lines);
        if !turn.Continue? {
          return;
        }
        TriedOnce(before, script, attempt);
        tried := tried.Tried(1, Slept(Delay(attempt, ingestResponse)), CodesOf(ingestResponse));
        attempt := attempt + 1;
      }
    }

    /** Count a response and all lines of the batch as dropped. */
    method CountAndDrop(project: string, lines: nat, code: int)
      requires Valid()
      modifies this
      ensures Valid() && Account() == old(Account()).Judged(project, Verdict(DropAfter(code, lines), None, Dropped))
    {
      Increment(code);
      linesDroppedCount := Bumped(linesDroppedCount, project, lines);
    }

    /** What `_push_to_dynatrace` does after the loop. */
    method ProcessResponse(project: string, lines: nat, ingestResponse: Reply) returns (ending: Ending)
      requires Valid() && ingestResponse.Response? && !IsFatal(ingestResponse.Status())
      modifies this
      ensures Valid() && ending == VerdictOn(ingestResponse, lines).ending
      ensures Account() == old(Account()).Judged(project, VerdictOn(ingestResponse, lines))
    {
      var status := ingestResponse.Status();
      if status.Retryable? {
        CountAndDrop(project, lines, ingestResponse.code);
        return Dropped;
      }
      if status.PayloadTooLarge? {
        CountAndDrop(project, lines, ingestResponse.code);
        return Dropped;
      }
      match ingestResponse.body {
        case NotJson =>
          CountAndDrop(project, lines, ingestResponse.code);
          return Dropped;
        case NotObject =>
          return Raised(UnreadableBody);
        case LineCounts(linesOk, linesInvalid) =>
          Increment(ingestResponse.code);
          if linesOk.None? {
            return Raised(UnreadableOk);
          }
          linesOkCount := Bumped(linesOkCount, project, linesOk.value);
          if linesInvalid.None? {
            return Raised(UnreadableInvalid);
          }
          linesInvalidCount := Bumped(linesInvalidCount, project, linesInvalid.value);
          return Recorded;
      }
    }

    /** `_push_to_dynatrace`: how the call ends is the result. It changes what `Push` says
        and nothing else. */
    method PushToDynatrace(project: string, lines: nat, script: Script) returns (ending: Ending)
      requires Valid()
      modifies this
      ensures Valid() && ending == Push(script, lines).verdict.ending
      ensures Account() == old(Account()).After(project, Push(script, lines))
    {
      var turn, attempt, ingestResponse := RetryLoop(project, lines, script);
      TriedThenJudged(old(Account()), project, script, lines, attempt);
      if turn.Return? {
        return turn.ending;
      }
      ending := ProcessResponse(project, lines, ingestResponse);
    }
  }
}
