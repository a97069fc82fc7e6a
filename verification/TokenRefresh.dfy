/** The access token shared by all log forwarding workers: the client of
    src/lib/logs/gcp_client.py, and its refresh under a lock by `update_gcp_client` and
    `perform_pull` of src/lib/logs/log_integration_service.py. */
module TokenRefresh {
  import opened Time
  import opened Wrappers
  import opened Sequences
  import LogCycle

  const FALLBACK_LIFETIME: int := 3600 * SECOND

  type Token = string

  /** What token creation returned: text, a dictionary, or anything else. */
  datatype TokenInfo = Text(text: Token) | Dict(accessToken: Option<Token>, expiresAt: Option<int>) | Invalid

  predicate Usable(info: TokenInfo) {
    info.Text? || (info.Dict? && info.accessToken.Some?)
  }

  function HeadersFor(token: Token): string { "Bearer " + token }

  /** The fields of the client. */
  datatype Client = Client(apiToken: Token, tokenExpiresAt: int, headers: string, updateInTheNextLoop: bool)
  {
    predicate IsExpired(now: int) { now >= tokenExpiresAt }

    function Flagged(flag: bool): Client { this.(updateInTheNextLoop := flag) }
  }

  /** The client after `update_token`: all of the new token, or nothing of it. */
  function AfterUpdate(client: Client, info: TokenInfo, now: int): Client {
    match info
    case Text(text) => Client(text, now + FALLBACK_LIFETIME, HeadersFor(text), false)
    case Dict(Some(token), None) => Client(token, now + FALLBACK_LIFETIME, HeadersFor(token), false)
    case Dict(Some(token), Some(expiresAt)) => Client(token, expiresAt, HeadersFor(token), false)
    case _ => client.Flagged(true)
  }

  /** The client has the token given, its expiry or an hour from now, and headers to match. */
  predicate Holds(client: Client, info: TokenInfo, now: int) {
    && !info.Invalid? && (info.Dict? ==> info.accessToken.Some?)
    && client.apiToken == (if info.Text? then info.text else info.accessToken.value)
    && client.tokenExpiresAt == (if info.Dict? && info.expiresAt.Some? then info.expiresAt.value
                                 else now + 3600 * SECOND)
    && client.headers == "Bearer " + client.apiToken
  }

  class GCPClient {
    var apiToken: Token
    var tokenExpiresAt: int
    var headers: string
    var updateInTheNextLoop: bool

    function Fields(): Client
      reads this
    {
      Client(apiToken, tokenExpiresAt, headers, updateInTheNextLoop)
    }

    /** Made from text, or from a dictionary with both fields; anything else raises and there
        is no client. */
    constructor (info: TokenInfo, now: int)
      requires info.Text? || (info.Dict? && info.accessToken.Some? && info.expiresAt.Some?)
      ensures headers == "Bearer " + apiToken && !updateInTheNextLoop
      ensures info.Text? ==> apiToken == info.text && tokenExpiresAt == now + 3600 * SECOND
      ensures info.Dict? ==> apiToken == info.accessToken.value && tokenExpiresAt == info.expiresAt.value
    {
      match info {
        case Text(text) =>
          apiToken := text;
          tokenExpiresAt := now + FALLBACK_LIFETIME;
          headers := HeadersFor(text);
        case Dict(accessToken, expiresAt) =>
          apiToken := accessToken.value;
          tokenExpiresAt := expiresAt.value;
          headers := HeadersFor(accessToken.value);
      }
      updateInTheNextLoop := false;
    }

    method UpdateHeaders()
      modifies this`headers
      ensures headers == HeadersFor(apiToken)
    {
      headers := HeadersFor(apiToken);
    }

    /** `update_token`; an exception on the way restores the fields saved at the start. */
    method UpdateToken(info: TokenInfo, now: int) returns (raised: bool)
      modifies this
      ensures Fields() == AfterUpdate(old(Fields()), info, now)
      ensures raised <==> info.Invalid? || (info.Dict? && info.accessToken.None?)
      ensures raised ==> apiToken == old(apiToken) && tokenExpiresAt == old(tokenExpiresAt) && headers == old(headers)
      ensures !raised ==> Holds(Fields(), info, now)
      ensures updateInTheNextLoop == raised
    {
      var oldToken, oldExpires, oldHeaders := apiToken, tokenExpiresAt, headers;
      raised := false;
      match info {
        case Text(text) =>
          apiToken := text;
          tokenExpiresAt := now + FALLBACK_LIFETIME;
        case Dict(None, _) =>
          raised := true;
        case Dict(Some(token), expiresAt) =>
          apiToken := token;
          tokenExpiresAt := if expiresAt.Some? then expiresAt.value else now + FALLBACK_LIFETIME;
        case Invalid =>
          raised := true;
      }
      if !raised {
        UpdateHeaders();
        updateInTheNextLoop := false;
      } else {
        apiToken := oldToken;
        tokenExpiresAt := oldExpires;
        headers := oldHeaders;
        updateInTheNextLoop := true;
      }
    }

    /** `pull_messages`: the request carries the headers of the moment it was made. A refresh
        is asked for when the token has expired, or is refused by an answer whose body can be
        read; a body that cannot be read raises before its status is looked at. */
    method PullMessages(now: int, reply: LogCycle.PullReply)
      returns (sentHeaders: string, response: LogCycle.PullResponse)
      modifies this`updateInTheNextLoop
      ensures sentHeaders == old(headers)
      ensures updateInTheNextLoop
              <==> old(updateInTheNextLoop) || now >= tokenExpiresAt || (reply.Json? && reply.status == 401)
      ensures response == if reply.Json? && reply.status <= 299 && reply.body.Some?
                          then LogCycle.Pulled(reply.body.value)
                          else if reply.Json? && reply.status <= 399 then LogCycle.PulledNothing
                          else LogCycle.PullFailed
      ensures response == LogCycle.PulledBy(reply)
    {
      sentHeaders := headers;
      if now >= tokenExpiresAt {
        updateInTheNextLoop := true;
      }
      if !reply.Json? {
        return sentHeaders, LogCycle.PullFailed;
      }
      if reply.status == 401 {
        updateInTheNextLoop := true;
      }
      if reply.status > 299 {
        return sentHeaders, if reply.status >= 400 then LogCycle.PullFailed else LogCycle.PulledNothing;
      }
      return sentHeaders, if reply.body.Some? then LogCycle.Pulled(reply.body.value) else LogCycle.PulledNothing;
    }
  }

  // ---- All users of the client ----

  /** Who waits for a refresh: a pull, which swallows a failure, or an acknowledgement. */
  datatype Caller = FromPull | FromAck

  datatype Task = Idle | AwaitingLock(caller: Caller) | AwaitingToken(caller: Caller)

  /** `started` counts the token creations begun; `refused` says whether a 401 has arrived
      since the last successful refresh. */
  datatype State = State(client: Client, now: int, tasks: seq<Task>, lock: Option<nat>, started: nat, refused: bool)

  datatype Step =
    | Tick(elapsed: nat)
    | PullAsks(task: nat)
    | AckAsks(task: nat)
    | Acquire(task: nat)
    | TokenArrives(task: nat, info: TokenInfo)
    | CreationFails(task: nat)
    | Cancel(task: nat)
    | ExpirySeen
    | Unauthorized

  predicate Is(s: State, task: nat, pc: Task) {
    task < |s.tasks| && s.tasks[task] == pc
  }

  predicate Enabled(s: State, step: Step) {
    match step
    case Tick(_) => true
    case PullAsks(task) => Is(s, task, Idle) && s.client.updateInTheNextLoop
    case AckAsks(task) => Is(s, task, Idle) && s.client.IsExpired(s.now)
    case Acquire(task) => task < |s.tasks| && s.tasks[task].AwaitingLock? && s.lock.None?
    case TokenArrives(task, _) => task < |s.tasks| && s.tasks[task].AwaitingToken?
    case CreationFails(task) => task < |s.tasks| && s.tasks[task].AwaitingToken?
    case Cancel(task) => task < |s.tasks| && !s.tasks[task].Idle?
    case ExpirySeen => s.client.IsExpired(s.now)
    case Unauthorized => true
  }

  /** An exception leaves `update_gcp_client`: a pull clears the flag and goes on. */
  function Failed(client: Client, caller: Caller): Client {
    if caller.FromPull? then client.Flagged(false) else client
  }

  function Next(s: State, step: Step): State
    requires Enabled(s, step)
  {
    match step
    case Tick(elapsed) => s.(now := s.now + elapsed)
    case PullAsks(task) => s.(tasks := s.tasks[task := AwaitingLock(FromPull)])
    case AckAsks(task) => s.(tasks := s.tasks[task := AwaitingLock(FromAck)])
    case Acquire(task) =>
      if !s.client.IsExpired(s.now) && !s.client.updateInTheNextLoop then s.(tasks := s.tasks[task := Idle])
      else s.(tasks := s.tasks[task := AwaitingToken(s.tasks[task].caller)], lock := Some(task),
              started := s.started + 1)
    case TokenArrives(task, info) =>
      var updated := AfterUpdate(s.client, info, s.now);
      State(if Usable(info) then updated else Failed(updated, s.tasks[task].caller), s.now,
            s.tasks[task := Idle], None, s.started, s.refused && !Usable(info))
    case CreationFails(task) =>
      s.(client := Failed(s.client, s.tasks[task].caller), tasks := s.tasks[task := Idle], lock := None)
    case Cancel(task) =>
      s.(tasks := s.tasks[task := Idle], lock := if s.tasks[task].AwaitingToken? then None else s.lock)
    case ExpirySeen => s.(client := s.client.Flagged(true))
    case Unauthorized => s.(client := s.client.Flagged(true), refused := true)
  }

  function AllIdle(count: nat): (tasks: seq<Task>)
    ensures |tasks| == count && forall i :: 0 <= i < count ==> tasks[i] == Idle
  {
    if count == 0 then [] else AllIdle(count - 1) + [Idle]
  }

  function Init(token: Token, expiresAt: int, now: int, tasks: nat): State {
    State(Client(token, expiresAt, HeadersFor(token), false), now, AllIdle(tasks), None, 0, false)
  }

  /** The state after any run from `init`; a step that is not possible changes nothing. */
  function Run(init: State, steps: seq<Step>): State {
    if steps == [] then init
    else
      var s := Run(init, steps[..|steps| - 1]);
      if Enabled(s, steps[|steps| - 1]) then Next(s, steps[|steps| - 1]) else s
  }

  // ---- What every state keeps ----

  /** A token creation is in flight exactly for whichever task holds the lock. */
  predicate OneRefresh(s: State) {
    && (s.lock.Some? ==> s.lock.value < |s.tasks|)
    && forall i :: 0 <= i < |s.tasks| ==> (s.tasks[i].AwaitingToken? <==> s.lock == Some(i))
  }

  /** There is a reason to refresh: the token has expired, or was refused since it was set. */
  predicate HasReason(s: State) {
    s.client.IsExpired(s.now) || s.refused
  }

  predicate Reasoned(s: State) {
    s.client.updateInTheNextLoop || s.lock.Some? ==> HasReason(s)
  }

  predicate Consistent(s: State) {
    && s.client.headers == HeadersFor(s.client.apiToken)
    && OneRefresh(s) && Reasoned(s)
  }

  lemma NextKeepsHeaders(s: State, step: Step)
    requires Enabled(s, step) && s.client.headers == HeadersFor(s.client.apiToken)
    ensures Next(s, step).client.headers == HeadersFor(Next(s, step).client.apiToken)
  {
  }

  lemma NextKeepsOneRefresh(s: State, step: Step)
    requires Enabled(s, step) && OneRefresh(s)
    ensures OneRefresh(Next(s, step))
  {
  }

  lemma NextKeepsReasoned(s: State, step: Step)
    requires Enabled(s, step) && OneRefresh(s) && Reasoned(s)
    ensures Reasoned(Next(s, step))
  {
  }

  /** In every state of every run, however the users of the client interleave: the headers
      match the token, at most one refresh is in flight and it holds the lock, and a refresh
      is asked for or in flight only for a token that has expired or was refused. */
  lemma {:induction false} AlwaysConsistent(token: Token, expiresAt: int, now: int, tasks: nat, steps: seq<Step>)
    ensures Consistent(Run(Init(token, expiresAt, now, tasks), steps))
  {
    if steps != [] {
      var last := |steps| - 1;
      var s := Run(Init(token, expiresAt, now, tasks), steps[..last]);
      AlwaysConsistent(token, expiresAt, now, tasks, steps[..last]);
      if Enabled(s, steps[last]) {
        NextKeepsHeaders(s, steps[last]);
        NextKeepsOneRefresh(s, steps[last]);
        NextKeepsReasoned(s, steps[last]);
      }
    }
  }

  predicate BringsToken(step: Step) {
    step.TokenArrives? && Usable(step.info)
  }

  /** Only a usable token changes token, expiry and headers: failed updates, however many,
      leave them as they were. */
  lemma {:induction false} TokenStaysWithoutSuccess(init: State, steps: seq<Step>, later: seq<Step>)
    requires forall k :: 0 <= k < |later| ==> !BringsToken(later[k])
    ensures Run(init, steps + later).client.Flagged(false) == Run(init, steps).client.Flagged(false)
  {
    if later == [] {
      assert steps + later == steps;
    } else {
      var last := |later| - 1;
      TokenStaysWithoutSuccess(init, steps, later[..last]);
      assert (steps + later)[..|steps + later| - 1] == steps + later[..last];
    }
  }

  /** A usable token that arrives takes over at once, and the flag falls. One that is not
      usable changes no field; the flag falls for a pull and stays up for an acknowledgement. */
  lemma ArrivalIs(s: State, task: nat, info: TokenInfo)
    requires Enabled(s, TokenArrives(task, info))
    ensures var t := Next(s, TokenArrives(task, info));
            && t.tasks[task].Idle? && t.lock.None?
            && if info.Text? || (info.Dict? && info.accessToken.Some?)
               then Holds(t.client, info, s.now) && !t.client.updateInTheNextLoop && !t.refused
               else && t.client.Flagged(false) == s.client.Flagged(false) && t.refused == s.refused
                    && t.client.updateInTheNextLoop == s.tasks[task].caller.FromAck?
  {
  }

  predicate Succeeds(s: State, step: Step) {
    Enabled(s, step) && BringsToken(step)
  }

  lemma {:induction false} TimeGoesOn(init: State, steps: seq<Step>, later: seq<Step>)
    ensures Run(init, steps).now <= Run(init, steps + later).now
  {
    if later == [] {
      assert steps + later == steps;
    } else {
      TimeGoesOn(init, steps, later[..|later| - 1]);
      assert (steps + later)[..|steps + later| - 1] == steps + later[..|later| - 1];
    }
  }

  /** No refresh is in flight, asked for or needed. */
  predicate Quiet(s: State) {
    OneRefresh(s) && s.lock.None? && !s.client.updateInTheNextLoop && !s.client.IsExpired(s.now)
  }

  lemma QuietStep(s: State, step: Step)
    requires Enabled(s, step) && Quiet(s) && step != Unauthorized && !s.client.IsExpired(Next(s, step).now)
    ensures Quiet(Next(s, step)) && Next(s, step).client == s.client && Next(s, step).started == s.started
  {
    NextKeepsOneRefresh(s, step);
  }

  /** Until the expiry passes or a 401 arrives everything stays quiet. */
  lemma {:induction false} QuietRun(init: State, steps: seq<Step>, later: seq<Step>)
    requires Quiet(Run(init, steps)) && Unauthorized !in later
    requires !Run(init, steps).client.IsExpired(Run(init, steps + later).now)
    ensures var s, t := Run(init, steps), Run(init, steps + later);
            Quiet(t) && t.client == s.client && t.started == s.started
  {
    if later == [] {
      assert steps + later == steps;
    } else {
      var last := |later| - 1;
      var before := later[..last];
      assert (steps + later)[..|steps + later| - 1] == steps + before;
      assert (steps + before) + [later[last]] == steps + later;
      TimeGoesOn(init, steps + before, [later[last]]);
      QuietRun(init, steps, before);
      var s := Run(init, steps + before);
      if Enabled(s, later[last]) { QuietStep(s, later[last]); }
    }
  }

  /** After a successful refresh none is started, by any task, until the new expiry
      passes or a further 401 arrives. */
  lemma NoRefreshAfterSuccess(token: Token, expiresAt: int, now: int, tasks: nat,
                              steps: seq<Step>, success: Step, later: seq<Step>)
    requires var init := Init(token, expiresAt, now, tasks);
             && Succeeds(Run(init, steps), success) && Unauthorized !in later
             && Run(init, (steps + [success]) + later).now < Run(init, steps + [success]).client.tokenExpiresAt
    ensures var init := Init(token, expiresAt, now, tasks);
            Run(init, (steps + [success]) + later).started == Run(init, steps + [success]).started
  {
    var init := Init(token, expiresAt, now, tasks);
    AlwaysConsistent(token, expiresAt, now, tasks, steps);
    assert (steps + [success])[..|steps + [success]| - 1] == steps;
    NextKeepsOneRefresh(Run(init, steps), success);
    TimeGoesOn(init, steps + [success], later);
    QuietRun(init, steps + [success], later);
  }

  /** The refresh that a pull asked for fails. */
  predicate FailsForPull(s: State, step: Step) {
    && Enabled(s, step) && (step.CreationFails? || (step.TokenArrives? && !Usable(step.info)))
    && s.tasks[step.task].caller.FromPull?
  }

  /** A failed refresh is not tried again and again: after one asked for by a pull none is
      started, by any task, until the token expires or a further 401 arrives. */
  lemma NoRefreshAfterFailedPull(token: Token, expiresAt: int, now: int, tasks: nat,
                                 steps: seq<Step>, failure: Step, later: seq<Step>)
    requires var init := Init(token, expiresAt, now, tasks);
             && FailsForPull(Run(init, steps), failure) && Unauthorized !in later
             && Run(init, (steps + [failure]) + later).now < Run(init, steps).client.tokenExpiresAt
    ensures var init := Init(token, expiresAt, now, tasks);
            Run(init, (steps + [failure]) + later).started == Run(init, steps + [failure]).started
  {
    var init := Init(token, expiresAt, now, tasks);
    AlwaysConsistent(token, expiresAt, now, tasks, steps);
    assert (steps + [failure])[..|steps + [failure]| - 1] == steps;
    NextKeepsOneRefresh(Run(init, steps), failure);
    TimeGoesOn(init, steps + [failure], later);
    QuietRun(init, steps + [failure], later);
  }

  // ---- A refusal leads to a refresh ----

  /** What takes the flag down: a usable token, or the failure of a refresh for a pull. */
  predicate Answers(s: State, step: Step) {
    BringsToken(step) || FailsForPull(s, step)
  }

  lemma FlagFallsIff(s: State, step: Step)
    requires Enabled(s, step) && s.client.updateInTheNextLoop
    ensures !Next(s, step).client.updateInTheNextLoop <==> Answers(s, step)
  {
  }

  /** None of the later steps takes the flag down. */
  predicate Unanswered(init: State, steps: seq<Step>, later: seq<Step>) {
    forall k :: 0 <= k < |later| ==> !Answers(Run(init, steps + later[..k]), later[k])
  }

  lemma RunMore(init: State, steps: seq<Step>, step: Step)
    ensures var s := Run(init, steps);
            Run(init, steps + [step]) == if Enabled(s, step) then Next(s, step) else s
  {
    DropLast(steps, step);
  }

  lemma {:induction false} FlagStays(init: State, steps: seq<Step>, later: seq<Step>)
    requires Run(init, steps).client.updateInTheNextLoop && Unanswered(init, steps, later)
    ensures Run(init, steps + later).client.updateInTheNextLoop
  {
    if later == [] {
      ConcatEmpty(steps);
    } else {
      var last := |later| - 1;
      var before := later[..last];
      UnansweredBefore(init, steps, later, last);
      FlagStays(init, steps, before);
      TakeOneMore(later, last);
      TakeAll(later);
      ConcatIsAssociative(steps, before, [later[last]]);
      RunMore(init, steps + before, later[last]);
      if Enabled(Run(init, steps + before), later[last]) { FlagFallsIff(Run(init, steps + before), later[last]); }
    }
  }

  lemma UnansweredBefore(init: State, steps: seq<Step>, later: seq<Step>, count: nat)
    requires count <= |later| && Unanswered(init, steps, later)
    ensures Unanswered(init, steps, later[..count])
  {
    forall k | 0 <= k < count ensures !Answers(Run(init, steps + later[..count][..k]), later[k]) {
      PrefixOfPrefix(later, k, count);
    }
  }

  /** The task holds the lock and waits for a token that it has just asked for. */
  predicate Starts(before: State, after: State, task: nat) {
    after.lock == Some(task) && after.started == before.started + 1
  }

  /** With the flag up and the lock free, a pull of an idle task gets it and starts a refresh. */
  lemma PullStarts(t: State, task: nat)
    requires t.client.updateInTheNextLoop && t.lock.None? && Is(t, task, Idle)
    ensures Starts(t, Run(t, [PullAsks(task), Acquire(task)]), task)
  {
    var asked := Next(t, PullAsks(task));
    assert [] + [PullAsks(task)] == [PullAsks(task)];
    assert [PullAsks(task)] + [Acquire(task)] == [PullAsks(task), Acquire(task)];
    RunMore(t, [], PullAsks(task));
    assert Run(t, [PullAsks(task)]) == asked;
    RunMore(t, [PullAsks(task)], Acquire(task));
    assert Enabled(asked, Acquire(task));
  }

  lemma AcquireStarts(t: State, task: nat)
    requires t.client.updateInTheNextLoop && Enabled(t, Acquire(task))
    ensures Starts(t, Next(t, Acquire(task)), task)
  {
  }

  lemma RefusalRaisesFlag(init: State, steps: seq<Step>)
    ensures Run(init, steps + [Unauthorized]).client.updateInTheNextLoop
  {
    RunMore(init, steps, Unauthorized);
  }

  /** After a 401 a refresh stays asked for through any steps that bring no usable token and
      fail no refresh for a pull: whichever task gets the lock next starts one, and if none
      waits for it, the next pull of an idle task does. */
  lemma RefusalIsActedOn(init: State, steps: seq<Step>, later: seq<Step>, task: nat)
    requires Unanswered(init, steps + [Unauthorized], later)
    ensures var t := Run(init, (steps + [Unauthorized]) + later);
            && t.client.updateInTheNextLoop
            && (Enabled(t, Acquire(task)) ==> Starts(t, Next(t, Acquire(task)), task))
            && (Is(t, task, Idle) && t.lock.None? ==> Starts(t, Run(t, [PullAsks(task), Acquire(task)]), task))
  {
    var t := Run(init, (steps + [Unauthorized]) + later);
    RefusalRaisesFlag(init, steps);
    FlagStays(init, steps + [Unauthorized], later);
    if Enabled(t, Acquire(task)) { AcquireStarts(t, task); }
    if Is(t, task, Idle) && t.lock.None? { PullStarts(t, task); }
  }

  /** An expired token is refreshed too: by an acknowledgement at once, and by a pull after one
      that has seen it. */
  lemma ExpiryIsActedOn(t: State, task: nat)
    requires t.now >= t.client.tokenExpiresAt && t.lock.None? && Is(t, task, Idle)
    ensures Starts(t, Run(t, [AckAsks(task), Acquire(task)]), task)
    ensures Starts(t, Run(t, [ExpirySeen, PullAsks(task), Acquire(task)]), task)
  {
    AckStarts(t, task);
    var seen := Next(t, ExpirySeen);
    PullStarts(seen, task);
    RunFrom(t, ExpirySeen, PullAsks(task), Acquire(task));
  }

  lemma AckStarts(t: State, task: nat)
    requires t.client.IsExpired(t.now) && t.lock.None? && Is(t, task, Idle)
    ensures Starts(t, Run(t, [AckAsks(task), Acquire(task)]), task)
  {
    var asked := Next(t, AckAsks(task));
    assert [] + [AckAsks(task)] == [AckAsks(task)];
    assert [AckAsks(task)] + [Acquire(task)] == [AckAsks(task), Acquire(task)];
    RunMore(t, [], AckAsks(task));
    assert Run(t, [AckAsks(task)]) == asked;
    RunMore(t, [AckAsks(task)], Acquire(task));
    assert Enabled(asked, Acquire(task));
  }

  lemma RunFrom(t: State, first: Step, second: Step, third: Step)
    requires Enabled(t, first)
    ensures Run(t, [first, second, third]) == Run(Next(t, first), [second, third])
  {
    var u := Next(t, first);
    assert [] + [first] == [first] && [first] + [second] == [first, second];
    assert [first, second] + [third] == [first, second, third];
    assert [] + [second] == [second] && [second] + [third] == [second, third];
    RunMore(t, [], first);
    RunMore(t, [first], second);
    RunMore(t, [first, second], third);
    RunMore(u, [], second);
    RunMore(u, [second], third);
  }

  /** Whatever the users and the server do is possible: time passes, a 401 arrives, token
      creation brings anything or fails, and who waits may be cancelled at any time. An idle task
      asks for a refresh exactly if the flag is up, or the token has expired. */
  lemma NothingIsRuledOut(s: State, task: nat, elapsed: nat, info: TokenInfo)
    ensures Enabled(s, Tick(elapsed)) && Enabled(s, Unauthorized)
    ensures Enabled(s, PullAsks(task))
            <==> task < |s.tasks| && s.tasks[task].Idle? && s.client.updateInTheNextLoop
    ensures Enabled(s, AckAsks(task))
            <==> task < |s.tasks| && s.tasks[task].Idle? && s.now >= s.client.tokenExpiresAt
    ensures s.now >= s.client.tokenExpiresAt ==> Enabled(s, ExpirySeen)
    ensures task < |s.tasks| && s.tasks[task].AwaitingLock? && s.lock.None? ==> Enabled(s, Acquire(task))
    ensures task < |s.tasks| && s.tasks[task].AwaitingToken? ==>
              Enabled(s, TokenArrives(task, info)) && Enabled(s, CreationFails(task))
    ensures task < |s.tasks| && !s.tasks[task].Idle? ==> Enabled(s, Cancel(task))
  {
  }

  /** The exception: a 401 that arrives while a refresh for a pull is in flight is forgotten
      when that refresh fails. Nobody refreshes the refused token until it expires or is
      refused again. */
  lemma RefusalIsForgotten(token: Token, expiresAt: int, now: int, tasks: nat,
                           steps: seq<Step>, task: nat, later: seq<Step>)
    requires var init := Init(token, expiresAt, now, tasks);
             && Is(Run(init, steps), task, AwaitingToken(FromPull)) && Unauthorized !in later
             && Run(init, ((steps + [Unauthorized]) + [CreationFails(task)]) + later).now
                < Run(init, steps).client.tokenExpiresAt
    ensures var init := Init(token, expiresAt, now, tasks);
            var failed := (steps + [Unauthorized]) + [CreationFails(task)];
            && Run(init, failed).refused && !Run(init, failed).client.updateInTheNextLoop
            && Run(init, failed + later).started == Run(init, failed).started
  {
    var init := Init(token, expiresAt, now, tasks);
    RunMore(init, steps, Unauthorized);
    RunMore(init, steps + [Unauthorized], CreationFails(task));
    NoRefreshAfterFailedPull(token, expiresAt, now, tasks, steps + [Unauthorized], CreationFails(task), later);
  }

  /** A run to such a state: a first 401, and a pull that refreshes because of it. */
  lemma RefreshInFlight(token: Token, expiresAt: int, now: int, tasks: nat)
    requires tasks > 0
    ensures var init := Init(token, expiresAt, now, tasks);
            Is(Run(init, [Unauthorized, PullAsks(0), Acquire(0)]), 0, AwaitingToken(FromPull))
  {
    var init := Init(token, expiresAt, now, tasks);
    RunMore(init, [], Unauthorized);
    RunMore(init, [Unauthorized], PullAsks(0));
    RunMore(init, [Unauthorized, PullAsks(0)], Acquire(0));
    assert [] + [Unauthorized] == [Unauthorized];
    assert [Unauthorized] + [PullAsks(0)] == [Unauthorized, PullAsks(0)];
    assert [Unauthorized, PullAsks(0)] + [Acquire(0)] == [Unauthorized, PullAsks(0), Acquire(0)];
  }
}
