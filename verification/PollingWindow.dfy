/** The polling-window scheduler of src/main.py: which query window each polling
    cycle uses, given the wall clock. */
module PollingWindow {
  import opened Time
  import opened Wrappers

  const CATCH_UP_THRESHOLD: int := 60 * SECOND
  const HARD_RESET_THRESHOLD: int := 30 * 60 * SECOND

  datatype Action = Init | Snapped | CatchUp | HardReset

  /** What one call returns: the execution time and the length of the query window. */
  datatype Cycle = Cycle(executionTime: int, intervalSeconds: int, action: Action)

  /** `datetime.replace(microsecond=0)`. */
  function TruncateToSecond(t: int): int {
    t - t % SECOND
  }

  /** How far the wall clock is past the execution time that was due. */
  function Drift(last: int, now: int, intervalSeconds: int): int {
    now - (last + intervalSeconds * SECOND)
  }

  function Snap(last: Option<int>, now: int, intervalSeconds: int): Cycle {
    match last
    case None => Cycle(TruncateToSecond(now), intervalSeconds, Init)
    case Some(previous) =>
      var expected := previous + intervalSeconds * SECOND;
      var drift := now - expected;
      if -CATCH_UP_THRESHOLD <= drift <= CATCH_UP_THRESHOLD then
        Cycle(expected, intervalSeconds, Snapped)
      else if 0 < drift <= HARD_RESET_THRESHOLD then
        Cycle(expected + 60 * SECOND, intervalSeconds + 60, CatchUp)
      else
        Cycle(TruncateToSecond(now), intervalSeconds, HardReset)
  }

  /** The module global `_last_execution_time` and the function that updates it. */
  class Scheduler {
    var lastExecutionTime: Option<int>

    constructor ()
      ensures lastExecutionTime == None
    {
      lastExecutionTime := None;
    }

    method SnapExecutionTime(now: int, intervalSeconds: int) returns (cycle: Cycle)
      modifies this
      ensures cycle == Snap(old(lastExecutionTime), now, intervalSeconds)
      ensures lastExecutionTime == Some(cycle.executionTime)
    {
      var truncatedNow := TruncateToSecond(now);
      var interval := intervalSeconds * SECOND;
      if lastExecutionTime == None {
        lastExecutionTime := Some(truncatedNow);
        return Cycle(truncatedNow, intervalSeconds, Init);
      }
      var expected := lastExecutionTime.value + interval;
      var drift := now - expected;
      if (if drift < 0 then -drift else drift) <= CATCH_UP_THRESHOLD {
        lastExecutionTime := Some(expected);
        return Cycle(expected, intervalSeconds, Snapped);
      } else if 0 < drift <= HARD_RESET_THRESHOLD {
        var catchUpExecutionTime := expected + 60 * SECOND;
        lastExecutionTime := Some(catchUpExecutionTime);
        return Cycle(catchUpExecutionTime, intervalSeconds + 60, CatchUp);
      } else {
        lastExecutionTime := Some(truncatedNow);
        return Cycle(truncatedNow, intervalSeconds, HardReset);
      }
    }
  }

  /** All the cycles of a process whose successive clock readings are `clock`. */
  function Run(last: Option<int>, clock: seq<int>, intervalSeconds: int): (cycles: seq<Cycle>)
    ensures |cycles| == |clock|
    decreases clock
  {
    if clock == [] then []
    else
      var cycle := Snap(last, clock[0], intervalSeconds);
      [cycle] + Run(Some(cycle.executionTime), clock[1..], intervalSeconds)
  }

  /** `MetricsContext` truncates the execution time again; `fetch_metric` then takes
      the window that ends `ingestDelay` before it. */
  function WindowEnd(cycle: Cycle, ingestDelay: int): int {
    TruncateToSecond(cycle.executionTime) - ingestDelay
  }

  function WindowStart(cycle: Cycle, ingestDelay: int): int {
    WindowEnd(cycle, ingestDelay) - cycle.intervalSeconds * SECOND
  }

  predicate InWindow(instant: int, cycle: Cycle, ingestDelay: int) {
    WindowStart(cycle, ingestDelay) <= instant < WindowEnd(cycle, ingestDelay)
  }

  predicate IsReset(cycle: Cycle) {
    cycle.action == Init || cycle.action == HardReset
  }

  predicate WholeSecond(last: Option<int>) {
    last.Some? ==> last.value % SECOND == 0
  }

  /** Every cycle of a run is one call on the previous execution time. */
  lemma {:induction false} RunStep(last: Option<int>, clock: seq<int>, intervalSeconds: int, i: nat)
    requires i < |clock|
    ensures var cycles := Run(last, clock, intervalSeconds);
            cycles[i] == Snap(if i == 0 then last else Some(cycles[i - 1].executionTime), clock[i], intervalSeconds)
    decreases clock
  {
    if i > 0 {
      var cycle := Snap(last, clock[0], intervalSeconds);
      RunStep(Some(cycle.executionTime), clock[1..], intervalSeconds, i - 1);
    }
  }

  lemma TruncatedIsWhole(t: int)
    ensures TruncateToSecond(t) % SECOND == 0
    ensures t % SECOND == 0 ==> TruncateToSecond(t) == t
  {
  }

  lemma SnapKeepsWholeSeconds(last: Option<int>, now: int, intervalSeconds: int)
    requires WholeSecond(last)
    ensures Snap(last, now, intervalSeconds).executionTime % SECOND == 0
  {
    TruncatedIsWhole(now);
  }

  lemma {:induction false} ExecutionTimesAreWhole(last: Option<int>, clock: seq<int>, intervalSeconds: int, i: nat)
    requires WholeSecond(last) && i < |clock|
    ensures Run(last, clock, intervalSeconds)[i].executionTime % SECOND == 0
  {
    RunStep(last, clock, intervalSeconds, i);
    if i > 0 {
      ExecutionTimesAreWhole(last, clock, intervalSeconds, i - 1);
      SnapKeepsWholeSeconds(Some(Run(last, clock, intervalSeconds)[i - 1].executionTime), clock[i], intervalSeconds);
    } else {
      SnapKeepsWholeSeconds(last, clock[0], intervalSeconds);
    }
  }

  /** Execution times are whole seconds, so the truncation in `MetricsContext` changes nothing. */
  lemma ContextTruncationIsIdentity(last: Option<int>, clock: seq<int>, intervalSeconds: int, i: nat)
    requires WholeSecond(last) && i < |clock|
    ensures var t := Run(last, clock, intervalSeconds)[i].executionTime;
            TruncateToSecond(t) == t
  {
    ExecutionTimesAreWhole(last, clock, intervalSeconds, i);
    TruncatedIsWhole(Run(last, clock, intervalSeconds)[i].executionTime);
  }

  /** The first cycle, and one after a reset, starts from the clock: the last whole second, with
      a window that is not widened. */
  lemma ResetIsNow(last: Option<int>, now: int, intervalSeconds: int)
    ensures var cycle := Snap(last, now, intervalSeconds);
            && (last.None? <==> cycle.action == Init)
            && (IsReset(cycle) ==>
                  && 0 <= now - cycle.executionTime < SECOND && cycle.executionTime % SECOND == 0
                  && cycle.intervalSeconds == intervalSeconds)
  {
  }

  /** The window of a metric ends its ingest delay before the execution time, and is as long
      as the interval of its cycle. */
  lemma WindowIsDelayed(last: Option<int>, clock: seq<int>, intervalSeconds: int, ingestDelay: int, i: nat)
    requires WholeSecond(last) && i < |clock|
    ensures var cycle := Run(last, clock, intervalSeconds)[i];
            && WindowEnd(cycle, ingestDelay) == cycle.executionTime - ingestDelay
            && WindowStart(cycle, ingestDelay)
               == cycle.executionTime - ingestDelay - cycle.intervalSeconds * SECOND
  {
    ContextTruncationIsIdentity(last, clock, intervalSeconds, i);
  }

  /** A window starts where the previous one ended exactly when the clock is at most
      one minute early and at most thirty minutes late. */
  lemma WindowMeetsPreviousIff(last: int, now: int, intervalSeconds: int)
    ensures var cycle := Snap(Some(last), now, intervalSeconds);
            cycle.executionTime - cycle.intervalSeconds * SECOND == last
            <==> -60 * SECOND <= Drift(last, now, intervalSeconds) <= 1800 * SECOND
    ensures !IsReset(Snap(Some(last), now, intervalSeconds))
            <==> -60 * SECOND <= Drift(last, now, intervalSeconds) <= 1800 * SECOND
    ensures Snap(Some(last), now, intervalSeconds).intervalSeconds
            == if 60 * SECOND < Drift(last, now, intervalSeconds) <= 1800 * SECOND then intervalSeconds + 60
               else intervalSeconds
  {
    // Only a reset within the first second after the due time would also meet it,
    // and such a call is snapped.
    var drift := Drift(last, now, intervalSeconds);
    assert TruncateToSecond(now) == last + intervalSeconds * SECOND ==> 0 <= drift < SECOND;
  }

  /** Whatever the clock does, a window that is not the first after a reset
      starts at the end of the one before it. */
  lemma {:induction false} ConsecutiveWindowsTouch(last: Option<int>, clock: seq<int>, intervalSeconds: int,
                                                   ingestDelay: int, i: nat)
    requires WholeSecond(last) && 0 < i < |clock|
    requires !IsReset(Run(last, clock, intervalSeconds)[i])
    ensures var cycles := Run(last, clock, intervalSeconds);
            WindowStart(cycles[i], ingestDelay) == WindowEnd(cycles[i - 1], ingestDelay)
  {
    RunStep(last, clock, intervalSeconds, i);
    ContextTruncationIsIdentity(last, clock, intervalSeconds, i);
    ContextTruncationIsIdentity(last, clock, intervalSeconds, i - 1);
  }

  ghost predicate ResetFree(cycles: seq<Cycle>, from: nat, to: nat)
    requires to < |cycles|
  {
    forall k :: from < k <= to ==> !IsReset(cycles[k])
  }

  /** In a reset-free stretch the windows of a metric cover one interval with
      no gap and no overlap: an instant lies in it iff it lies in exactly one window. */
  lemma {:induction false} WindowsTile(last: Option<int>, clock: seq<int>, intervalSeconds: int, ingestDelay: int,
                                       from: nat, to: nat, instant: int)
    requires WholeSecond(last) && from <= to < |clock| && intervalSeconds >= 0
    requires ResetFree(Run(last, clock, intervalSeconds), from, to)
    ensures var cycles := Run(last, clock, intervalSeconds);
            WindowStart(cycles[from], ingestDelay) <= instant < WindowEnd(cycles[to], ingestDelay)
            <==> exists k :: from <= k <= to && InWindow(instant, cycles[k], ingestDelay)
    ensures var cycles := Run(last, clock, intervalSeconds);
            forall j, k :: from <= j < k <= to && InWindow(instant, cycles[j], ingestDelay)
                           ==> !InWindow(instant, cycles[k], ingestDelay)
    ensures var cycles := Run(last, clock, intervalSeconds);
            forall k :: from <= k <= to ==> WindowEnd(cycles[k], ingestDelay) <= WindowEnd(cycles[to], ingestDelay)
  {
    var cycles := Run(last, clock, intervalSeconds);
    RunStep(last, clock, intervalSeconds, to);
    if from < to {
      WindowsTile(last, clock, intervalSeconds, ingestDelay, from, to - 1, instant);
      ConsecutiveWindowsTouch(last, clock, intervalSeconds, ingestDelay, to);
      if InWindow(instant, cycles[to], ingestDelay) {
        assert forall k :: from <= k < to ==> WindowEnd(cycles[k], ingestDelay) <= instant;
        WindowsStartInOrder(last, clock, intervalSeconds, ingestDelay, from, to);
      }
    } else {
      assert InWindow(instant, cycles[to], ingestDelay)
        <==> WindowStart(cycles[from], ingestDelay) <= instant < WindowEnd(cycles[to], ingestDelay);
    }
  }

  lemma {:induction false} WindowsStartInOrder(last: Option<int>, clock: seq<int>, intervalSeconds: int,
                                               ingestDelay: int, from: nat, to: nat)
    requires WholeSecond(last) && from <= to < |clock| && intervalSeconds >= 0
    requires ResetFree(Run(last, clock, intervalSeconds), from, to)
    ensures var cycles := Run(last, clock, intervalSeconds);
            WindowStart(cycles[from], ingestDelay) <= WindowStart(cycles[to], ingestDelay)
  {
    if from < to {
      WindowsStartInOrder(last, clock, intervalSeconds, ingestDelay, from, to - 1);
      ConsecutiveWindowsTouch(last, clock, intervalSeconds, ingestDelay, to);
      RunStep(last, clock, intervalSeconds, to - 1);
    }
  }

  /** After every call the wall clock is at most a minute behind
      and at most 29 minutes ahead of the execution time. */
  lemma {:induction false} LagIsBounded(last: Option<int>, clock: seq<int>, intervalSeconds: int, i: nat)
    requires i < |clock|
    ensures -60 * SECOND <= clock[i] - Run(last, clock, intervalSeconds)[i].executionTime <= 1740 * SECOND
  {
    RunStep(last, clock, intervalSeconds, i);
  }

  /** With the clock advancing exactly one interval per cycle, a backlog shrinks by a
      minute per cycle until the drift is at most a minute; from then on, and in any
      case from the 29th cycle, every cycle is snapped. */
  lemma {:induction false} CatchUpConverges(last: int, clock: seq<int>, intervalSeconds: int, i: nat)
    requires i < |clock|
    requires forall k :: 0 < k < |clock| ==> clock[k] == clock[k - 1] + intervalSeconds * SECOND
    requires 60 * SECOND < Drift(last, clock[0], intervalSeconds) <= 1800 * SECOND
    ensures var cycle := Run(Some(last), clock, intervalSeconds)[i];
            var backlog := Drift(last, clock[0], intervalSeconds) - i * (60 * SECOND);
            if backlog > 60 * SECOND
            then cycle.action == CatchUp && clock[i] - cycle.executionTime == backlog - 60 * SECOND
            else cycle.action == Snapped && 0 < clock[i] - cycle.executionTime <= 60 * SECOND
    ensures i >= 29 ==> Run(Some(last), clock, intervalSeconds)[i].action == Snapped
  {
    RunStep(Some(last), clock, intervalSeconds, i);
    if i > 0 {
      CatchUpConverges(last, clock, intervalSeconds, i - 1);
    }
  }
}
