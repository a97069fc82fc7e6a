/** The concurrent branch of `push_ingest_lines` in src/lib/metric_ingest.py: one task for
    each batch, a semaphore, and an abort flag. A task runs undisturbed between two awaits,
    so a step of the machine is one task resumed up to its next await. */
module ConcurrentPush {
  import opened Wrappers
  import opened Connectivity
  import opened PushRetry
  import opened Sequences
  import opened SequentialPush

  /** A batch task: not begun, waiting for the semaphore, woken with a permit, inside
      `_push_to_dynatrace`, over without a push, or over after one. */
  datatype Task = Created | Queued | Granted | Pushing(progress: Progress) | Skipped | Done(progress: Progress)

  datatype State = State(tasks: seq<Task>, permits: int, abort: bool,
                         counters: Tally, connectivity: DynatraceConnectivity, started: seq<nat>)

  function Repeat(task: Task, count: nat): (tasks: seq<Task>)
    ensures |tasks| == count && forall i :: 0 <= i < count ==> tasks[i] == task
  {
    if count == 0 then [] else Repeat(task, count - 1) + [task]
  }

  function Init(jobs: seq<Job>, concurrency: nat): State {
    State(Repeat(Created, |jobs|), concurrency, false, NOTHING, Ok, [])
  }

  predicate Enabled(s: State, i: nat) {
    && i < |s.tasks|
    && match s.tasks[i]
       case Queued => s.permits > 0
       case Pushing(progress) => !progress.pc.Finished?
       case Skipped => false
       case Done(_) => false
       case _ => true
  }

  /** Resume task `i` up to its next await. */
  function Resume(jobs: seq<Job>, s: State, i: nat): State
    requires |s.tasks| == |jobs| && Enabled(s, i)
  {
    match s.tasks[i]
    case Created => s.(tasks := s.tasks[i := if s.abort then Skipped else Queued])
    case Queued => s.(tasks := s.tasks[i := Granted], permits := s.permits - 1)
    case Granted =>
      if s.abort then s.(tasks := s.tasks[i := Skipped], permits := s.permits + 1)
      else s.(tasks := s.tasks[i := Pushing(START)], started := s.started + [i])
    case Pushing(progress) =>
      Pushed(s, i, Proceed(progress, jobs[i].script, jobs[i].lines),
             Advance(progress.pc, jobs[i].script, jobs[i].lines))
  }

  /** The push of task `i` has taken a step. When it is over, the flag is raised if it ended
      in an exception, and only then is the permit given back. */
  function Pushed(s: State, i: nat, progress: Progress, step: Step): State
    requires i < |s.tasks|
  {
    var over := progress.pc.Finished?;
    State(s.tasks[i := if over then Done(progress) else Pushing(progress)],
          if over then s.permits + 1 else s.permits,
          s.abort || Raised(progress),
          s.counters.Plus(step.tally),
          if step.connectivity.Some? then step.connectivity.value else s.connectivity,
          s.started)
  }

  predicate Raised(progress: Progress) {
    progress.pc.Finished? && progress.pc.ending.Raised?
  }

  /** The state after any schedule of resumptions; one that is not possible changes nothing. */
  function Execute(jobs: seq<Job>, concurrency: nat, schedule: seq<nat>): (s: State)
    ensures |s.tasks| == |jobs|
  {
    if schedule == [] then Init(jobs, concurrency)
    else
      var last := |schedule| - 1;
      Try(jobs, Execute(jobs, concurrency, schedule[..last]), schedule[last])
  }

  function Try(jobs: seq<Job>, s: State, i: nat): (t: State)
    requires |s.tasks| == |jobs|
    ensures |t.tasks| == |jobs|
  {
    if Enabled(s, i) then Resume(jobs, s, i) else s
  }

  // ---- Counting tasks ----

  /** What is counted of a task: a permit held, an exception raised, one raised that marked
      the connection, one raised or still possible, or the steps still to take. */
  datatype Measure = Permit | Raise | Severed | Risk | Work

  function WeightOf(measure: Measure, task: Task): nat {
    match measure
    case Permit => if task.Granted? || task.Pushing? then 1 else 0
    case Raise => if task.Done? && Raised(task.progress) then 1 else 0
    case Severed => if task.Done? && Raised(task.progress) && task.progress.pc.ending.error.Severs() then 1 else 0
    case Risk => if task.Pushing? || (task.Done? && Raised(task.progress)) then 1 else 0
    case Work =>
      match task
      case Created => Remaining(START.pc) + 3
      case Queued => Remaining(START.pc) + 2
      case Granted => Remaining(START.pc) + 1
      case Pushing(progress) => Remaining(progress.pc)
      case Skipped => 0
      case Done(_) => 0
  }

  function Weigh(measure: Measure, tasks: seq<Task>): nat {
    if tasks == [] then 0 else Weigh(measure, tasks[..|tasks| - 1]) + WeightOf(measure, tasks[|tasks| - 1])
  }

  lemma {:induction false} WeighUpdate(measure: Measure, tasks: seq<Task>, i: nat, task: Task)
    requires i < |tasks|
    ensures Weigh(measure, tasks[i := task]) + WeightOf(measure, tasks[i])
            == Weigh(measure, tasks) + WeightOf(measure, task)
    decreases |tasks|
  {
    UpdateInPrefix(tasks, i, task);
    if i < |tasks| - 1 { WeighUpdate(measure, tasks[..|tasks| - 1], i, task); }
  }

  lemma {:induction false} WeighRepeat(measure: Measure, count: nat)
    ensures Weigh(measure, Repeat(Created, count)) == if measure.Work? then 11 * count else 0
  {
    if count > 0 {
      WeighRepeat(measure, count - 1);
      DropLast(Repeat(Created, count - 1), Created);
    }
  }

  lemma {:induction false} RiskIsHeldOrRaised(tasks: seq<Task>)
    ensures Weigh(Risk, tasks) <= Weigh(Permit, tasks) + Weigh(Raise, tasks)
  {
    if tasks != [] { RiskIsHeldOrRaised(tasks[..|tasks| - 1]); }
  }

  /** Some task has weight when their sum has. */
  lemma {:induction false} WeighFinds(measure: Measure, tasks: seq<Task>) returns (i: nat)
    requires Weigh(measure, tasks) > 0
    ensures i < |tasks| && WeightOf(measure, tasks[i]) > 0
    decreases |tasks|
  {
    var last := |tasks| - 1;
    if WeightOf(measure, tasks[last]) > 0 { return last; }
    i := WeighFinds(measure, tasks[..last]);
  }

  // ---- Permits, the abort flag and termination ----

  /** Permits plus tasks that hold one is the concurrency; the flag is up exactly when
      some batch has raised; once it is, the batches that raised and those still able to are
      together no more than the concurrency. */
  predicate Bounded(concurrency: nat, s: State) {
    && s.permits >= 0 && s.permits + Weigh(Permit, s.tasks) == concurrency
    && (s.abort <==> Weigh(Raise, s.tasks) > 0)
    && (s.abort ==> Weigh(Risk, s.tasks) <= concurrency)
  }

  lemma ResumeWeighs(jobs: seq<Job>, s: State, i: nat, measure: Measure)
    requires |s.tasks| == |jobs| && Enabled(s, i)
    ensures Weigh(measure, Resume(jobs, s, i).tasks) + WeightOf(measure, s.tasks[i])
            == Weigh(measure, s.tasks) + WeightOf(measure, Resume(jobs, s, i).tasks[i])
  {
    WeighUpdate(measure, s.tasks, i, Resume(jobs, s, i).tasks[i]);
  }

  lemma ResumeKeepsBounded(jobs: seq<Job>, concurrency: nat, s: State, i: nat)
    requires |s.tasks| == |jobs| && Enabled(s, i) && Bounded(concurrency, s)
    ensures Bounded(concurrency, Resume(jobs, s, i))
  {
    ResumeWeighs(jobs, s, i, Permit);
    ResumeWeighs(jobs, s, i, Raise);
    ResumeWeighs(jobs, s, i, Risk);
    RiskIsHeldOrRaised(s.tasks);
  }

  /** Every step leaves less work, so every run ends. */
  lemma ResumeDescends(jobs: seq<Job>, s: State, i: nat)
    requires |s.tasks| == |jobs| && Enabled(s, i)
    ensures Weigh(Work, Resume(jobs, s, i).tasks) < Weigh(Work, s.tasks)
  {
    ResumeWeighs(jobs, s, i, Work);
    if s.tasks[i].Pushing? { AdvanceDescends(s.tasks[i].progress.pc, jobs[i].script, jobs[i].lines); }
  }

  /** In every state of every run. */
  lemma {:induction false} AlwaysBounded(jobs: seq<Job>, concurrency: nat, schedule: seq<nat>)
    ensures Bounded(concurrency, Execute(jobs, concurrency, schedule))
  {
    if schedule == [] {
      WeighRepeat(Permit, |jobs|);
      WeighRepeat(Raise, |jobs|);
    } else {
      var last := |schedule| - 1;
      var s := Execute(jobs, concurrency, schedule[..last]);
      AlwaysBounded(jobs, concurrency, schedule[..last]);
      if Enabled(s, schedule[last]) { ResumeKeepsBounded(jobs, concurrency, s, schedule[last]); }
    }
  }

  /** At most as many batches as the concurrency end in an exception. */
  lemma RaisesAreBounded(jobs: seq<Job>, concurrency: nat, schedule: seq<nat>)
    ensures Weigh(Raise, Execute(jobs, concurrency, schedule).tasks) <= concurrency
  {
    AlwaysBounded(jobs, concurrency, schedule);
    RaiseIsRisk(Execute(jobs, concurrency, schedule).tasks);
  }

  lemma {:induction false} RaiseIsRisk(tasks: seq<Task>)
    ensures Weigh(Raise, tasks) <= Weigh(Risk, tasks)
  {
    if tasks != [] { RaiseIsRisk(tasks[..|tasks| - 1]); }
  }

  /** Once the flag is up it stays up and no push is started, however the run goes on. */
  lemma {:induction false} AbortIsFinal(jobs: seq<Job>, concurrency: nat, schedule: seq<nat>, later: seq<nat>)
    requires Execute(jobs, concurrency, schedule).abort
    ensures Execute(jobs, concurrency, schedule + later).abort
    ensures Execute(jobs, concurrency, schedule + later).started == Execute(jobs, concurrency, schedule).started
  {
    if later == [] {
      assert schedule + later == schedule;
    } else {
      var last := |later| - 1;
      AbortIsFinal(jobs, concurrency, schedule, later[..last]);
      assert (schedule + later)[..|schedule + later| - 1] == schedule + later[..last];
    }
  }

  /** The steps of a schedule that were possible when their turn came. */
  function StepsTaken(jobs: seq<Job>, concurrency: nat, schedule: seq<nat>): nat {
    if schedule == [] then 0
    else
      var last := |schedule| - 1;
      StepsTaken(jobs, concurrency, schedule[..last])
      + if Enabled(Execute(jobs, concurrency, schedule[..last]), schedule[last]) then 1 else 0
  }

  /** No run takes more than eleven steps for each batch. */
  lemma {:induction false} RunsEnd(jobs: seq<Job>, concurrency: nat, schedule: seq<nat>)
    ensures StepsTaken(jobs, concurrency, schedule) + Weigh(Work, Execute(jobs, concurrency, schedule).tasks)
            <= 11 * |jobs|
  {
    if schedule == [] {
      WeighRepeat(Work, |jobs|);
    } else {
      var last := |schedule| - 1;
      var s := Execute(jobs, concurrency, schedule[..last]);
      RunsEnd(jobs, concurrency, schedule[..last]);
      if Enabled(s, schedule[last]) { ResumeDescends(jobs, s, schedule[last]); }
    }
  }

  predicate Over(task: Task) { task.Skipped? || task.Done? }

  predicate Quiescent(s: State) {
    forall i :: 0 <= i < |s.tasks| ==> Over(s.tasks[i])
  }

  /** A push that is over has left the `async with` block. */
  predicate Unfinished(s: State) {
    forall i :: 0 <= i < |s.tasks| ==> s.tasks[i].Pushing? ==> !s.tasks[i].progress.pc.Finished?
  }

  lemma {:induction false} AlwaysUnfinished(jobs: seq<Job>, concurrency: nat, schedule: seq<nat>)
    ensures Unfinished(Execute(jobs, concurrency, schedule))
  {
    if schedule != [] { AlwaysUnfinished(jobs, concurrency, schedule[..|schedule| - 1]); }
  }

  /** Until all tasks are over one of them can go on: no run blocks. */
  lemma NoDeadlock(jobs: seq<Job>, concurrency: nat, schedule: seq<nat>)
    requires concurrency >= 1
    ensures var s := Execute(jobs, concurrency, schedule);
            Quiescent(s) <==> forall i :: 0 <= i < |s.tasks| ==> !Enabled(s, i)
  {
    var s := Execute(jobs, concurrency, schedule);
    AlwaysBounded(jobs, concurrency, schedule);
    AlwaysUnfinished(jobs, concurrency, schedule);
    if s.permits == 0 {
      var holder := WeighFinds(Permit, s.tasks);
      assert Enabled(s, holder);
    }
    if !Quiescent(s) {
      var i :| 0 <= i < |s.tasks| && !Over(s.tasks[i]);
      assert s.permits > 0 ==> Enabled(s, i);
    }
  }

  /** The first batches are in their pushes, and the others have not begun. */
  predicate Filled(concurrency: nat, s: State, n: nat) {
    && n <= |s.tasks| && s.permits == concurrency - n && !s.abort
    && (forall i :: 0 <= i < n ==> s.tasks[i] == Pushing(START))
    && (forall i :: n <= i < |s.tasks| ==> s.tasks[i].Created?)
  }

  lemma FillOneMore(jobs: seq<Job>, concurrency: nat, s: State, n: nat)
    requires n < |jobs| == |s.tasks| && n < concurrency && Filled(concurrency, s, n)
    ensures Filled(concurrency, Try(jobs, Try(jobs, Try(jobs, s, n), n), n), n + 1)
  {
  }

  lemma ExecuteMore(jobs: seq<Job>, concurrency: nat, schedule: seq<nat>, i: nat)
    ensures Execute(jobs, concurrency, schedule + [i]) == Try(jobs, Execute(jobs, concurrency, schedule), i)
  {
    DropLast(schedule, i);
  }

  /** The semaphore lets in as many batches at once as the concurrency. */
  lemma {:induction false} ConcurrencyIsUsed(jobs: seq<Job>, concurrency: nat, n: nat) returns (schedule: seq<nat>)
    requires n <= concurrency && n <= |jobs|
    ensures Filled(concurrency, Execute(jobs, concurrency, schedule), n)
    ensures forall i :: 0 <= i < n ==> Execute(jobs, concurrency, schedule).tasks[i].Pushing?
  {
    schedule := [];
    if n > 0 {
      schedule := ConcurrencyIsUsed(jobs, concurrency, n - 1);
      FillOneMore(jobs, concurrency, Execute(jobs, concurrency, schedule), n - 1);
      ExecuteMore(jobs, concurrency, schedule, n - 1);
      ExecuteMore(jobs, concurrency, schedule + [n - 1], n - 1);
      ExecuteMore(jobs, concurrency, schedule + [n - 1] + [n - 1], n - 1);
      schedule := schedule + [n - 1] + [n - 1] + [n - 1];
    }
  }

  // ---- Each batch is pushed at most once, and skipped only after a raise ----

  predicate Begun(task: Task) { task.Pushing? || task.Done? }

  predicate StartsOnce(s: State) {
    && (forall i <- s.started :: i < |s.tasks|)
    && (forall i :: 0 <= i < |s.tasks| ==> multiset(s.started)[i] == if Begun(s.tasks[i]) then 1 else 0)
    && (forall i :: 0 <= i < |s.tasks| ==> s.tasks[i].Skipped? ==> s.abort)
  }

  /** A task changes without a push being started. */
  lemma ChangeStartsNothing(s: State, t: State, i: nat)
    requires i < |s.tasks| == |t.tasks| && StartsOnce(s)
    requires t.tasks == s.tasks[i := t.tasks[i]] && t.started == s.started
    requires Begun(t.tasks[i]) <==> Begun(s.tasks[i])
    requires (s.abort ==> t.abort) && (t.tasks[i].Skipped? ==> t.abort)
    ensures StartsOnce(t)
  {
  }

  lemma StartStartsOnce(s: State, t: State, i: nat)
    requires i < |s.tasks| && StartsOnce(s) && !Begun(s.tasks[i])
    requires t == s.(tasks := s.tasks[i := Pushing(START)], started := s.started + [i])
    ensures StartsOnce(t)
  {
  }

  lemma ResumeStartsOnce(jobs: seq<Job>, s: State, i: nat)
    requires |s.tasks| == |jobs| && Enabled(s, i) && StartsOnce(s)
    ensures StartsOnce(Resume(jobs, s, i))
  {
    if s.tasks[i].Granted? && !s.abort {
      StartStartsOnce(s, Resume(jobs, s, i), i);
    } else {
      ChangeStartsNothing(s, Resume(jobs, s, i), i);
    }
  }

  lemma {:induction false} AlwaysStartsOnce(jobs: seq<Job>, concurrency: nat, schedule: seq<nat>)
    ensures StartsOnce(Execute(jobs, concurrency, schedule))
  {
    if schedule != [] {
      var last := |schedule| - 1;
      var s := Execute(jobs, concurrency, schedule[..last]);
      AlwaysStartsOnce(jobs, concurrency, schedule[..last]);
      if Enabled(s, schedule[last]) { ResumeStartsOnce(jobs, s, schedule[last]); }
    }
  }

  // ---- Each push goes as it would alone ----

  predicate OnCourse(job: Job, task: Task) {
    match task
    case Pushing(progress) => OnTrack(progress, job.script, job.lines)
    case Done(progress) => progress.pc.Finished? && OnTrack(progress, job.script, job.lines)
    case _ => true
  }

  predicate AllOnCourse(jobs: seq<Job>, s: State)
    requires |s.tasks| == |jobs|
  {
    forall i :: 0 <= i < |jobs| ==> OnCourse(jobs[i], s.tasks[i])
  }

  lemma StartIsOnTrack(script: Script, lines: nat)
    ensures OnTrack(START, script, lines)
  {
  }

  lemma ResumeStaysOnCourse(jobs: seq<Job>, s: State, i: nat)
    requires |s.tasks| == |jobs| && Enabled(s, i) && OnCourse(jobs[i], s.tasks[i])
    ensures OnCourse(jobs[i], Resume(jobs, s, i).tasks[i])
  {
    StartIsOnTrack(jobs[i].script, jobs[i].lines);
    if s.tasks[i].Pushing? { TrackStep(s.tasks[i].progress, jobs[i].script, jobs[i].lines); }
  }

  lemma {:induction false} AlwaysOnCourse(jobs: seq<Job>, concurrency: nat, schedule: seq<nat>)
    ensures AllOnCourse(jobs, Execute(jobs, concurrency, schedule))
  {
    if schedule != [] {
      var last := |schedule| - 1;
      var s, t := Execute(jobs, concurrency, schedule[..last]), Execute(jobs, concurrency, schedule);
      AlwaysOnCourse(jobs, concurrency, schedule[..last]);
      if Enabled(s, schedule[last]) {
        ResumeStaysOnCourse(jobs, s, schedule[last]);
        forall i | 0 <= i < |jobs| ensures OnCourse(jobs[i], t.tasks[i]) {
          if i != schedule[last] { assert t.tasks[i] == s.tasks[i]; }
        }
      }
    }
  }

  // ---- The shared counters ----

  function TallyIn(task: Task): Tally {
    if task.Pushing? || task.Done? then task.progress.tally else NOTHING
  }

  function TallyOfAll(tasks: seq<Task>): Tally {
    if tasks == [] then NOTHING else TallyOfAll(tasks[..|tasks| - 1]).Plus(TallyIn(tasks[|tasks| - 1]))
  }

  lemma PlusSwap(a: Tally, b: Tally, c: Tally)
    ensures a.Plus(b).Plus(c) == a.Plus(c).Plus(b)
  {
    assert (a.requests + b.requests) + c.requests == (a.requests + c.requests) + b.requests;
  }

  lemma {:induction false} TallyUpdate(tasks: seq<Task>, i: nat, task: Task, more: Tally)
    requires i < |tasks| && TallyIn(task) == TallyIn(tasks[i]).Plus(more)
    ensures TallyOfAll(tasks[i := task]) == TallyOfAll(tasks).Plus(more)
    decreases |tasks|
  {
    var last := |tasks| - 1;
    UpdateInPrefix(tasks, i, task);
    if i == last {
      PlusIsAssociative(TallyOfAll(tasks[..last]), TallyIn(tasks[last]), more);
    } else {
      TallyUpdate(tasks[..last], i, task, more);
      PlusSwap(TallyOfAll(tasks[..last]), more, TallyIn(tasks[last]));
    }
  }

  lemma {:induction false} NothingTallied(tasks: seq<Task>)
    requires forall task <- tasks :: TallyIn(task) == NOTHING
    ensures TallyOfAll(tasks) == NOTHING
  {
    if tasks != [] {
      NothingTallied(tasks[..|tasks| - 1]);
      PlusNothing(NOTHING);
    }
  }

  lemma {:induction false} TallyKept(tasks: seq<Task>, i: nat, task: Task)
    requires i < |tasks| && TallyIn(task) == TallyIn(tasks[i])
    ensures TallyOfAll(tasks[i := task]) == TallyOfAll(tasks)
    decreases |tasks|
  {
    UpdateInPrefix(tasks, i, task);
    if i < |tasks| - 1 { TallyKept(tasks[..|tasks| - 1], i, task); }
  }

  lemma PushedTallies(s: State, i: nat, progress: Progress, step: Step)
    requires i < |s.tasks| && s.tasks[i].Pushing? && progress.tally == s.tasks[i].progress.tally.Plus(step.tally)
    ensures TallyOfAll(Pushed(s, i, progress, step).tasks) == TallyOfAll(s.tasks).Plus(step.tally)
  {
    TallyUpdate(s.tasks, i, Pushed(s, i, progress, step).tasks[i], step.tally);
  }

  lemma ResumeTallies(jobs: seq<Job>, s: State, i: nat)
    requires |s.tasks| == |jobs| && Enabled(s, i) && s.counters == TallyOfAll(s.tasks)
    ensures Resume(jobs, s, i).counters == TallyOfAll(Resume(jobs, s, i).tasks)
  {
    if s.tasks[i].Pushing? {
      var pc := s.tasks[i].progress.pc;
      PushedTallies(s, i, Proceed(s.tasks[i].progress, jobs[i].script, jobs[i].lines),
                    Advance(pc, jobs[i].script, jobs[i].lines));
    } else {
      TallyKept(s.tasks, i, Resume(jobs, s, i).tasks[i]);
    }
  }

  /** The counters are always the sum of what the pushes have counted so far. */
  lemma {:induction false} AlwaysTallied(jobs: seq<Job>, concurrency: nat, schedule: seq<nat>)
    ensures Execute(jobs, concurrency, schedule).counters == TallyOfAll(Execute(jobs, concurrency, schedule).tasks)
  {
    if schedule == [] {
      NothingTallied(Repeat(Created, |jobs|));
    } else {
      var last := |schedule| - 1;
      var s := Execute(jobs, concurrency, schedule[..last]);
      AlwaysTallied(jobs, concurrency, schedule[..last]);
      if Enabled(s, schedule[last]) { ResumeTallies(jobs, s, schedule[last]); }
    }
  }

  // ---- What a finished run amounts to ----

  /** A task that pushed its batch did and counted what that push does alone. */
  lemma DoneAsAlone(jobs: seq<Job>, concurrency: nat, schedule: seq<nat>, i: nat)
    requires i < |jobs| && Execute(jobs, concurrency, schedule).tasks[i].Done?
    ensures var push := Pushes(jobs)[i];
            Execute(jobs, concurrency, schedule).tasks[i]
            == Done(Progress(Finished(push.verdict.ending), push.posts, push.slept, push.tally))
  {
    AlwaysOnCourse(jobs, concurrency, schedule);
    assert OnCourse(jobs[i], Execute(jobs, concurrency, schedule).tasks[i]);
    PushesAt(jobs, i);
  }

  lemma {:induction false} NoneRaisesAt(pushes: seq<PushResult>, count: nat, i: nat)
    requires i < count <= |pushes| && NoneRaises(pushes, count)
    ensures !pushes[i].verdict.ending.Raised?
  {
    if i < count - 1 { NoneRaisesAt(pushes, count - 1, i); }
  }

  /** Without a batch that raises no run ever aborts. */
  lemma NoRaiseNoAbort(jobs: seq<Job>, concurrency: nat, schedule: seq<nat>)
    requires NoneRaises(Pushes(jobs), |jobs|)
    ensures !Execute(jobs, concurrency, schedule).abort
  {
    var s := Execute(jobs, concurrency, schedule);
    AlwaysBounded(jobs, concurrency, schedule);
    if s.abort {
      var i := WeighFinds(Raise, s.tasks);
      DoneAsAlone(jobs, concurrency, schedule, i);
      NoneRaisesAt(Pushes(jobs), |jobs|, i);
      assert false;
    }
  }

  lemma {:induction false} TallyOfDone(tasks: seq<Task>, pushes: seq<PushResult>)
    requires |tasks| == |pushes| && forall i :: 0 <= i < |tasks| ==> TallyIn(tasks[i]) == pushes[i].tally
    ensures TallyOfAll(tasks) == SumOf(pushes, |pushes|)
  {
    if tasks != [] {
      var last := |tasks| - 1;
      TallyOfDone(tasks[..last], pushes[..last]);
      SumOfPrefix(pushes, last, last);
    }
  }

  lemma {:induction false} SumOfPrefix(pushes: seq<PushResult>, length: nat, count: nat)
    requires count <= length <= |pushes|
    ensures SumOf(pushes[..length], count) == SumOf(pushes, count)
  {
    if count > 0 { SumOfPrefix(pushes, length, count - 1); }
  }

  /** When no batch raises, every interleaving, with any concurrency, starts each batch
      exactly once and leaves the same counters and connectivity as pushing the batches one
      after another. */
  lemma ConcurrentEqualsSequential(jobs: seq<Job>, concurrency: nat, schedule: seq<nat>, books: Books, project: string)
    requires NoneRaises(Pushes(jobs), |jobs|) && Quiescent(Execute(jobs, concurrency, schedule))
    requires books == Books(multiset{}, map[], map[], map[], Ok, 0, 0)
    ensures var s := Execute(jobs, concurrency, schedule);
            var sequential := BooksAfter(books, project, Pushes(jobs), |jobs|);
            && StopsAt(Pushes(jobs), |jobs|)
            && s.counters == sequential.TallyOf(project) && s.connectivity == sequential.connectivity
            && forall i :: 0 <= i < |jobs| ==> multiset(s.started)[i] == 1
  {
    EachStartedOnce(jobs, concurrency, schedule);
    CountersAsSequential(jobs, concurrency, schedule);
    ConnectivityWithoutRaise(jobs, concurrency, schedule);
    PushesTally(jobs);
    BooksAfterCount(books, project, Pushes(jobs), |jobs|);
    PlusNothing(SumOf(Pushes(jobs), |jobs|));
    PushesMark(jobs);
    SequentialWithoutRaise(books, project, Pushes(jobs));
  }

  lemma EachStartedOnce(jobs: seq<Job>, concurrency: nat, schedule: seq<nat>)
    requires NoneRaises(Pushes(jobs), |jobs|) && Quiescent(Execute(jobs, concurrency, schedule))
    ensures var s := Execute(jobs, concurrency, schedule);
            forall i :: 0 <= i < |jobs| ==> s.tasks[i].Done? && multiset(s.started)[i] == 1
  {
    AlwaysStartsOnce(jobs, concurrency, schedule);
    NoRaiseNoAbort(jobs, concurrency, schedule);
    assert forall i :: 0 <= i < |jobs| ==> Over(Execute(jobs, concurrency, schedule).tasks[i]);
  }

  lemma CountersAsSequential(jobs: seq<Job>, concurrency: nat, schedule: seq<nat>)
    requires NoneRaises(Pushes(jobs), |jobs|) && Quiescent(Execute(jobs, concurrency, schedule))
    ensures Execute(jobs, concurrency, schedule).counters == SumOf(Pushes(jobs), |jobs|)
  {
    var s := Execute(jobs, concurrency, schedule);
    EachStartedOnce(jobs, concurrency, schedule);
    forall i | 0 <= i < |jobs| ensures TallyIn(s.tasks[i]) == Pushes(jobs)[i].tally {
      DoneAsAlone(jobs, concurrency, schedule, i);
    }
    TallyOfDone(s.tasks, Pushes(jobs));
    AlwaysTallied(jobs, concurrency, schedule);
  }

  // ---- Connectivity ----

  lemma StepMarks(pc: Pc, script: Script, lines: nat)
    requires !pc.Finished?
    ensures var step := Advance(pc, script, lines);
            && (step.connectivity.Some?
                <==> step.pc.Finished? && step.pc.ending.Raised? && step.pc.ending.error.Severs())
            && step.connectivity != Some(Ok)
  {
  }

  /** The connection is marked as broken exactly when a batch has raised on a fatal status. */
  predicate Marked(s: State) {
    s.connectivity != Ok <==> Weigh(Severed, s.tasks) > 0
  }

  lemma ResumeKeepsMarked(jobs: seq<Job>, s: State, i: nat)
    requires |s.tasks| == |jobs| && Enabled(s, i) && Marked(s)
    ensures Marked(Resume(jobs, s, i))
  {
    ResumeWeighs(jobs, s, i, Severed);
    if s.tasks[i].Pushing? { StepMarks(s.tasks[i].progress.pc, jobs[i].script, jobs[i].lines); }
  }

  lemma {:induction false} AlwaysMarked(jobs: seq<Job>, concurrency: nat, schedule: seq<nat>)
    ensures Marked(Execute(jobs, concurrency, schedule))
  {
    if schedule == [] {
      WeighRepeat(Severed, |jobs|);
    } else {
      var last := |schedule| - 1;
      var s := Execute(jobs, concurrency, schedule[..last]);
      AlwaysMarked(jobs, concurrency, schedule[..last]);
      if Enabled(s, schedule[last]) { ResumeKeepsMarked(jobs, s, schedule[last]); }
    }
  }

  /** A step that marks the connection ends the push, with the mark of its verdict. */
  lemma StepMarksAsVerdict(progress: Progress, script: Script, lines: nat)
    requires OnTrack(progress, script, lines) && !progress.pc.Finished?
    requires Advance(progress.pc, script, lines).connectivity.Some?
    ensures Proceed(progress, script, lines).pc.Finished?
    ensures Advance(progress.pc, script, lines).connectivity == Push(script, lines).verdict.connectivity
  {
    var attempt := progress.pc.attempt;
    ReplyMarks(attempt, script.At(attempt), lines);
    DecidesIff(script, attempt);
  }

  lemma ReplyMarks(attempt: nat, reply: Reply, lines: nat)
    requires AfterReply(attempt, reply, lines).connectivity.Some?
    ensures AfterReply(attempt, reply, lines).pc.Finished? && !Transient(reply)
    ensures AfterReply(attempt, reply, lines).connectivity == VerdictOn(reply, lines).connectivity
  {
  }

  /** The batch is over, and this is the connectivity that its push leaves. */
  predicate LeavesMark(job: Job, task: Task, connectivity: DynatraceConnectivity) {
    task.Done? && Push(job.script, job.lines).verdict.connectivity == Some(connectivity)
  }

  ghost predicate MarkIsOfABatch(jobs: seq<Job>, s: State)
    requires |s.tasks| == |jobs|
  {
    s.connectivity != Ok ==> exists i :: 0 <= i < |jobs| && LeavesMark(jobs[i], s.tasks[i], s.connectivity)
  }

  lemma ResumeKeepsMark(jobs: seq<Job>, s: State, i: nat)
    requires |s.tasks| == |jobs| && Enabled(s, i) && AllOnCourse(jobs, s) && MarkIsOfABatch(jobs, s)
    ensures MarkIsOfABatch(jobs, Resume(jobs, s, i))
  {
    var t := Resume(jobs, s, i);
    if s.tasks[i].Pushing? && Advance(s.tasks[i].progress.pc, jobs[i].script, jobs[i].lines).connectivity.Some? {
      assert OnCourse(jobs[i], s.tasks[i]);
      StepMarksAsVerdict(s.tasks[i].progress, jobs[i].script, jobs[i].lines);
      assert LeavesMark(jobs[i], t.tasks[i], t.connectivity);
    } else if s.connectivity != Ok {
      var k :| 0 <= k < |jobs| && LeavesMark(jobs[k], s.tasks[k], s.connectivity);
      assert LeavesMark(jobs[k], t.tasks[k], t.connectivity);
    }
  }

  /** A mark on the connection is always the one that the push of some finished batch leaves. */
  lemma {:induction false} AlwaysMarkOfABatch(jobs: seq<Job>, concurrency: nat, schedule: seq<nat>)
    ensures MarkIsOfABatch(jobs, Execute(jobs, concurrency, schedule))
  {
    if schedule != [] {
      var last := |schedule| - 1;
      var s := Execute(jobs, concurrency, schedule[..last]);
      AlwaysMarkOfABatch(jobs, concurrency, schedule[..last]);
      AlwaysOnCourse(jobs, concurrency, schedule[..last]);
      if Enabled(s, schedule[last]) { ResumeKeepsMark(jobs, s, schedule[last]); }
    }
  }

  lemma {:induction false} BreakIsRaise(tasks: seq<Task>)
    ensures Weigh(Severed, tasks) <= Weigh(Raise, tasks)
  {
    if tasks != [] { BreakIsRaise(tasks[..|tasks| - 1]); }
  }

  lemma ConnectivityWithoutRaise(jobs: seq<Job>, concurrency: nat, schedule: seq<nat>)
    requires NoneRaises(Pushes(jobs), |jobs|)
    ensures Execute(jobs, concurrency, schedule).connectivity == Ok
  {
    AlwaysMarked(jobs, concurrency, schedule);
    AlwaysBounded(jobs, concurrency, schedule);
    NoRaiseNoAbort(jobs, concurrency, schedule);
    BreakIsRaise(Execute(jobs, concurrency, schedule).tasks);
  }

  lemma SequentialWithoutRaise(books: Books, project: string, pushes: seq<PushResult>)
    requires books.connectivity == Ok && AllMark(pushes) && NoneRaises(pushes, |pushes|)
    ensures BooksAfter(books, project, pushes, |pushes|).connectivity == Ok
  {
    BooksAfterConnectivity(books, project, pushes, |pushes|);
    forall i | 0 <= i < |pushes| ensures !BreaksConnection(pushes[i]) {
      NoneRaisesAt(pushes, |pushes|, i);
    }
  }

  // ---- Lines ----

  /** The lines of the batch are not counted: its push raised, or is not over. In a quiescent
      state the latter is a batch never started. */
  predicate IsUncounted(task: Task) {
    !task.Done? || Raised(task.progress)
  }

  function UncountedLines(jobs: seq<Job>, tasks: seq<Task>): nat
    requires |jobs| == |tasks|
  {
    if tasks == [] then 0
    else
      var last := |tasks| - 1;
      UncountedLines(jobs[..last], tasks[..last]) + if IsUncounted(tasks[last]) then jobs[last].lines else 0
  }

  predicate LinesCounted(job: Job, task: Task) {
    TallyIn(task).Lines() == if IsUncounted(task) then 0 else job.lines
  }

  lemma {:induction false} CountedOrNot(jobs: seq<Job>, tasks: seq<Task>)
    requires |jobs| == |tasks| && forall i :: 0 <= i < |tasks| ==> LinesCounted(jobs[i], tasks[i])
    ensures TallyOfAll(tasks).Lines() + UncountedLines(jobs, tasks) == Lengths(jobs, |jobs|)
  {
    if tasks != [] {
      var last := |tasks| - 1;
      CountedOrNot(jobs[..last], tasks[..last]);
      LengthsPrefix(jobs, last, last);
      assert LinesCounted(jobs[last], tasks[last]);
    }
  }

  lemma {:induction false} LengthsPrefix(jobs: seq<Job>, length: nat, count: nat)
    requires count <= length <= |jobs|
    ensures Lengths(jobs[..length], count) == Lengths(jobs, count)
  {
    if count > 0 { LengthsPrefix(jobs, length, count - 1); }
  }

  /** A push that is not over has counted requests only. */
  lemma NoLinesBeforeTheEnd(job: Job, progress: Progress)
    requires OnTrack(progress, job.script, job.lines) && !progress.pc.Finished?
    ensures progress.tally.Lines() == 0
  {
  }

  /** In every state of every run the counted lines and those of batches not counted are
      all lines. */
  lemma RunConservesLines(jobs: seq<Job>, concurrency: nat, schedule: seq<nat>)
    requires AllHonest(jobs)
    ensures var s := Execute(jobs, concurrency, schedule);
            s.counters.Lines() + UncountedLines(jobs, s.tasks) == Lengths(jobs, |jobs|)
  {
    var s := Execute(jobs, concurrency, schedule);
    PushesConserve(jobs);
    AlwaysUnfinished(jobs, concurrency, schedule);
    AlwaysOnCourse(jobs, concurrency, schedule);
    forall i | 0 <= i < |jobs| ensures LinesCounted(jobs[i], s.tasks[i]) {
      if s.tasks[i].Done? {
        DoneAsAlone(jobs, concurrency, schedule, i);
        assert Conserves(jobs[i], Pushes(jobs)[i]);
      } else if s.tasks[i].Pushing? {
        NoLinesBeforeTheEnd(jobs[i], s.tasks[i].progress);
      }
    }
    CountedOrNot(jobs, s.tasks);
    AlwaysTallied(jobs, concurrency, schedule);
  }

  /** Line conservation: at every moment of every run each line given is ok, invalid, dropped,
      in a batch that raised, or in a batch whose push is not over; at the end of the run
      the last are the batches never started. */
  lemma LinesAreConserved<T>(lines: seq<T>, batchSize: int, scripts: seq<Script>, jobs: seq<Job>,
                             concurrency: nat, schedule: seq<nat>)
    requires jobs == Jobs(Chunks(lines, batchSize), scripts) && AllHonest(jobs)
    ensures var s := Execute(jobs, concurrency, schedule);
            |lines| == s.counters.linesOk + s.counters.linesInvalid + s.counters.linesDropped
                       + UncountedLines(jobs, s.tasks)
  {
    RunConservesLines(jobs, concurrency, schedule);
    AllLines(lines, batchSize, Chunks(lines, batchSize), scripts);
  }

  /** At the end of a run a batch is uncounted exactly when its push raised, or was never
      started because another had. */
  lemma UncountedAtTheEnd(jobs: seq<Job>, concurrency: nat, schedule: seq<nat>, i: nat)
    requires i < |jobs| && Quiescent(Execute(jobs, concurrency, schedule))
    ensures var s := Execute(jobs, concurrency, schedule);
            IsUncounted(s.tasks[i])
            <==> if i in s.started then Pushes(jobs)[i].verdict.ending.Raised? else s.abort
  {
    var s := Execute(jobs, concurrency, schedule);
    assert Over(s.tasks[i]);
    AlwaysStartsOnce(jobs, concurrency, schedule);
    assert i in s.started <==> multiset(s.started)[i] > 0;
    if s.tasks[i].Done? { DoneAsAlone(jobs, concurrency, schedule, i); }
  }
}
