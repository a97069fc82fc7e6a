/** The calls of `push_ingest_lines` in src/lib/metric_ingest.py that src/main.py runs at once,
    one for each project, on one shared context. A call looks at the connectivity once, when
    it begins; after that it pushes its batches one by one or concurrently. */
module InterleavedCalls {
  import opened Wrappers
  import opened Connectivity
  import opened PushRetry
  import opened Sequences
  import opened SequentialPush
  import ConcurrentPush

  /** A call with its batches; `concurrency` is that of the context. */
  datatype Call = Call(project: string, jobs: seq<Job>, concurrency: int)

  /** The loop over the batches, for a concurrency of at most one, is the machine of the
      batch tasks with one permit and the tasks in turn. */
  function Permits(call: Call): nat {
    if call.concurrency <= 1 then 1 else call.concurrency
  }

  /** A call that has not begun, has sent nothing, or is pushing its batches. */
  datatype Stage = NotBegun | Declined | Begun(push: ConcurrentPush.State)

  /** The context: requests are counted for all projects together, and `counted` holds the
      lines of each. */
  datatype State = State(stages: seq<Stage>, connectivity: DynatraceConnectivity, requests: multiset<int>,
                         counted: map<string, Tally>)

  datatype Step = Begin(call: nat) | Resume(call: nat, task: nat)

  /** The loop over the batches gets to a batch when those before it are over and none raised. */
  predicate InTurn(push: ConcurrentPush.State, task: nat) {
    !push.abort && forall k :: 0 <= k < task && k < |push.tasks| ==> push.tasks[k].Done?
  }

  predicate Enabled(calls: seq<Call>, s: State, step: Step) {
    && step.call < |calls| == |s.stages|
    && match step
       case Begin(c) => s.stages[c].NotBegun?
       case Resume(c, task) =>
         && s.stages[c].Begun? && |s.stages[c].push.tasks| == |calls[c].jobs|
         && ConcurrentPush.Enabled(s.stages[c].push, task)
         && (calls[c].concurrency <= 1 ==> InTurn(s.stages[c].push, task))
  }

  function LinesFor(counted: map<string, Tally>, project: string): Tally {
    if project in counted then counted[project] else NOTHING
  }

  function LinesOnly(tally: Tally): Tally { tally.(requests := multiset{}) }

  /** What the counters say of a project, and of the requests. */
  function CountedFor(s: State, project: string): Tally {
    LinesFor(s.counted, project).(requests := s.requests)
  }

  /** What of a tally for one project is seen by another: the requests. */
  function Seen(project: string, other: string, tally: Tally): Tally {
    if project == other then tally else Requests(tally.requests)
  }

  /** What a resumed task adds to the counters, and the mark it leaves on the connection. */
  function TallyOfStep(jobs: seq<Job>, push: ConcurrentPush.State, task: nat): Tally
    requires |push.tasks| == |jobs| && ConcurrentPush.Enabled(push, task)
  {
    var at := push.tasks[task];
    if at.Pushing? then Advance(at.progress.pc, jobs[task].script, jobs[task].lines).tally else NOTHING
  }

  function MarkOfStep(jobs: seq<Job>, push: ConcurrentPush.State, task: nat): Option<DynatraceConnectivity>
    requires |push.tasks| == |jobs| && ConcurrentPush.Enabled(push, task)
  {
    var at := push.tasks[task];
    if at.Pushing? then Advance(at.progress.pc, jobs[task].script, jobs[task].lines).connectivity else None
  }

  function After(connectivity: DynatraceConnectivity, mark: Option<DynatraceConnectivity>): DynatraceConnectivity {
    if mark.Some? then mark.value else connectivity
  }

  /** A resumed task leaves a tally and maybe a mark on the context. */
  function Recorded(s: State, stages: seq<Stage>, project: string, more: Tally,
                    mark: Option<DynatraceConnectivity>): State {
    State(stages, After(s.connectivity, mark), s.requests + more.requests,
          s.counted[project := LinesFor(s.counted, project).Plus(LinesOnly(more))])
  }

  function Next(calls: seq<Call>, s: State, step: Step): (t: State)
    requires Enabled(calls, s, step)
    ensures |t.stages| == |calls|
  {
    match step
    case Begin(c) =>
      var declines := s.connectivity != Ok || calls[c].jobs == [];
      var begun := Begun(ConcurrentPush.Init(calls[c].jobs, Permits(calls[c])));
      s.(stages := s.stages[c := if declines then Declined else begun])
    case Resume(c, task) =>
      var call, push := calls[c], s.stages[c].push;
      Recorded(s, s.stages[c := Begun(ConcurrentPush.Resume(call.jobs, push, task))], call.project,
               TallyOfStep(call.jobs, push, task), MarkOfStep(call.jobs, push, task))
  }

  lemma ResumeMarks(calls: seq<Call>, s: State, step: Step)
    requires Enabled(calls, s, step) && step.Resume?
    ensures var mark := MarkOfStep(calls[step.call].jobs, s.stages[step.call].push, step.task);
            Next(calls, s, step).connectivity == After(s.connectivity, mark)
  {
  }

  lemma OthersStay(calls: seq<Call>, s: State, step: Step, c: nat)
    requires Enabled(calls, s, step) && c < |calls| && step.call != c
    ensures Next(calls, s, step).stages[c] == s.stages[c]
  {
  }

  lemma ResumeMoves(calls: seq<Call>, s: State, step: Step)
    requires Enabled(calls, s, step) && step.Resume?
    ensures var pushed := ConcurrentPush.Resume(calls[step.call].jobs, s.stages[step.call].push, step.task);
            Next(calls, s, step).stages == s.stages[step.call := Begun(pushed)]
  {
  }

  function AllNotBegun(count: nat): (stages: seq<Stage>)
    ensures |stages| == count && forall c :: 0 <= c < count ==> stages[c] == NotBegun
  {
    if count == 0 then [] else AllNotBegun(count - 1) + [NotBegun]
  }

  /** The state after any interleaving; a step that is not possible changes nothing. */
  function Run(calls: seq<Call>, steps: seq<Step>): (s: State)
    ensures |s.stages| == |calls|
  {
    if steps == [] then State(AllNotBegun(|calls|), Ok, multiset{}, map[])
    else
      var s := Run(calls, steps[..|steps| - 1]);
      if Enabled(calls, s, steps[|steps| - 1]) then Next(calls, s, steps[|steps| - 1]) else s
  }

  lemma RunMore(calls: seq<Call>, steps: seq<Step>, step: Step)
    ensures var s := Run(calls, steps);
            Run(calls, steps + [step]) == if Enabled(calls, s, step) then Next(calls, s, step) else s
  {
    DropLast(steps, step);
  }

  // ---- Each call runs as it would alone ----

  /** The tasks of one call in the order they were resumed. */
  function LocalSchedule(calls: seq<Call>, steps: seq<Step>, c: nat): seq<nat> {
    if steps == [] then []
    else
      var last := |steps| - 1;
      LocalSchedule(calls, steps[..last], c)
      + if steps[last].Resume? && steps[last].call == c && Enabled(calls, Run(calls, steps[..last]), steps[last])
        then [steps[last].task] else []
  }

  predicate AsAlone(call: Call, stage: Stage, schedule: seq<nat>) {
    if stage.Begun? then stage.push == ConcurrentPush.Execute(call.jobs, Permits(call), schedule) else schedule == []
  }

  lemma NextAsAlone(calls: seq<Call>, s: State, step: Step, c: nat, schedule: seq<nat>)
    requires Enabled(calls, s, step) && c < |calls| && AsAlone(calls[c], s.stages[c], schedule)
    ensures AsAlone(calls[c], Next(calls, s, step).stages[c],
                    schedule + if step.Resume? && step.call == c then [step.task] else [])
  {
    if step.call != c {
      OthersStay(calls, s, step, c);
      ConcatEmpty(schedule);
    } else if step.Resume? {
      ResumeMoves(calls, s, step);
      ConcurrentPush.ExecuteMore(calls[c].jobs, Permits(calls[c]), schedule, step.task);
    } else {
      ConcatEmpty(schedule);
    }
  }

  /** However the calls interleave, a call that has begun is in a state that its own tasks
      reach without the others, so all that holds of one call holds of each. */
  lemma {:induction false} EachCallRunsAlone(calls: seq<Call>, steps: seq<Step>, c: nat)
    requires c < |calls|
    ensures AsAlone(calls[c], Run(calls, steps).stages[c], LocalSchedule(calls, steps, c))
  {
    if steps != [] {
      var last := |steps| - 1;
      var s, schedule := Run(calls, steps[..last]), LocalSchedule(calls, steps[..last], c);
      EachCallRunsAlone(calls, steps[..last], c);
      if Enabled(calls, s, steps[last]) {
        NextAsAlone(calls, s, steps[last], c, schedule);
      } else {
        assert schedule + [] == schedule;
      }
    }
  }

  // ---- The shared connectivity ----

  /** A batch of the call has raised on a fatal status. */
  predicate Severed(stage: Stage) {
    stage.Begun? && ConcurrentPush.Weigh(ConcurrentPush.Severed, stage.push.tasks) > 0
  }

  predicate SomeSevered(stages: seq<Stage>) {
    stages != [] && (SomeSevered(stages[..|stages| - 1]) || Severed(stages[|stages| - 1]))
  }

  lemma {:induction false} SomeSeveredUpdate(stages: seq<Stage>, c: nat, stage: Stage)
    requires c < |stages| && (Severed(stages[c]) ==> Severed(stage))
    ensures SomeSevered(stages[c := stage]) <==> SomeSevered(stages) || Severed(stage)
    decreases |stages|
  {
    UpdateInPrefix(stages, c, stage);
    if c < |stages| - 1 { SomeSeveredUpdate(stages[..|stages| - 1], c, stage); }
  }

  lemma {:induction false} SomeSeveredIff(stages: seq<Stage>)
    ensures SomeSevered(stages) <==> exists c :: 0 <= c < |stages| && Severed(stages[c])
  {
    if stages != [] {
      var last := |stages| - 1;
      SomeSeveredIff(stages[..last]);
      assert forall c :: 0 <= c < last ==> stages[..last][c] == stages[c];
    }
  }

  lemma {:induction false} NoneSevered(count: nat)
    ensures !SomeSevered(AllNotBegun(count))
  {
    if count > 0 {
      NoneSevered(count - 1);
      assert AllNotBegun(count)[..count - 1] == AllNotBegun(count - 1);
    }
  }

  lemma ResumeSevers(jobs: seq<Job>, push: ConcurrentPush.State, task: nat)
    requires |push.tasks| == |jobs| && ConcurrentPush.Enabled(push, task)
    ensures MarkOfStep(jobs, push, task) != Some(Ok)
    ensures Severed(Begun(ConcurrentPush.Resume(jobs, push, task)))
            <==> Severed(Begun(push)) || MarkOfStep(jobs, push, task).Some?
  {
    ConcurrentPush.ResumeWeighs(jobs, push, task, ConcurrentPush.Severed);
    if push.tasks[task].Pushing? {
      ConcurrentPush.StepMarks(push.tasks[task].progress.pc, jobs[task].script, jobs[task].lines);
    }
  }

  lemma InitIsNotSevered(call: Call)
    ensures !Severed(Begun(ConcurrentPush.Init(call.jobs, Permits(call))))
  {
    ConcurrentPush.WeighRepeat(ConcurrentPush.Severed, |call.jobs|);
  }

  lemma BeginConnectivity(calls: seq<Call>, s: State, step: Step)
    requires Enabled(calls, s, step) && step.Begin?
    ensures Next(calls, s, step).connectivity == s.connectivity
    ensures SomeSevered(Next(calls, s, step).stages) <==> SomeSevered(s.stages)
  {
    var c := step.call;
    var begun := Begun(ConcurrentPush.Init(calls[c].jobs, Permits(calls[c])));
    InitIsNotSevered(calls[c]);
    SomeSeveredUpdate(s.stages, c, begun);
    SomeSeveredUpdate(s.stages, c, Declined);
  }

  lemma MarkedConnectivity(stages: seq<Stage>, c: nat, stage: Stage, before: DynatraceConnectivity,
                           mark: Option<DynatraceConnectivity>)
    requires c < |stages| && (before != Ok <==> SomeSevered(stages)) && mark != Some(Ok)
    requires Severed(stage) <==> Severed(stages[c]) || mark.Some?
    ensures After(before, mark) != Ok <==> SomeSevered(stages[c := stage])
  {
    SomeSeveredUpdate(stages, c, stage);
    if Severed(stages[c]) { SomeSeveredIff(stages); }
  }

  lemma ResumeConnectivity(calls: seq<Call>, s: State, step: Step)
    requires Enabled(calls, s, step) && step.Resume? && (s.connectivity != Ok <==> SomeSevered(s.stages))
    ensures Next(calls, s, step).connectivity != Ok <==> SomeSevered(Next(calls, s, step).stages)
  {
    var stage, mark := ResumeLeaves(calls, s, step);
    MarkedConnectivity(s.stages, step.call, stage, s.connectivity, mark);
  }

  /** The stage and the mark that a resumed task leaves behind. */
  lemma ResumeLeaves(calls: seq<Call>, s: State, step: Step)
    returns (stage: Stage, mark: Option<DynatraceConnectivity>)
    requires Enabled(calls, s, step) && step.Resume?
    ensures Next(calls, s, step).stages == s.stages[step.call := stage]
    ensures Next(calls, s, step).connectivity == After(s.connectivity, mark) && mark != Some(Ok)
    ensures Severed(stage) <==> Severed(s.stages[step.call]) || mark.Some?
  {
    var jobs, push := calls[step.call].jobs, s.stages[step.call].push;
    ResumeMarks(calls, s, step);
    ResumeMoves(calls, s, step);
    ResumeSevers(jobs, push, step.task);
    stage, mark := Begun(ConcurrentPush.Resume(jobs, push, step.task)), MarkOfStep(jobs, push, step.task);
  }

  lemma {:induction false} BrokenIffSevered(calls: seq<Call>, steps: seq<Step>)
    ensures Run(calls, steps).connectivity != Ok <==> SomeSevered(Run(calls, steps).stages)
  {
    if steps == [] {
      NoneSevered(|calls|);
    } else {
      var last := |steps| - 1;
      var s := Run(calls, steps[..last]);
      BrokenIffSevered(calls, steps[..last]);
      if Enabled(calls, s, steps[last]) {
        match steps[last]
        case Begin(_) => BeginConnectivity(calls, s, steps[last]);
        case Resume(_, _) => ResumeConnectivity(calls, s, steps[last]);
      }
    }
  }

  /** In every state the connection is broken exactly when a batch of some call has raised on
      a fatal status. */
  lemma ConnectivityIff(calls: seq<Call>, steps: seq<Step>)
    ensures var s := Run(calls, steps);
            s.connectivity != Ok <==> exists c :: 0 <= c < |calls| && Severed(s.stages[c])
  {
    BrokenIffSevered(calls, steps);
    SomeSeveredIff(Run(calls, steps).stages);
  }

  /** A batch of the call is over, and this is the connectivity that its push leaves. */
  ghost predicate LeavesMark(call: Call, stage: Stage, connectivity: DynatraceConnectivity) {
    stage.Begun? && |stage.push.tasks| == |call.jobs|
    && exists i :: 0 <= i < |call.jobs| && ConcurrentPush.LeavesMark(call.jobs[i], stage.push.tasks[i], connectivity)
  }

  ghost predicate MarkIsOfACall(calls: seq<Call>, s: State)
    requires |s.stages| == |calls|
  {
    s.connectivity != Ok ==> exists c :: 0 <= c < |calls| && LeavesMark(calls[c], s.stages[c], s.connectivity)
  }

  lemma ResumeKeepsMarks(call: Call, push: ConcurrentPush.State, task: nat, connectivity: DynatraceConnectivity)
    requires |push.tasks| == |call.jobs| && ConcurrentPush.Enabled(push, task)
    requires LeavesMark(call, Begun(push), connectivity)
    ensures LeavesMark(call, Begun(ConcurrentPush.Resume(call.jobs, push, task)), connectivity)
  {
    var i :| 0 <= i < |call.jobs| && ConcurrentPush.LeavesMark(call.jobs[i], push.tasks[i], connectivity);
    var tasks := ConcurrentPush.Resume(call.jobs, push, task).tasks;
    assert i != task && tasks[i] == push.tasks[i];
    assert ConcurrentPush.LeavesMark(call.jobs[i], tasks[i], connectivity);
  }

  lemma ResumeLeavesMark(call: Call, push: ConcurrentPush.State, task: nat)
    requires |push.tasks| == |call.jobs| && ConcurrentPush.Enabled(push, task)
    requires ConcurrentPush.AllOnCourse(call.jobs, push) && MarkOfStep(call.jobs, push, task).Some?
    ensures LeavesMark(call, Begun(ConcurrentPush.Resume(call.jobs, push, task)),
                       MarkOfStep(call.jobs, push, task).value)
  {
    var job, at := call.jobs[task], push.tasks[task];
    assert ConcurrentPush.OnCourse(job, at);
    ConcurrentPush.StepMarksAsVerdict(at.progress, job.script, job.lines);
    assert ConcurrentPush.LeavesMark(job, ConcurrentPush.Resume(call.jobs, push, task).tasks[task],
                                     MarkOfStep(call.jobs, push, task).value);
  }

  lemma ResumeKeepsShared(calls: seq<Call>, s: State, step: Step)
    requires Enabled(calls, s, step) && step.Resume? && MarkIsOfACall(calls, s)
    requires ConcurrentPush.AllOnCourse(calls[step.call].jobs, s.stages[step.call].push)
    ensures MarkIsOfACall(calls, Next(calls, s, step))
  {
    var call, push, t := calls[step.call], s.stages[step.call].push, Next(calls, s, step);
    ResumeMarks(calls, s, step);
    ResumeMoves(calls, s, step);
    if MarkOfStep(call.jobs, push, step.task).Some? {
      ResumeLeavesMark(call, push, step.task);
      assert LeavesMark(call, t.stages[step.call], t.connectivity);
    } else if s.connectivity != Ok {
      var c :| 0 <= c < |calls| && LeavesMark(calls[c], s.stages[c], s.connectivity);
      if c == step.call { ResumeKeepsMarks(call, push, step.task, s.connectivity); }
      assert LeavesMark(calls[c], t.stages[c], t.connectivity);
    }
  }

  lemma BeginKeepsShared(calls: seq<Call>, s: State, step: Step)
    requires Enabled(calls, s, step) && step.Begin? && MarkIsOfACall(calls, s)
    ensures MarkIsOfACall(calls, Next(calls, s, step))
  {
    var t := Next(calls, s, step);
    if s.connectivity != Ok {
      var c :| 0 <= c < |calls| && LeavesMark(calls[c], s.stages[c], s.connectivity);
      assert c != step.call;
      OthersStay(calls, s, step, c);
      assert LeavesMark(calls[c], t.stages[c], t.connectivity);
    }
  }

  /** The shared mark is always the one that the push of some finished batch of some call
      leaves. */
  lemma {:induction false} AlwaysMarkOfACall(calls: seq<Call>, steps: seq<Step>)
    ensures MarkIsOfACall(calls, Run(calls, steps))
  {
    if steps != [] {
      var last := |steps| - 1;
      var s := Run(calls, steps[..last]);
      AlwaysMarkOfACall(calls, steps[..last]);
      if Enabled(calls, s, steps[last]) {
        if steps[last].Resume? {
          var c := steps[last].call;
          EachCallRunsAlone(calls, steps[..last], c);
          ConcurrentPush.AlwaysOnCourse(calls[c].jobs, Permits(calls[c]), LocalSchedule(calls, steps[..last], c));
          ResumeKeepsShared(calls, s, steps[last]);
        } else {
          BeginKeepsShared(calls, s, steps[last]);
        }
      }
    }
  }

  lemma BrokenStays(calls: seq<Call>, s: State, step: Step, c: nat)
    requires Enabled(calls, s, step) && s.connectivity != Ok && c < |calls|
    ensures Next(calls, s, step).connectivity != Ok
    ensures !s.stages[c].Begun? ==> !Next(calls, s, step).stages[c].Begun?
  {
    if step.call != c { OthersStay(calls, s, step, c); }
    if step.Resume? { ResumeKeepsBroken(calls, s, step); }
  }

  lemma ResumeKeepsBroken(calls: seq<Call>, s: State, step: Step)
    requires Enabled(calls, s, step) && s.connectivity != Ok && step.Resume?
    ensures Next(calls, s, step).connectivity != Ok
  {
    var stage, mark := ResumeLeaves(calls, s, step);
  }

  /** Once the connection is broken it stays so, and no call that has not begun by then ever
      sends anything, in either mode. */
  lemma {:induction false} BrokenSendsNothing(calls: seq<Call>, steps: seq<Step>, later: seq<Step>, c: nat)
    requires c < |calls| && Run(calls, steps).connectivity != Ok && !Run(calls, steps).stages[c].Begun?
    ensures Run(calls, steps + later).connectivity != Ok
    ensures !Run(calls, steps + later).stages[c].Begun?
  {
    if later == [] {
      assert steps + later == steps;
    } else {
      var last := |later| - 1;
      BrokenSendsNothing(calls, steps, later[..last], c);
      RunMore(calls, steps + later[..last], later[last]);
      TakeOneMore(later, last);
      TakeAll(later);
      ConcatIsAssociative(steps, later[..last], [later[last]]);
      var s := Run(calls, steps + later[..last]);
      if Enabled(calls, s, later[last]) { BrokenStays(calls, s, later[last], c); }
    }
  }

  lemma NextDeclines(calls: seq<Call>, s: State, step: Step, c: nat)
    requires Enabled(calls, s, step) && c < |calls|
    ensures Next(calls, s, step).stages[c].Declined? ==>
              s.stages[c].Declined? || calls[c].jobs == [] || Next(calls, s, step).connectivity != Ok
    ensures Next(calls, s, step).stages[c].Begun? ==> s.stages[c].Begun? || calls[c].jobs != []
  {
    if step.call != c {
      OthersStay(calls, s, step, c);
    } else if step.Resume? {
      ResumeMoves(calls, s, step);
    }
  }

  /** A call sends nothing only if it has no batches or the connection is broken. */
  lemma {:induction false} DeclinedOnlyIf(calls: seq<Call>, steps: seq<Step>, c: nat)
    requires c < |calls|
    ensures var s := Run(calls, steps);
            && (s.stages[c].Declined? ==> calls[c].jobs == [] || s.connectivity != Ok)
            && (s.stages[c].Begun? ==> calls[c].jobs != [])
  {
    if steps != [] {
      var last := |steps| - 1;
      DeclinedOnlyIf(calls, steps[..last], c);
      var s := Run(calls, steps[..last]);
      if Enabled(calls, s, steps[last]) {
        NextDeclines(calls, s, steps[last], c);
        if s.connectivity != Ok { BrokenStays(calls, s, steps[last], c); }
      }
    }
  }

  // ---- The counters of a project ----

  /** What a call has counted, as seen by a project. */
  function TallyIn(call: Call, stage: Stage, project: string): Tally {
    if stage.Begun? then Seen(call.project, project, stage.push.counters) else NOTHING
  }

  function TallyOfCalls(calls: seq<Call>, stages: seq<Stage>, project: string): Tally
    requires |calls| == |stages|
  {
    if calls == [] then NOTHING
    else
      var last := |calls| - 1;
      TallyOfCalls(calls[..last], stages[..last], project).Plus(TallyIn(calls[last], stages[last], project))
  }

  lemma {:induction false} TallyKept(calls: seq<Call>, stages: seq<Stage>, c: nat, stage: Stage, project: string)
    requires c < |calls| == |stages| && TallyIn(calls[c], stage, project) == TallyIn(calls[c], stages[c], project)
    ensures TallyOfCalls(calls, stages[c := stage], project) == TallyOfCalls(calls, stages, project)
    decreases |calls|
  {
    var last := |calls| - 1;
    UpdateInPrefix(stages, c, stage);
    if c < last { TallyKept(calls[..last], stages[..last], c, stage, project); }
  }

  lemma {:induction false} TallyGrows(calls: seq<Call>, stages: seq<Stage>, c: nat, stage: Stage, project: string,
                                      more: Tally)
    requires c < |calls| == |stages|
    requires TallyIn(calls[c], stage, project) == TallyIn(calls[c], stages[c], project).Plus(more)
    ensures TallyOfCalls(calls, stages[c := stage], project) == TallyOfCalls(calls, stages, project).Plus(more)
    decreases |calls|
  {
    var last := |calls| - 1;
    UpdateInPrefix(stages, c, stage);
    if c == last {
      PlusIsAssociative(TallyOfCalls(calls[..last], stages[..last], project),
                        TallyIn(calls[last], stages[last], project), more);
    } else {
      TallyGrows(calls[..last], stages[..last], c, stage, project, more);
      ConcurrentPush.PlusSwap(TallyOfCalls(calls[..last], stages[..last], project), more,
                              TallyIn(calls[last], stages[last], project));
    }
  }

  lemma {:induction false} NothingTallied(calls: seq<Call>, stages: seq<Stage>, project: string)
    requires |calls| == |stages| && forall stage <- stages :: !stage.Begun?
    ensures TallyOfCalls(calls, stages, project) == NOTHING
  {
    if calls != [] {
      var last := |calls| - 1;
      NothingTallied(calls[..last], stages[..last], project);
      assert stages[last] in stages;
      PlusNothing(TallyOfCalls(calls[..last], stages[..last], project));
    }
  }

  lemma ResumeCounts(jobs: seq<Job>, push: ConcurrentPush.State, task: nat)
    requires |push.tasks| == |jobs| && ConcurrentPush.Enabled(push, task)
    ensures ConcurrentPush.Resume(jobs, push, task).counters == push.counters.Plus(TallyOfStep(jobs, push, task))
  {
    PlusNothing(push.counters);
  }

  lemma TallyInGrows(call: Call, push: ConcurrentPush.State, pushed: ConcurrentPush.State, project: string,
                     more: Tally)
    requires pushed.counters == push.counters.Plus(more)
    ensures TallyIn(call, Begun(pushed), project)
            == TallyIn(call, Begun(push), project).Plus(Seen(call.project, project, more))
  {
  }

  lemma ResumeCountsFor(calls: seq<Call>, s: State, step: Step, project: string)
    requires Enabled(calls, s, step) && step.Resume?
    ensures var call, stages := calls[step.call], Next(calls, s, step).stages;
            var more := TallyOfStep(call.jobs, s.stages[step.call].push, step.task);
            TallyOfCalls(calls, stages, project)
            == TallyOfCalls(calls, s.stages, project).Plus(Seen(call.project, project, more))
  {
    var c := step.call;
    var call, push := calls[c], s.stages[c].push;
    var more := TallyOfStep(call.jobs, push, step.task);
    var pushed := ConcurrentPush.Resume(call.jobs, push, step.task);
    ResumeMoves(calls, s, step);
    ResumeCounts(call.jobs, push, step.task);
    TallyInGrows(call, push, pushed, project, more);
    TallyGrows(calls, s.stages, c, Begun(pushed), project, Seen(call.project, project, more));
  }

  lemma RecordedCounts(s: State, stages: seq<Stage>, project: string, more: Tally,
                       mark: Option<DynatraceConnectivity>, other: string)
    ensures CountedFor(Recorded(s, stages, project, more, mark), other)
            == CountedFor(s, other).Plus(Seen(project, other, more))
  {
  }

  lemma ResumeAdds(calls: seq<Call>, s: State, step: Step, project: string)
    requires Enabled(calls, s, step) && step.Resume?
    ensures var call := calls[step.call];
            var more := TallyOfStep(call.jobs, s.stages[step.call].push, step.task);
            CountedFor(Next(calls, s, step), project) == CountedFor(s, project).Plus(Seen(call.project, project, more))
  {
    var call, push := calls[step.call], s.stages[step.call].push;
    RecordedCounts(s, Next(calls, s, step).stages, call.project, TallyOfStep(call.jobs, push, step.task),
                   MarkOfStep(call.jobs, push, step.task), project);
  }

  lemma NextCounts(calls: seq<Call>, s: State, step: Step, project: string)
    requires Enabled(calls, s, step) && CountedFor(s, project) == TallyOfCalls(calls, s.stages, project)
    ensures CountedFor(Next(calls, s, step), project) == TallyOfCalls(calls, Next(calls, s, step).stages, project)
  {
    if step.Resume? {
      ResumeCountsFor(calls, s, step, project);
      ResumeAdds(calls, s, step, project);
    } else {
      TallyKept(calls, s.stages, step.call, Next(calls, s, step).stages[step.call], project);
    }
  }

  /** In every state the line counters of a project are the sum over its calls, and the
      request counts the sum over all calls. */
  lemma {:induction false} CountersAreSums(calls: seq<Call>, steps: seq<Step>, project: string)
    ensures CountedFor(Run(calls, steps), project) == TallyOfCalls(calls, Run(calls, steps).stages, project)
  {
    if steps == [] {
      NothingTallied(calls, AllNotBegun(|calls|), project);
    } else {
      var last := |steps| - 1;
      var s := Run(calls, steps[..last]);
      CountersAreSums(calls, steps[..last], project);
      if Enabled(calls, s, steps[last]) { NextCounts(calls, s, steps[last], project); }
    }
  }

  function GivenLines(call: Call): nat { Lengths(call.jobs, |call.jobs|) }

  /** The lines of a call that are not counted: all of them unless it has begun. */
  function UncountedLines(call: Call, stage: Stage): nat
    requires stage.Begun? ==> |stage.push.tasks| == |call.jobs|
  {
    if stage.Begun? then ConcurrentPush.UncountedLines(call.jobs, stage.push.tasks) else GivenLines(call)
  }

  function GivenShare(call: Call, project: string): nat {
    if call.project == project then GivenLines(call) else 0
  }

  function UncountedShare(call: Call, stage: Stage, project: string): nat
    requires stage.Begun? ==> |stage.push.tasks| == |call.jobs|
  {
    if call.project == project then UncountedLines(call, stage) else 0
  }

  predicate Fits(calls: seq<Call>, stages: seq<Stage>) {
    && |calls| == |stages|
    && forall c :: 0 <= c < |calls| ==> stages[c].Begun? ==> |stages[c].push.tasks| == |calls[c].jobs|
  }

  function GivenFor(calls: seq<Call>, project: string): nat {
    if calls == [] then 0
    else
      GivenFor(calls[..|calls| - 1], project) + GivenShare(calls[|calls| - 1], project)
  }

  function UncountedFor(calls: seq<Call>, stages: seq<Stage>, project: string): nat
    requires Fits(calls, stages)
  {
    if calls == [] then 0
    else
      var last := |calls| - 1;
      UncountedFor(calls[..last], stages[..last], project) + UncountedShare(calls[last], stages[last], project)
  }

  /** The lines of a project that a call has counted or not, less those it was given. */
  function CallBalance(call: Call, stage: Stage, project: string): int
    requires stage.Begun? ==> |stage.push.tasks| == |call.jobs|
  {
    TallyIn(call, stage, project).Lines() + UncountedShare(call, stage, project) - GivenShare(call, project)
  }

  lemma OthersBalance(call: Call, stage: Stage, project: string)
    requires (stage.Begun? ==> |stage.push.tasks| == |call.jobs|) && call.project != project
    ensures CallBalance(call, stage, project) == 0
  {
  }

  lemma BegunBalances(call: Call, push: ConcurrentPush.State)
    requires |push.tasks| == |call.jobs|
    requires push.counters.Lines() + ConcurrentPush.UncountedLines(call.jobs, push.tasks) == GivenLines(call)
    ensures CallBalance(call, Begun(push), call.project) == 0
  {
  }

  lemma OwnBalance(call: Call, stage: Stage, schedule: seq<nat>)
    requires AllHonest(call.jobs) && AsAlone(call, stage, schedule)
    ensures (stage.Begun? ==> |stage.push.tasks| == |call.jobs|) && CallBalance(call, stage, call.project) == 0
  {
    ConcurrentPush.RunConservesLines(call.jobs, Permits(call), schedule);
    if stage.Begun? { BegunBalances(call, stage.push); }
  }

  lemma AloneBalances(call: Call, stage: Stage, schedule: seq<nat>, project: string)
    requires AllHonest(call.jobs) && AsAlone(call, stage, schedule)
    ensures (stage.Begun? ==> |stage.push.tasks| == |call.jobs|) && CallBalance(call, stage, project) == 0
  {
    OwnBalance(call, stage, schedule);
    if call.project != project { OthersBalance(call, stage, project); }
  }

  lemma PlusLines(a: Tally, b: Tally)
    ensures a.Plus(b).Lines() == a.Lines() + b.Lines()
  {
  }

  lemma CallConserves(calls: seq<Call>, steps: seq<Step>, c: nat, project: string)
    requires c < |calls| && AllHonest(calls[c].jobs)
    ensures var stage := Run(calls, steps).stages[c];
            (stage.Begun? ==> |stage.push.tasks| == |calls[c].jobs|) && CallBalance(calls[c], stage, project) == 0
  {
    EachCallRunsAlone(calls, steps, c);
    AloneBalances(calls[c], Run(calls, steps).stages[c], LocalSchedule(calls, steps, c), project);
  }

  lemma RunFits(calls: seq<Call>, steps: seq<Step>)
    ensures Fits(calls, Run(calls, steps).stages)
  {
    forall c | 0 <= c < |calls|
      ensures Run(calls, steps).stages[c].Begun? ==> |Run(calls, steps).stages[c].push.tasks| == |calls[c].jobs|
    {
      EachCallRunsAlone(calls, steps, c);
    }
  }

  function Balance(calls: seq<Call>, stages: seq<Stage>, project: string): int
    requires Fits(calls, stages)
  {
    TallyOfCalls(calls, stages, project).Lines() + UncountedFor(calls, stages, project) - GivenFor(calls, project)
  }

  lemma OneCallMore(calls: seq<Call>, stages: seq<Stage>, project: string)
    requires calls != [] && Fits(calls, stages) && Fits(calls[..|calls| - 1], stages[..|calls| - 1])
    ensures var last := |calls| - 1;
            Balance(calls, stages, project)
            == Balance(calls[..last], stages[..last], project) + CallBalance(calls[last], stages[last], project)
  {
    var last := |calls| - 1;
    PlusLines(TallyOfCalls(calls[..last], stages[..last], project), TallyIn(calls[last], stages[last], project));
  }

  /** Calls that conserve the lines of a project do so together. */
  lemma {:induction false} CallsConserve(calls: seq<Call>, stages: seq<Stage>, project: string)
    requires Fits(calls, stages)
    requires forall c :: 0 <= c < |calls| ==> CallBalance(calls[c], stages[c], project) == 0
    ensures Balance(calls, stages, project) == 0
  {
    if calls != [] {
      CallsConserve(calls[..|calls| - 1], stages[..|calls| - 1], project);
      OneCallMore(calls, stages, project);
    }
  }

  /** Line conservation for each project: at every moment of every interleaving the lines
      given to its calls are ok, invalid, dropped, in batches that raised or are not over,
      or in calls that have not begun or declined to send. */
  lemma ProjectLinesAreConserved(calls: seq<Call>, steps: seq<Step>, project: string)
    requires forall c :: 0 <= c < |calls| ==> AllHonest(calls[c].jobs)
    ensures Fits(calls, Run(calls, steps).stages)
    ensures GivenFor(calls, project)
            == CountedFor(Run(calls, steps), project).Lines()
               + UncountedFor(calls, Run(calls, steps).stages, project)
  {
    var stages := Run(calls, steps).stages;
    RunFits(calls, steps);
    forall c | 0 <= c < |calls| ensures CallBalance(calls[c], stages[c], project) == 0 {
      CallConserves(calls, steps, c, project);
    }
    CallsConserve(calls, stages, project);
    CountersAreSums(calls, steps, project);
  }

  // ---- The loop over the batches ----

  /** Batches are started in order, one at a time, and none after one that raised. */
  predicate InOrder(push: ConcurrentPush.State) {
    var n := |push.started|;
    && n <= |push.tasks| && (forall k :: 0 <= k < n ==> push.started[k] == k)
    && (forall k :: 0 <= k < n - 1 ==> push.tasks[k].Done? && !ConcurrentPush.Raised(push.tasks[k].progress))
    && (n > 0 ==> push.tasks[n - 1].Done? || push.tasks[n - 1].Pushing?)
    && (push.abort <==> n > 0 && push.tasks[n - 1].Done? && ConcurrentPush.Raised(push.tasks[n - 1].progress))
    && (forall k :: n <= k < |push.tasks| ==> IsWaiting(push.tasks[k]))
    && (forall k :: n < k < |push.tasks| ==> push.tasks[k].Created?)
    && (n > 0 && push.tasks[n - 1].Pushing? && n < |push.tasks| ==> push.tasks[n].Created?)
  }

  predicate IsWaiting(task: ConcurrentPush.Task) {
    task.Created? || task.Queued? || task.Granted?
  }

  lemma TurnIsNext(push: ConcurrentPush.State, task: nat)
    requires InOrder(push) && ConcurrentPush.Enabled(push, task) && InTurn(push, task)
    ensures var n := |push.started|;
            task == if n > 0 && push.tasks[n - 1].Pushing? then n - 1 else n
  {
    var n := |push.started|;
    assert n < |push.tasks| ==> IsWaiting(push.tasks[n]);
    assert forall k :: 0 <= k < n - 1 ==> push.tasks[k].Done?;
  }

  lemma ResumeKeepsOrder(jobs: seq<Job>, push: ConcurrentPush.State, task: nat)
    requires |push.tasks| == |jobs| && InOrder(push) && ConcurrentPush.Enabled(push, task) && InTurn(push, task)
    ensures InOrder(ConcurrentPush.Resume(jobs, push, task))
  {
    TurnIsNext(push, task);
  }

  predicate StageInOrder(stage: Stage) {
    stage.Begun? ==> InOrder(stage.push)
  }

  lemma InitIsInOrder(call: Call)
    ensures InOrder(ConcurrentPush.Init(call.jobs, Permits(call)))
  {
  }

  lemma NextKeepsOrder(calls: seq<Call>, s: State, step: Step, c: nat)
    requires Enabled(calls, s, step) && c < |calls| && calls[c].concurrency <= 1 && StageInOrder(s.stages[c])
    ensures StageInOrder(Next(calls, s, step).stages[c])
  {
    if step.call != c {
      OthersStay(calls, s, step, c);
    } else if step.Begin? {
      InitIsInOrder(calls[c]);
    } else {
      ResumeMoves(calls, s, step);
      ResumeKeepsOrder(calls[c].jobs, s.stages[c].push, step.task);
    }
  }

  lemma {:induction false} AlwaysInOrder(calls: seq<Call>, steps: seq<Step>, c: nat)
    requires c < |calls| && calls[c].concurrency <= 1
    ensures Run(calls, steps).stages[c].Begun? ==> InOrder(Run(calls, steps).stages[c].push)
  {
    if steps != [] {
      var last := |steps| - 1;
      var s, step := Run(calls, steps[..last]), steps[last];
      AlwaysInOrder(calls, steps[..last], c);
      if Enabled(calls, s, step) { NextKeepsOrder(calls, s, step, c); }
    }
  }

  /** The loop over the batches has ended: a batch raised, or all are over. */
  predicate LoopEnded(push: ConcurrentPush.State) {
    push.abort || forall k :: 0 <= k < |push.tasks| ==> push.tasks[k].Done?
  }

  lemma {:induction false} WaitingTallyNothing(tasks: seq<ConcurrentPush.Task>, count: nat)
    requires count <= |tasks| && forall k :: count <= k < |tasks| ==> IsWaiting(tasks[k])
    ensures ConcurrentPush.TallyOfAll(tasks) == ConcurrentPush.TallyOfAll(tasks[..count])
  {
    if count == |tasks| {
      assert tasks[..count] == tasks;
    } else {
      var last := |tasks| - 1;
      WaitingTallyNothing(tasks[..last], count);
      assert tasks[..last][..count] == tasks[..count];
      PlusNothing(ConcurrentPush.TallyOfAll(tasks[..last]));
    }
  }

  /** The batches a loop has started when it ends are over as they would be alone. */
  lemma StartedAsAlone(jobs: seq<Job>, schedule: seq<nat>, push: ConcurrentPush.State, k: nat)
    requires push == ConcurrentPush.Execute(jobs, 1, schedule) && InOrder(push) && LoopEnded(push)
    requires k < |push.started|
    ensures push.tasks[k].Done? && ConcurrentPush.TallyIn(push.tasks[k]) == Pushes(jobs)[k].tally
    ensures ConcurrentPush.Raised(push.tasks[k].progress) <==> Pushes(jobs)[k].verdict.ending.Raised?
  {
    ConcurrentPush.DoneAsAlone(jobs, 1, schedule, k);
  }

  /** The batches started are over, each as its push says. */
  predicate Agrees(push: ConcurrentPush.State, pushes: seq<PushResult>) {
    && |push.started| <= |push.tasks| == |pushes|
    && forall k :: 0 <= k < |push.started| ==> AgreesAt(push.tasks[k], pushes[k])
  }

  predicate AgreesAt(task: ConcurrentPush.Task, push: PushResult) {
    && task.Done? && ConcurrentPush.TallyIn(task) == push.tally
    && (ConcurrentPush.Raised(task.progress) <==> push.verdict.ending.Raised?)
  }

  lemma StartedAgree(jobs: seq<Job>, schedule: seq<nat>, push: ConcurrentPush.State)
    requires push == ConcurrentPush.Execute(jobs, 1, schedule) && InOrder(push) && LoopEnded(push)
    ensures Agrees(push, Pushes(jobs))
  {
    forall k | 0 <= k < |push.started| ensures AgreesAt(push.tasks[k], Pushes(jobs)[k]) {
      StartedAsAlone(jobs, schedule, push, k);
    }
  }

  lemma LoopStops(push: ConcurrentPush.State, pushes: seq<PushResult>)
    requires InOrder(push) && LoopEnded(push) && Agrees(push, pushes)
    ensures StopsAt(pushes, |push.started|)
  {
    var n := |push.started|;
    assert n < |push.tasks| ==> IsWaiting(push.tasks[n]);
    assert forall k :: 0 <= k < n ==> AgreesAt(push.tasks[k], pushes[k]);
    StopsAtIff(pushes, n);
  }

  lemma LoopCounts(push: ConcurrentPush.State, pushes: seq<PushResult>)
    requires InOrder(push) && Agrees(push, pushes) && push.counters == ConcurrentPush.TallyOfAll(push.tasks)
    ensures push.counters == SumOf(pushes, |push.started|)
  {
    var n := |push.started|;
    assert forall k :: 0 <= k < n ==> AgreesAt(push.tasks[k], pushes[k]);
    WaitingTallyNothing(push.tasks, n);
    ConcurrentPush.TallyOfDone(push.tasks[..n], pushes[..n]);
    ConcurrentPush.SumOfPrefix(pushes, n, n);
  }

  /** A call whose batches are pushed one by one ends, among all the others, where its loop
      ends alone: at the first batch that raises or after the last, with the sum of the
      tallies of the batches started. */
  lemma LoopEndsAsAlone(calls: seq<Call>, steps: seq<Step>, c: nat, push: ConcurrentPush.State)
    requires c < |calls| && calls[c].concurrency <= 1
    requires Run(calls, steps).stages[c] == Begun(push) && LoopEnded(push)
    ensures var pushes, n := Pushes(calls[c].jobs), |push.started|;
            && n <= |pushes| && (forall k :: 0 <= k < n - 1 ==> !pushes[k].verdict.ending.Raised?)
            && (n < |pushes| ==> n > 0 && pushes[n - 1].verdict.ending.Raised?)
            && push.counters == SumOf(pushes, n)
  {
    var schedule := LocalSchedule(calls, steps, c);
    EachCallRunsAlone(calls, steps, c);
    AlwaysInOrder(calls, steps, c);
    StartedAgree(calls[c].jobs, schedule, push);
    ConcurrentPush.AlwaysTallied(calls[c].jobs, Permits(calls[c]), schedule);
    LoopStops(push, Pushes(calls[c].jobs));
    LoopCounts(push, Pushes(calls[c].jobs));
    StopsAtIff(Pushes(calls[c].jobs), |push.started|);
  }

  // ---- When all calls are over ----

  /** A loop over the batches has ended, or all of a concurrent call's tasks are over. */
  predicate PushOver(call: Call, push: ConcurrentPush.State) {
    if call.concurrency <= 1 then LoopEnded(push) else ConcurrentPush.Quiescent(push)
  }

  predicate CallOver(call: Call, stage: Stage) {
    stage.Declined? || (stage.Begun? && PushOver(call, stage.push))
  }

  predicate AllOver(calls: seq<Call>, stages: seq<Stage>)
    requires |stages| == |calls|
  {
    forall c :: 0 <= c < |calls| ==> CallOver(calls[c], stages[c])
  }

  predicate NothingRaises(calls: seq<Call>) {
    forall c :: 0 <= c < |calls| ==> NoneRaises(Pushes(calls[c].jobs), |calls[c].jobs|)
  }

  /** What the calls add up to when each is run alone, as seen by a project. */
  function SumOfCalls(calls: seq<Call>, project: string): Tally {
    if calls == [] then NOTHING
    else
      var call := calls[|calls| - 1];
      SumOfCalls(calls[..|calls| - 1], project)
      .Plus(Seen(call.project, project, SumOf(Pushes(call.jobs), |call.jobs|)))
  }

  lemma RaiselessIsNotSevered(calls: seq<Call>, steps: seq<Step>, c: nat)
    requires c < |calls| && NoneRaises(Pushes(calls[c].jobs), |calls[c].jobs|)
    ensures !Severed(Run(calls, steps).stages[c])
  {
    var schedule := LocalSchedule(calls, steps, c);
    EachCallRunsAlone(calls, steps, c);
    ConcurrentPush.NoRaiseNoAbort(calls[c].jobs, Permits(calls[c]), schedule);
    ConcurrentPush.AlwaysBounded(calls[c].jobs, Permits(calls[c]), schedule);
    ConcurrentPush.BreakIsRaise(ConcurrentPush.Execute(calls[c].jobs, Permits(calls[c]), schedule).tasks);
  }

  lemma RaiselessStaysOk(calls: seq<Call>, steps: seq<Step>)
    requires NothingRaises(calls)
    ensures Run(calls, steps).connectivity == Ok
  {
    ConnectivityIff(calls, steps);
    forall c | 0 <= c < |calls| ensures !Severed(Run(calls, steps).stages[c]) {
      RaiselessIsNotSevered(calls, steps, c);
    }
  }

  /** A call has counted what its batches amount to. */
  predicate CountsAll(call: Call, stage: Stage, project: string) {
    TallyIn(call, stage, project) == Seen(call.project, project, SumOf(Pushes(call.jobs), |call.jobs|))
  }

  lemma OverCountsAll(calls: seq<Call>, steps: seq<Step>, c: nat, project: string)
    requires c < |calls| && NothingRaises(calls) && CallOver(calls[c], Run(calls, steps).stages[c])
    ensures CountsAll(calls[c], Run(calls, steps).stages[c], project)
  {
    DeclinedOnlyIf(calls, steps, c);
    RaiselessStaysOk(calls, steps);
    EachCallRunsAlone(calls, steps, c);
    if Run(calls, steps).stages[c].Begun? {
      ConcurrentPush.NoRaiseNoAbort(calls[c].jobs, Permits(calls[c]), LocalSchedule(calls, steps, c));
      ConcurrentPush.CountersAsSequential(calls[c].jobs, Permits(calls[c]), LocalSchedule(calls, steps, c));
    }
  }

  lemma {:induction false} SumsAgree(calls: seq<Call>, stages: seq<Stage>, project: string)
    requires |calls| == |stages| && forall c :: 0 <= c < |calls| ==> CountsAll(calls[c], stages[c], project)
    ensures TallyOfCalls(calls, stages, project) == SumOfCalls(calls, project)
  {
    if calls != [] {
      var last := |calls| - 1;
      SumsAgree(calls[..last], stages[..last], project);
      assert CountsAll(calls[last], stages[last], project);
    }
  }

  /** When all calls are over and no batch raises, the connection is working and the counters
      of every project are the sums of what its calls would count alone, one after another:
      no interleaving loses or doubles anything. */
  lemma InterleavedEqualsAlone(calls: seq<Call>, steps: seq<Step>, project: string)
    requires NothingRaises(calls) && AllOver(calls, Run(calls, steps).stages)
    ensures Run(calls, steps).connectivity == Ok
    ensures CountedFor(Run(calls, steps), project) == SumOfCalls(calls, project)
  {
    RaiselessStaysOk(calls, steps);
    forall c | 0 <= c < |calls| ensures CountsAll(calls[c], Run(calls, steps).stages[c], project) {
      OverCountsAll(calls, steps, c, project);
    }
    SumsAgree(calls, Run(calls, steps).stages, project);
    CountersAreSums(calls, steps, project);
  }

  // ---- Every call can go on to its end ----

  /** Nothing else keeps a call from going on: one that has not begun may begin at any time,
      and the tasks of a concurrent one may be resumed in any order that they could be alone. */
  lemma AnyOrderIsPossible(calls: seq<Call>, steps: seq<Step>, c: nat, task: nat)
    requires c < |calls|
    ensures var s := Run(calls, steps);
            && (Enabled(calls, s, Begin(c)) <==> s.stages[c].NotBegun?)
            && (calls[c].concurrency > 1 && s.stages[c].Begun? ==>
                  (Enabled(calls, s, Resume(c, task)) <==> ConcurrentPush.Enabled(s.stages[c].push, task)))
  {
    EachCallRunsAlone(calls, steps, c);
  }

  /** The permits of a call are as many as its concurrency, and one for a loop. */
  lemma PermitsAreConcurrency(calls: seq<Call>, steps: seq<Step>, c: nat)
    requires c < |calls| && Run(calls, steps).stages[c].Begun?
    ensures var push := Run(calls, steps).stages[c].push;
            push.permits + ConcurrentPush.Weigh(ConcurrentPush.Permit, push.tasks)
            == if calls[c].concurrency > 1 then calls[c].concurrency else 1
  {
    EachCallRunsAlone(calls, steps, c);
    ConcurrentPush.AlwaysBounded(calls[c].jobs, Permits(calls[c]), LocalSchedule(calls, steps, c));
  }

  /** The batch that a loop is at can go on. */
  lemma LoopCanGoOn(push: ConcurrentPush.State) returns (task: nat)
    requires InOrder(push) && !LoopEnded(push) && ConcurrentPush.Bounded(1, push) && ConcurrentPush.Unfinished(push)
    ensures ConcurrentPush.Enabled(push, task) && InTurn(push, task)
  {
    var n := |push.started|;
    if n > 0 && push.tasks[n - 1].Pushing? {
      task := n - 1;
    } else {
      task := n;
      assert n < |push.tasks| && IsWaiting(push.tasks[n]);
      if push.tasks[n].Queued? && push.permits == 0 {
        var holder := ConcurrentPush.WeighFinds(ConcurrentPush.Permit, push.tasks);
        assert false;
      }
    }
  }

  lemma BegunCanGoOn(calls: seq<Call>, steps: seq<Step>, c: nat) returns (task: nat)
    requires c < |calls| && Run(calls, steps).stages[c].Begun?
    requires !PushOver(calls[c], Run(calls, steps).stages[c].push)
    ensures Enabled(calls, Run(calls, steps), Resume(c, task))
  {
    var push := Run(calls, steps).stages[c].push;
    var schedule := LocalSchedule(calls, steps, c);
    EachCallRunsAlone(calls, steps, c);
    if calls[c].concurrency <= 1 {
      AlwaysInOrder(calls, steps, c);
      ConcurrentPush.AlwaysBounded(calls[c].jobs, 1, schedule);
      ConcurrentPush.AlwaysUnfinished(calls[c].jobs, 1, schedule);
      task := LoopCanGoOn(push);
    } else {
      ConcurrentPush.NoDeadlock(calls[c].jobs, Permits(calls[c]), schedule);
      task :| 0 <= task < |push.tasks| && ConcurrentPush.Enabled(push, task);
    }
  }

  /** The steps that a call has yet to take. */
  function WorkLeft(stage: Stage): nat {
    if stage.Begun? then ConcurrentPush.Weigh(ConcurrentPush.Work, stage.push.tasks) else 0
  }

  lemma ResumeLeavesLess(calls: seq<Call>, s: State, step: Step)
    requires Enabled(calls, s, step) && step.Resume?
    ensures Next(calls, s, step).stages[step.call].Begun?
    ensures WorkLeft(Next(calls, s, step).stages[step.call]) < WorkLeft(s.stages[step.call])
  {
    ResumeMoves(calls, s, step);
    ConcurrentPush.ResumeDescends(calls[step.call].jobs, s.stages[step.call].push, step.task);
  }

  predicate AllOf(steps: seq<Step>, c: nat) {
    forall k :: 0 <= k < |steps| ==> steps[k].call == c
  }

  lemma OneFirst(step: Step, rest: seq<Step>, c: nat)
    requires step.call == c && AllOf(rest, c)
    ensures AllOf([step] + rest, c)
  {
  }

  /** From every run a call that has begun can get to its end by steps of its own. */
  lemma {:induction false} CallCanFinish(calls: seq<Call>, steps: seq<Step>, c: nat) returns (later: seq<Step>)
    requires c < |calls| && Run(calls, steps).stages[c].Begun?
    ensures AllOf(later, c) && Run(calls, steps + later).stages[c].Begun?
    ensures var push := Run(calls, steps + later).stages[c].push;
            if calls[c].concurrency <= 1
            then push.abort || forall k :: 0 <= k < |push.tasks| ==> push.tasks[k].Done?
            else forall k :: 0 <= k < |push.tasks| ==> push.tasks[k].Done? || push.tasks[k].Skipped?
    decreases WorkLeft(Run(calls, steps).stages[c])
  {
    later := [];
    ConcatEmpty(steps);
    if !PushOver(calls[c], Run(calls, steps).stages[c].push) {
      var task := BegunCanGoOn(calls, steps, c);
      RunMore(calls, steps, Resume(c, task));
      ResumeLeavesLess(calls, Run(calls, steps), Resume(c, task));
      var rest := CallCanFinish(calls, steps + [Resume(c, task)], c);
      later := [Resume(c, task)] + rest;
      OneFirst(Resume(c, task), rest, c);
      ConcatIsAssociative(steps, [Resume(c, task)], rest);
    }
  }

  lemma {:induction false} OthersKept(calls: seq<Call>, steps: seq<Step>, later: seq<Step>, c: nat, other: nat)
    requires c < |calls| && AllOf(later, other) && c != other
    ensures Run(calls, steps + later).stages[c] == Run(calls, steps).stages[c]
  {
    if later == [] {
      ConcatEmpty(steps);
    } else {
      var last := |later| - 1;
      OthersKept(calls, steps, later[..last], c, other);
      TakeOneMore(later, last);
      TakeAll(later);
      ConcatIsAssociative(steps, later[..last], [later[last]]);
      RunMore(calls, steps + later[..last], later[last]);
      var s := Run(calls, steps + later[..last]);
      if Enabled(calls, s, later[last]) { OthersStay(calls, s, later[last], c); }
    }
  }

  /** A call that is not over, even one that has not begun, can get to its end. */
  lemma OneCanEnd(calls: seq<Call>, steps: seq<Step>, c: nat) returns (later: seq<Step>)
    requires c < |calls|
    ensures AllOf(later, c) && CallOver(calls[c], Run(calls, steps + later).stages[c])
  {
    later := [];
    ConcatEmpty(steps);
    if Run(calls, steps).stages[c].NotBegun? {
      later := [Begin(c)];
      RunMore(calls, steps, Begin(c));
    }
    if Run(calls, steps + later).stages[c].Begun? {
      var rest := CallCanFinish(calls, steps + later, c);
      ConcatIsAssociative(steps, later, rest);
      later := later + rest;
    }
  }

  lemma {:induction false} FirstCanEnd(calls: seq<Call>, steps: seq<Step>, count: nat) returns (later: seq<Step>)
    requires count <= |calls|
    ensures forall c :: 0 <= c < count ==> CallOver(calls[c], Run(calls, steps + later).stages[c])
  {
    later := [];
    if count > 0 {
      var before := FirstCanEnd(calls, steps, count - 1);
      var rest := OneCanEnd(calls, steps + before, count - 1);
      later := before + rest;
      ConcatIsAssociative(steps, before, rest);
      forall c | 0 <= c < count ensures CallOver(calls[c], Run(calls, steps + later).stages[c]) {
        if c < count - 1 { OthersKept(calls, steps + before, rest, c, count - 1); }
      }
    }
  }

  /** From every run all calls can get to their end. */
  lemma AllCanEnd(calls: seq<Call>, steps: seq<Step>) returns (later: seq<Step>)
    ensures AllOver(calls, Run(calls, steps + later).stages)
  {
    later := FirstCanEnd(calls, steps, |calls|);
  }
}
