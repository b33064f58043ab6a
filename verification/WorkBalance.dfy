/**
 The work on a source, counted: every queued task and every run. Which steps create work and which end it, and what
 a failure leaves to be seen.
 */
module WorkBalance {
  import opened Options
  import opened Lifecycle

  function Work(s: State): nat { |s.queue| + |s.runs| }

  /** Accepted requests queue one task each, and the queue may deliver a task twice. */
  predicate Creates(cfg: Config, s: State, e: Event) {
    match e
    case Store => s.kind == File && !s.located
    case EditDepartments(changed) => changed && s.status == Ready
    case Retry(admin) => s.status in {Error, PlanReady} && (admin || s.recoveries < cfg.cap) && s.located
    case ApproveExtraction(_) => s.status == AwaitingApproval
    case ApprovePlan => s.plan == Some(PendingReview)
    case RegeneratePlan(queued) => queued && s.plan in {Some(PendingReview), Some(Rejected)}
    case Duplicate(r) => r in s.runs
    case _ => false
  }

  /** A task lacks what it works on. */
  predicate LacksInput(s: State, t: Task) {
    match t
    case IngestFile => !s.located
    case MapReduce => !s.fullText
    case RefinePages => !s.fullText
    case Regenerate => s.plan == None
    case _ => false
  }

  /** Work ends where the source waits for a decision, is finished, has nothing to work on, or something fails. */
  predicate EndsWork(cfg: Config, s: State, e: Event) {
    match e
    case GateExtraction(k, _) => Extracted(k) in s.runs && cfg.tokens > cfg.threshold
    case FinishPlan(approve, _, _) => Planned(approve) in s.runs && !approve
    case CommitDone(_) => Verifying in s.runs
    case RegenerateDone(_) => Replanning in s.runs
    case Start(t) => t in s.queue && LacksInput(s, t)
    case Route(seen) => MapStarted(seen) in s.runs && seen in {Refine, Verify, Commit}
    case OpenRefine(seen, _) => RefineStarted(seen) in s.runs && s.plan !in {Some(Approved), Some(InProgress), Some(Done)}
    case Extract(k, found) => Extracting(k) in s.runs && !found
    case RegenerateFails(_) => Replanning in s.runs
    case Lose(t) => t in s.queue
    case Fail(r, _) => r in s.runs && r != Replanning
    case Crash(r) => r in s.runs
    case _ => false
  }

  lemma AddSize<T(!new)>(m: multiset<T>, x: T)
    ensures |Add(m, x)| == |m| + 1
    ensures |Remove(m, x)| == |m| - if x in m then 1 else 0
  {}

  lemma Sizes(s: State, t: Task, r: Run, next: Run)
    ensures Work(s.Enqueue(t)) == Work(s) + 1
    ensures Work(s.Dequeue(t)) == Work(s) - if t in s.queue then 1 else 0
    ensures t in s.queue ==> Work(s.Begin(t, r)) == Work(s)
    ensures r in s.runs ==> Work(s.Advance(r, next)) == Work(s)
    ensures Work(s.End(r)) == Work(s) - if r in s.runs then 1 else 0
  {
    AddSize(s.queue, t);
    AddSize(s.runs, r);
    AddSize(Remove(s.runs, r), next);
    hide Add, Remove, Regenerations, Refinements;
  }

  ghost predicate Balanced(cfg: Config, s: State, e: Event, after: State) {
    Work(after) == Work(s) + (if Creates(cfg, s, e) then 1 else 0) - (if EndsWork(cfg, s, e) then 1 else 0)
  }

  lemma RequestBalances(cfg: Config, s: State, e: Event)
    requires e.IsRequest()
    ensures Balanced(cfg, s, e, Request(cfg, s, e))
  {
    hide State.Begin, State.Advance, State.End, State.Dequeue, Regenerations, Refinements, RetryTask;
  }

  lemma ExtractBalances(cfg: Config, s: State, e: Event)
    requires e.Extract? || e.CaptionsDone?
    ensures Balanced(cfg, s, e, Prepare(cfg, s, e))
  {
    hide State.Begin, State.Advance, State.End, State.Dequeue, State.Enqueue, Regenerations, Refinements, Add, Remove;
    if e.Extract? {
      Sizes(s.(fullText := true), Captions, Extracting(e.kind), Extracted(e.kind));
      Sizes(s.(status := Error), Captions, Extracting(e.kind), Extracted(e.kind));
    } else {
      Sizes(s, MapReduce, Captioning, Captioning);
      Sizes(s.End(Captioning), MapReduce, Captioning, Captioning);
    }
  }

  lemma GateBalances(cfg: Config, s: State, k: Kind, images: bool)
    ensures Balanced(cfg, s, GateExtraction(k, images), Prepare(cfg, s, GateExtraction(k, images)))
  {
    hide State.Begin, State.Advance, State.End, State.Dequeue, State.Enqueue, Regenerations, Refinements, Add, Remove;
    var r := Extracted(k);
    var after := s.End(r);
    Sizes(s, MapReduce, r, r);
    Sizes(after.(status := Processing), if images then Captions else MapReduce, r, r);
  }

  lemma SkipBalances(cfg: Config, s: State)
    ensures Balanced(cfg, s, SkipCaptions, Prepare(cfg, s, SkipCaptions))
  {
    var busy := s.(status := Processing);
    Sizes(busy, Captions, Captioning, Captioning);
    Sizes(busy.Dequeue(Captions), MapReduce, Captioning, Captioning);
    hide State.Begin, State.Advance, State.End, State.Dequeue, State.Enqueue, Regenerations, Refinements, Add, Remove;
  }

  lemma RouteBalances(cfg: Config, s: State, e: Event)
    requires e.Route?
    ensures Balanced(cfg, s, e, Plan(cfg, s, e))
  {
    hide State.Begin, State.Advance, State.End, State.Dequeue, State.Enqueue, Regenerations, Refinements, Add, Remove;
    Sizes(s, MapReduce, MapStarted(e.seen), Planned(cfg.autoApprove || s.plan == Some(Approved)));
    Sizes(s, MapReduce, MapStarted(e.seen), Probing);
  }

  lemma MapBalances(cfg: Config, s: State, e: Event)
    requires e.BeginMap? || e.ProbeFails? || e.MapDone? || e.ReduceDone?
    ensures Balanced(cfg, s, e, Plan(cfg, s, e))
  {
    hide State.Begin, State.Advance, State.End, State.Dequeue, State.Enqueue, Regenerations, Refinements, Add, Remove;
    if e.BeginMap? {
      Sizes(s.(phase := Map), MapReduce, Probing, Mapping);
    } else if e.MapDone? {
      Sizes(s.(phase := Reduce), MapReduce, Mapping, Reducing);
    } else {
      Sizes(s.(plan := Some(PendingReview), phase := PlanReview), MapReduce, Reducing, Planned(cfg.autoApprove));
    }
  }

  lemma ConcludeBalances(cfg: Config, s: State, approve: bool, saved: bool, zero: bool)
    ensures Work(Conclude(s, approve, saved, zero)) == Work(s) + if approve then 1 else 0
  {
    hide State.Begin, State.Advance, State.End, State.Dequeue, State.Enqueue, Regenerations, Refinements, Add, Remove;
    var plan := if s.plan == Some(PendingReview) then Some(Approved) else s.plan;
    Sizes(s, RefinePages, Probing, Probing);
    Sizes(s.(status := Processing, plan := plan), RefinePages, Probing, Probing);
  }

  lemma FinishBalances(cfg: Config, s: State, e: Event)
    requires e.FinishPlan?
    ensures Balanced(cfg, s, e, Plan(cfg, s, e))
  {
    hide Conclude, State.End, Add, Remove;
    var r := Planned(e.approve);
    Sizes(s, RefinePages, r, r);
    ConcludeBalances(cfg, s.End(r), e.approve, e.saved, e.zero);
  }

  lemma OpenBalances(cfg: Config, s: State, e: Event)
    requires e.OpenRefine?
    ensures Balanced(cfg, s, e, Write(s, e))
  {
    hide State.Begin, State.Advance, State.End, State.Dequeue, State.Enqueue, Regenerations, Refinements, Add, Remove;
    var r := RefineStarted(e.seen);
    if s.plan !in {Some(Approved), Some(InProgress), Some(Done)} {
      Sizes(s.(status := Error), RefinePages, r, Writing);
    } else if e.seen == Verify || e.seen == Commit {
      Sizes(s.(phase := Verify), RefinePages, r, Verifying);
      Sizes(s.(phase := Refine), RefinePages, r, Writing);
    } else {
      Sizes(s.(phase := Refine, plan := Some(InProgress)), RefinePages, r, Writing);
    }
  }

  lemma WriteBalances(cfg: Config, s: State, e: Event)
    requires e.WriteDone? || e.CommitDone?
    ensures Balanced(cfg, s, e, Write(s, e))
  {
    hide State.Begin, State.Advance, State.End, State.Dequeue, State.Enqueue, Regenerations, Refinements, Add, Remove;
    if e.WriteDone? {
      Sizes(s.(phase := Verify), RefinePages, Writing, Verifying);
    } else {
      Sizes(s.(plan := Some(Done), phase := Commit, status := Ready, recoveries := if e.zero then s.recoveries else 0), RefinePages, Verifying, Writing);
    }
  }

  lemma RegenerateBalances(cfg: Config, s: State, e: Event)
    requires e.RegenerateDone? || e.RegenerateFails?
    ensures Balanced(cfg, s, e, Write(s, e))
  {
    hide State.Begin, State.Advance, State.End, State.Dequeue, State.Enqueue, Regenerations, Refinements, Add, Remove;
    Sizes(s, Regenerate, Replanning, Replanning);
    Sizes(s.(plan := Some(PendingReview)), Regenerate, Replanning, Replanning);
  }

  lemma LossBalances(cfg: Config, s: State, e: Event)
    requires e.Lose? || e.Crash?
    ensures Balanced(cfg, s, e, Interrupt(s, e))
  {
    hide State.Begin, State.Advance, State.End, State.Dequeue, State.Enqueue, Regenerations, Refinements, Add, Remove, Run.Origin;
    if e.Lose? { Sizes(s, e.task, Captioning, Captioning); } else { Sizes(s, Captions, e.run, e.run); }
  }

  lemma FailBalances(cfg: Config, s: State, r: Run, marked: bool)
    ensures Balanced(cfg, s, Fail(r, marked), Interrupt(s, Fail(r, marked)))
  {
    hide State.Begin, State.Advance, State.End, State.Dequeue, State.Enqueue, Regenerations, Refinements, Add, Remove, Run.Origin;
    Sizes(s, Captions, r, r);
    Sizes(s.(status := Error), Captions, r, r);
  }

  lemma RedeliverBalances(cfg: Config, s: State, e: Event)
    requires e.Redeliver? || e.Duplicate?
    ensures Balanced(cfg, s, e, Interrupt(s, e))
  {
    hide State.Begin, State.Advance, State.End, State.Dequeue, State.Enqueue, Regenerations, Refinements, Add, Remove, Run.Origin;
    Sizes(s, e.run.Origin(), e.run, e.run);
    Sizes(s.End(e.run), e.run.Origin(), e.run, e.run);
  }

  lemma StartBalances(cfg: Config, s: State, t: Task)
    ensures Balanced(cfg, s, Start(t), StartTask(s, t))
  {
    var busy := s.(status := Processing);
    Sizes(s, t, Captioning, Captioning);
    Sizes(s, t, Replanning, Captioning);
    Sizes(busy, t, Extracting(File), Captioning);
    Sizes(busy, t, Extracting(Url), Captioning);
    Sizes(busy, t, MapStarted(s.phase), Captioning);
    Sizes(busy, t, RefineStarted(s.phase), Captioning);
    hide State.Begin, State.Advance, State.End, State.Dequeue, State.Enqueue, Regenerations, Refinements, Add, Remove;
  }

  /** No step creates or ends more work than that. */
  lemma StepBalances(cfg: Config, s: State, e: Event)
    ensures Balanced(cfg, s, e, Step(cfg, s, e))
  {
    hide Balanced, Request, Prepare, Plan, Write, Interrupt, StartTask;
    if e.IsRequest() {
      RequestBalances(cfg, s, e);
    } else if e == SkipCaptions {
      SkipBalances(cfg, s);
    } else if e.GateExtraction? {
      GateBalances(cfg, s, e.kind, e.images);
    } else if e.IsPreparation() {
      ExtractBalances(cfg, s, e);
    } else if e.FinishPlan? {
      FinishBalances(cfg, s, e);
    } else if e.Route? {
      RouteBalances(cfg, s, e);
    } else if e.IsPlanning() {
      MapBalances(cfg, s, e);
    } else if e.OpenRefine? {
      OpenBalances(cfg, s, e);
    } else if e.RegenerateDone? || e.RegenerateFails? {
      RegenerateBalances(cfg, s, e);
    } else if e.IsRefining() {
      WriteBalances(cfg, s, e);
    } else if e.Lose? || e.Crash? {
      LossBalances(cfg, s, e);
    } else if e.Fail? {
      FailBalances(cfg, s, e.run, e.marked);
    } else if e.IsInterruption() {
      RedeliverBalances(cfg, s, e);
    } else if e.Start? {
      StartBalances(cfg, s, e.task);
    } else {
      SweepBalances(cfg, s);
    }
  }

  lemma SweepBalances(cfg: Config, s: State)
    ensures Balanced(cfg, s, Sweep, Step(cfg, s, Sweep))
  {}

  // ----- over a run -----

  function Created(cfg: Config, s: State, trace: seq<Event>): nat {
    if trace == [] then 0
    else
      var init, e := trace[..|trace| - 1], trace[|trace| - 1];
      Created(cfg, s, init) + if Creates(cfg, Execute(cfg, s, init), e) then 1 else 0
  }

  function Ended(cfg: Config, s: State, trace: seq<Event>): nat {
    if trace == [] then 0
    else
      var init, e := trace[..|trace| - 1], trace[|trace| - 1];
      Ended(cfg, s, init) + if EndsWork(cfg, Execute(cfg, s, init), e) then 1 else 0
  }

  /** What is queued or running is what was, and what has been created, less what has ended. */
  lemma {:induction false} WorkConserved(cfg: Config, s: State, trace: seq<Event>)
    ensures Work(Execute(cfg, s, trace)) == Work(s) + Created(cfg, s, trace) - Ended(cfg, s, trace)
  {
    hide Creates, EndsWork, Step;
    if trace != [] {
      var init, e := trace[..|trace| - 1], trace[|trace| - 1];
      WorkConserved(cfg, s, init);
      StepBalances(cfg, Execute(cfg, s, init), e);
    }
  }

  // ----- what failures show -----

  predicate TurnsToError(s: State, e: Event) {
    match e
    case RejectPlan => s.plan == Some(PendingReview)
    case Extract(k, found) => Extracting(k) in s.runs && !found
    case OpenRefine(seen, _) => RefineStarted(seen) in s.runs && s.plan !in {Some(Approved), Some(InProgress), Some(Done)}
    case Fail(r, marked) => marked && r in s.runs && r != Captioning && r != Replanning
    case Sweep => s.status == Processing
    case _ => false
  }

  predicate TurnsToFailed(s: State, e: Event) { e == ProbeFails && Probing in s.runs }

  predicate TurnsToReady(s: State, e: Event) { e.CommitDone? && Verifying in s.runs }

  ghost predicate ShownAs(s: State, e: Event, after: State) {
    && (after.status == Error <==> TurnsToError(s, e) || (s.status == Error && after.status == s.status))
    && (after.status == Failed <==> TurnsToFailed(s, e) || (s.status == Failed && after.status == s.status))
    && (after.status == Ready <==> TurnsToReady(s, e) || (s.status == Ready && after.status == s.status))
  }

  lemma ShownRequest(cfg: Config, s: State, e: Event)
    requires e.IsRequest() || e == Sweep
    ensures ShownAs(s, e, Step(cfg, s, e))
  {
    hide State.Enqueue, RetryTask, Prepare, Plan, Write, Interrupt, StartTask;
  }

  lemma ShownPreparation(cfg: Config, s: State, e: Event)
    requires e.IsPreparation() || e.Start?
    ensures ShownAs(s, e, Step(cfg, s, e))
  {
    hide State.Enqueue, State.Dequeue, State.Begin, State.Advance, State.End, Request, Interrupt, Plan, Write;
  }

  lemma ShownPlanning(cfg: Config, s: State, e: Event)
    requires e.IsPlanning()
    ensures ShownAs(s, e, Step(cfg, s, e))
  {
    hide State.Enqueue, State.Dequeue, State.Begin, State.Advance, State.End, Request, Interrupt, Prepare, Write, StartTask;
  }

  lemma ShownRefining(cfg: Config, s: State, e: Event)
    requires e.IsRefining()
    ensures ShownAs(s, e, Step(cfg, s, e))
  {
    hide State.Enqueue, State.Dequeue, State.Begin, State.Advance, State.End, Request, Interrupt, Prepare, Plan, StartTask;
  }

  lemma ShownInterruption(cfg: Config, s: State, e: Event)
    requires e.IsInterruption()
    ensures ShownAs(s, e, Step(cfg, s, e))
  {
    hide State.Enqueue, State.Dequeue, State.Begin, State.Advance, State.End, Request, Prepare, Plan, Write, StartTask, Run.Origin;
  }

  /**
   A source turns to `error` exactly at a rejection, an extraction without text, a refinement without a usable plan, a
   marked failure of an ingest, map-reduce or refine run, or a sweep; to `failed` exactly at a failing probe; and to
   `ready` exactly at a commit.
   */
  lemma StatusTurnsIff(cfg: Config, s: State, e: Event)
    ensures s.status != Error ==> (Step(cfg, s, e).status == Error <==> TurnsToError(s, e))
    ensures s.status != Failed ==> (Step(cfg, s, e).status == Failed <==> TurnsToFailed(s, e))
    ensures s.status != Ready ==> (Step(cfg, s, e).status == Ready <==> TurnsToReady(s, e))
  {
    hide TurnsToError, TurnsToFailed, TurnsToReady, Step;
    if e.IsRequest() || e == Sweep {
      ShownRequest(cfg, s, e);
    } else if e.IsInterruption() {
      ShownInterruption(cfg, s, e);
    } else if e.IsPlanning() {
      ShownPlanning(cfg, s, e);
    } else if e.IsRefining() {
      ShownRefining(cfg, s, e);
    } else {
      ShownPreparation(cfg, s, e);
    }
  }

  /** The status an event gives the plan, if it gives one. */
  function NewPlan(s: State, e: Event): Option<PlanStatus> {
    var waits := s.plan == Some(PendingReview);
    match e
    case ApprovePlan => if waits then Some(Approved) else None
    case RejectPlan => if waits then Some(Rejected) else None
    case RegeneratePlan(_) => if waits || s.plan == Some(Rejected) then Some(Regenerating) else None
    case ReduceDone => if Reducing in s.runs then Some(PendingReview) else None
    case FinishPlan(approve, saved, _) => if Planned(approve) in s.runs && approve && saved && waits then Some(Approved) else None
    case OpenRefine(seen, _) =>
      if RefineStarted(seen) in s.runs && s.plan in {Some(Approved), Some(InProgress), Some(Done)} && seen !in {Verify, Commit}
      then Some(InProgress) else None
    case CommitDone(_) => if Verifying in s.runs then Some(Done) else None
    case RegenerateDone(copy) => if Replanning in s.runs && copy != PendingReview then Some(PendingReview) else None
    case RegenerateFails(copy) => if Replanning in s.runs && copy == Regenerating then Some(PendingReview) else None
    case _ => None
  }

  ghost predicate Replanned(s: State, e: Event, after: State) {
    after.plan == if NewPlan(s, e).Some? then NewPlan(s, e) else s.plan
  }

  lemma ReplannedByRequest(cfg: Config, s: State, e: Event)
    requires e.IsRequest()
    ensures Replanned(s, e, Step(cfg, s, e))
  {
    hide State.Enqueue, RetryTask, Prepare, Plan, Write, Interrupt, StartTask;
  }

  lemma ReplannedByPlanning(cfg: Config, s: State, e: Event)
    requires e.IsPlanning()
    ensures Replanned(s, e, Step(cfg, s, e))
  {
    hide State.Enqueue, State.Dequeue, State.Begin, State.Advance, State.End, Request, Interrupt, Prepare, StartTask, Write;
  }

  lemma ReplannedByRefining(cfg: Config, s: State, e: Event)
    requires e.IsRefining()
    ensures Replanned(s, e, Step(cfg, s, e))
  {
    hide State.Enqueue, State.Dequeue, State.Begin, State.Advance, State.End, Request, Interrupt, Prepare, StartTask, Plan;
  }

  lemma ReplannedByOthers(cfg: Config, s: State, e: Event)
    requires !e.IsRequest() && !e.IsPlanning() && !e.IsRefining()
    ensures Replanned(s, e, Step(cfg, s, e))
  {
    hide State.Enqueue, State.Dequeue, State.Begin, State.Advance, State.End, Request, Plan, Write, Run.Origin;
  }

  /** The plan's status diagram: an event that gives the plan a status gives it this one, and no other event touches it. */
  lemma PlanTurns(cfg: Config, s: State, e: Event)
    ensures Replanned(s, e, Step(cfg, s, e))
  {
    hide Replanned, Step;
    if e.IsRequest() {
      ReplannedByRequest(cfg, s, e);
    } else if e.IsPlanning() {
      ReplannedByPlanning(cfg, s, e);
    } else if e.IsRefining() {
      ReplannedByRefining(cfg, s, e);
    } else {
      ReplannedByOthers(cfg, s, e);
    }
  }

  // ----- a task delivered again -----

  /** What a run has become once its task has been delivered again and taken. */
  function Restarted(s: State, r: Run): Run {
    match r
    case Extracting(k) => r
    case Extracted(k) => Extracting(k)
    case Captioning => r
    case Replanning => r
    case RefineStarted(_) => RefineStarted(s.phase)
    case Writing => RefineStarted(s.phase)
    case Verifying => RefineStarted(s.phase)
    case _ => MapStarted(s.phase)
  }

  lemma Redelivered(cfg: Config, s: State, r: Run)
    requires r in s.runs
    ensures Step(cfg, s, Redeliver(r)) == s.End(r).Enqueue(r.Origin())
  {
    hide State.End, State.Enqueue, Request, Prepare, Plan, Write, StartTask;
  }

  lemma Taken(s: State, t: Task, r: Run)
    ensures s.Enqueue(t).Queued(t)
    ensures s.Enqueue(t).Begin(t, r).queue == s.queue && s.Enqueue(t).Begin(t, r).runs == Add(s.runs, r)
    ensures var busy := s.Enqueue(t).(status := Processing);
            busy.Begin(t, r).queue == s.queue && busy.Begin(t, r).runs == Add(s.runs, r)
  {
    AddRemove(s.queue, t);
    hide Add, Remove, Regenerations, Refinements;
  }

  lemma StartsOver(cfg: Config, s: State, r: Run)
    requires (r.Origin() == IngestFile ==> s.located) && (r.Origin() in {MapReduce, RefinePages} ==> s.fullText) && (r == Replanning ==> s.plan.Some?)
    ensures var after := Step(cfg, s.Enqueue(r.Origin()), Start(r.Origin()));
            after.queue == s.queue && after.runs == Add(s.runs, Restarted(s, r))
  {
    Taken(s, r.Origin(), Restarted(s, r));
    StartStep(cfg, s.Enqueue(r.Origin()), r.Origin());
    hide Step, Add, State.Begin, State.Dequeue, State.Enqueue, Regenerations, Refinements;
  }

  lemma StartStep(cfg: Config, s: State, t: Task)
    ensures Step(cfg, s, Start(t)) == StartTask(s, t)
  {
    hide StartTask;
  }

  /**
   The worker on a run is lost and its task delivered again: one task waits, and once taken it starts over, from what
   has been saved.
   */
  lemma RedeliveryRestarts(cfg: Config, s: State, r: Run, approved: bool)
    requires Gated(cfg, s, approved) && r in s.runs && s.queue == multiset{}
    ensures var lost := Step(cfg, s, Redeliver(r));
            exists t ::
              && lost.queue == multiset{t}
              && Step(cfg, lost, Start(t)).queue == multiset{}
              && Step(cfg, lost, Start(t)).runs == Add(Remove(s.runs, r), Restarted(s, r))
  {
    assert RunReady(cfg, s, approved, r);
    var ended := s.End(r);
    Redelivered(cfg, s, r);
    StartsOver(cfg, ended, r);
    var lost := Step(cfg, s, Redeliver(r));
    assert lost.queue == multiset{r.Origin()};
    hide Step, Add, Remove, Gated, Regenerations, Refinements;
    assert Restarted(ended, r) == Restarted(s, r);
  }
}
