/**
 Which sources can still be finished.

 A source at rest has no task queued and none running, because it failed, was turned down, waits for a decision, or
 because a queue entry or a worker was lost. The runs considered are those an admin can bring about when no further
 step fails; whether a source has images is a fact about the source and not a choice.
 */
module Recovery {
  import opened Options
  import opened Lifecycle

  /** What happens when workers and queue do not fail, and an administrator helps as well as he can. */
  predicate Helps(e: Event, images: bool) {
    match e
    case Retry(admin) => admin
    case ApproveExtraction(i) => i == images
    case GateExtraction(_, i) => i == images
    case Extract(_, found) => found
    case FinishPlan(_, saved, _) => saved
    case RegeneratePlan(queued) => queued
    case _ =>
      || e.Store? || e.ApprovePlan? || e.Start? || e.CaptionsDone? || e.Route? || e.BeginMap? || e.MapDone? || e.ReduceDone?
      || e.OpenRefine? || e.WriteDone? || e.CommitDone? || e.RegenerateDone? || e.Sweep?
  }

  ghost predicate Finishes(cfg: Config, images: bool, s: State) {
    exists trace | (forall e | e in trace :: Helps(e, images)) :: Execute(cfg, s, trace).status == Ready
  }

  lemma {:induction false} ExecuteFirst(cfg: Config, s: State, e: Event, trace: seq<Event>)
    ensures Execute(cfg, s, [e] + trace) == Execute(cfg, Step(cfg, s, e), trace)
  {
    hide Step;
    if trace == [] {
      assert [e] + trace == [e] && [e][..0] == [];
      assert Execute(cfg, s, []) == s;
    } else {
      var n := |trace| - 1;
      ExecuteFirst(cfg, s, e, trace[..n]);
      assert ([e] + trace)[..|[e] + trace| - 1] == [e] + trace[..n];
    }
  }

  lemma Before(cfg: Config, images: bool, s: State, e: Event)
    requires Helps(e, images) && Finishes(cfg, images, Step(cfg, s, e))
    ensures Finishes(cfg, images, s)
  {
    hide Step, Execute, Helps;
    var trace :| (forall f | f in trace :: Helps(f, images)) && Execute(cfg, Step(cfg, s, e), trace).status == Ready;
    ExecuteFirst(cfg, s, e, trace);
    assert forall f | f in [e] + trace :: Helps(f, images);
  }

  lemma AlreadyReady(cfg: Config, images: bool, s: State)
    requires s.status == Ready
    ensures Finishes(cfg, images, s)
  {
    assert Execute(cfg, s, []) == s;
  }

  // ----- from the end of the pipeline to its beginning -----

  function WithRun(s: State, r: Run): State { s.(runs := Add(s.runs, r)) }

  function WithTask(s: State, t: Task): State { s.Enqueue(t) }

  lemma Turns(s: State, r: Run, next: Run)
    ensures WithRun(s, r).Running(r) && WithRun(s, r).Advance(r, next) == WithRun(s, next) && WithRun(s, r).End(r) == s
  {
    Replaced(s, r, next);
    hide Add, State.Advance, State.End;
  }

  lemma Starts(s: State, t: Task, r: Run)
    ensures WithTask(s, t).Queued(t)
    ensures WithTask(s, t).Begin(t, r) == WithRun(s, r) && WithTask(s, t).Dequeue(t) == s
    ensures WithTask(s, t).(status := Processing).Begin(t, r) == WithRun(s.(status := Processing), r)
  {
    AddRemove(s.queue, t);
    hide Add, Remove;
  }

  lemma FromVerifying(cfg: Config, images: bool, s: State)
    ensures Finishes(cfg, images, WithRun(s, Verifying))
  {
    hide Finishes, Add, Remove;
    Turns(s, Verifying, Verifying);
    AlreadyReady(cfg, images, Step(cfg, WithRun(s, Verifying), CommitDone(false)));
    Before(cfg, images, WithRun(s, Verifying), CommitDone(false));
  }

  lemma FromWriting(cfg: Config, images: bool, s: State)
    ensures Finishes(cfg, images, WithRun(s, Writing))
  {
    hide Finishes, Add, Remove, State.Advance;
    var after := s.(phase := Verify);
    Turns(after, Writing, Verifying);
    FromVerifying(cfg, images, after);
    Before(cfg, images, WithRun(s, Writing), WriteDone);
  }

  lemma FromRefineTask(cfg: Config, images: bool, s: State)
    requires s.fullText && PlanUsable(s.plan)
    ensures Finishes(cfg, images, WithTask(s, RefinePages))
  {
    var r := RefineStarted(s.phase);
    var started, queued := s.(status := Processing), WithTask(s, RefinePages);
    var writing := if s.phase != Verify && s.phase != Commit then started.(phase := Refine, plan := Some(InProgress))
                   else started.(phase := Refine);
    hide Finishes, Add, Remove, State.Advance, State.Begin, State.Enqueue, State.Dequeue;
    Starts(s, RefinePages, r);
    Turns(writing, r, Writing);
    FromWriting(cfg, images, writing);
    OpenedRefine(cfg, started, false);
    Before(cfg, images, WithRun(started, r), OpenRefine(s.phase, false));
    StartsRefine(cfg, s);
    Before(cfg, images, queued, Start(RefinePages));
  }

  lemma StartsRefine(cfg: Config, s: State)
    requires s.fullText
    ensures Step(cfg, WithTask(s, RefinePages), Start(RefinePages)) == WithRun(s.(status := Processing), RefineStarted(s.phase))
  {
    Starts(s, RefinePages, RefineStarted(s.phase));
    hide Add, Remove, State.Begin, State.Dequeue, Request, Prepare, Plan, Write, Interrupt;
  }

  lemma StartsMap(cfg: Config, s: State)
    requires s.fullText
    ensures Step(cfg, WithTask(s, MapReduce), Start(MapReduce)) == WithRun(s.(status := Processing), MapStarted(s.phase))
  {
    Starts(s, MapReduce, MapStarted(s.phase));
    hide Add, Remove, State.Begin, State.Dequeue, Request, Prepare, Plan, Write, Interrupt;
  }

  /** A plan under review, wherever the source stands. */
  lemma FromReview(cfg: Config, images: bool, s: State)
    requires s.fullText && s.plan == Some(PendingReview)
    ensures Finishes(cfg, images, s)
  {
    hide Finishes, Prepare, Plan, Write, Interrupt, StartTask;
    FromRefineTask(cfg, images, s.(plan := Some(Approved), status := Processing));
    Before(cfg, images, s, ApprovePlan);
  }

  lemma FromPlanned(cfg: Config, images: bool, s: State, approve: bool)
    requires s.fullText && (s.plan == Some(PendingReview) || (approve && s.plan == Some(Approved)))
    ensures Finishes(cfg, images, WithRun(s, Planned(approve)))
  {
    hide Finishes, Add, Remove, State.Enqueue, State.End, Prepare, Request, Write, Interrupt, StartTask;
    var r := Planned(approve);
    Turns(s, r, r);
    if approve {
      FromRefineTask(cfg, images, s.(status := Processing, plan := Some(Approved)));
    } else {
      FromReview(cfg, images, s.(status := PlanReady, recoveries := 0));
    }
    Before(cfg, images, WithRun(s, r), FinishPlan(approve, true, false));
  }

  lemma FromReducing(cfg: Config, images: bool, s: State)
    requires s.fullText
    ensures Finishes(cfg, images, WithRun(s, Reducing))
  {
    hide Finishes, Add, Remove, State.Advance, Prepare, Request, Write, Interrupt, StartTask;
    var planned := s.(plan := Some(PendingReview), phase := PlanReview);
    Turns(s, Reducing, Reducing);
    Turns(planned, Reducing, Planned(cfg.autoApprove));
    FromPlanned(cfg, images, planned, cfg.autoApprove);
    Before(cfg, images, WithRun(s, Reducing), ReduceDone);
  }

  lemma FromMapping(cfg: Config, images: bool, s: State)
    requires s.fullText
    ensures Finishes(cfg, images, WithRun(s, Mapping))
  {
    hide Finishes, Add, Remove, State.Advance, Prepare, Request, Write, Interrupt, StartTask;
    Turns(s, Mapping, Mapping);
    Turns(s.(phase := Reduce), Mapping, Reducing);
    FromReducing(cfg, images, s.(phase := Reduce));
    Before(cfg, images, WithRun(s, Mapping), MapDone);
  }

  lemma FromProbing(cfg: Config, images: bool, s: State)
    requires s.fullText
    ensures Finishes(cfg, images, WithRun(s, Probing))
  {
    hide Finishes, Add, Remove, State.Advance, Prepare, Request, Write, Interrupt, StartTask;
    Turns(s, Probing, Probing);
    Turns(s.(phase := Map), Probing, Mapping);
    FromMapping(cfg, images, s.(phase := Map));
    Before(cfg, images, WithRun(s, Probing), BeginMap);
  }

  /** The task ends at once for a source in refinement; the sweep then fails it, and a retry resumes. */
  lemma FromMapTask(cfg: Config, images: bool, s: State)
    requires s.fullText && (PastMapping(s.phase) ==> s.located && PlanUsable(s.plan))
    ensures Finishes(cfg, images, WithTask(s, MapReduce))
  {
    var started, r := s.(status := Processing), MapStarted(s.phase);
    hide Finishes, Add, Remove, State.Enqueue, State.Advance, State.End, State.Begin, PlanUsable, Prepare, Request, Write, Interrupt, StartTask;
    if PastMapping(s.phase) {
      Turns(started, r, r);
      FromStuck(cfg, images, started);
    } else {
      RoutedMap(cfg, started);
      if s.phase == PlanReview && (s.plan == Some(PendingReview) || s.plan == Some(Approved)) {
        FromPlanned(cfg, images, started, cfg.autoApprove || s.plan == Some(Approved));
      } else {
        FromProbing(cfg, images, started);
      }
    }
    Before(cfg, images, WithRun(started, r), Route(s.phase));
    StartsMap(cfg, s);
    Before(cfg, images, WithTask(s, MapReduce), Start(MapReduce));
  }

  lemma FromRetry(cfg: Config, images: bool, s: State)
    requires s.fullText && s.located && (s.status == Error || s.status == PlanReady) && PastMapping(s.phase) && PlanUsable(s.plan)
    ensures Finishes(cfg, images, s)
  {
    hide Finishes, Step, PlanUsable, State.Enqueue;
    FromRefineTask(cfg, images, s.(status := Pending));
    RetryQueues(cfg, s, true);
    Before(cfg, images, s, Retry(true));
  }

  /** A source in refinement that is marked as processing though nothing works on it. */
  lemma FromStuck(cfg: Config, images: bool, s: State)
    requires s.fullText && s.located && s.status == Processing && PastMapping(s.phase) && PlanUsable(s.plan)
    ensures Finishes(cfg, images, s)
  {
    var swept := s.(recoveries := s.recoveries + 1, status := Error);
    hide Finishes, Step, PlanUsable;
    FromRetry(cfg, images, swept);
    SweepFails(cfg, s);
    Before(cfg, images, s, Sweep);
  }

  lemma SweepFails(cfg: Config, s: State)
    requires s.status == Processing
    ensures Step(cfg, s, Sweep) == s.(recoveries := s.recoveries + 1, status := Error)
  {}

  lemma FromCaptions(cfg: Config, images: bool, s: State)
    requires s.fullText && (PastMapping(s.phase) ==> s.located && PlanUsable(s.plan))
    ensures Finishes(cfg, images, WithRun(s, Captioning))
  {
    hide Finishes, Add, Remove, State.Enqueue, State.End, PlanUsable, Request, Plan, Write, Interrupt, StartTask;
    FromMapTask(cfg, images, s);
    Turns(s, Captioning, Captioning);
    Before(cfg, images, WithRun(s, Captioning), CaptionsDone);
  }

  /** Extraction or its approval queues captions for a source with images, and otherwise the map. */
  lemma FromCompile(cfg: Config, images: bool, s: State)
    requires s.fullText && (PastMapping(s.phase) ==> s.located && PlanUsable(s.plan))
    ensures Finishes(cfg, images, WithTask(s, if images then Captions else MapReduce))
  {
    hide Finishes, Add, Remove, State.Enqueue, State.End, State.Begin, PlanUsable, Request, Prepare, Plan, Write, Interrupt;
    if images {
      FromCaptions(cfg, images, s);
      Starts(s, Captions, Captioning);
      Before(cfg, images, WithTask(s, Captions), Start(Captions));
    } else {
      FromMapTask(cfg, images, s);
    }
  }

  lemma FromApproval(cfg: Config, images: bool, s: State)
    requires s.fullText && s.status == AwaitingApproval && (PastMapping(s.phase) ==> s.located && PlanUsable(s.plan))
    ensures Finishes(cfg, images, s)
  {
    hide Finishes, State.Enqueue, PlanUsable, Prepare, Plan, Write, Interrupt, StartTask;
    FromCompile(cfg, images, s.(status := Processing));
    Before(cfg, images, s, ApproveExtraction(images));
  }

  lemma FromExtracted(cfg: Config, images: bool, s: State)
    requires s.fullText && (PastMapping(s.phase) ==> s.located && PlanUsable(s.plan))
    ensures Finishes(cfg, images, WithRun(s, Extracted(s.kind)))
  {
    hide Finishes, Add, Remove, State.Enqueue, State.End, PlanUsable, Request, Plan, Write, Interrupt, StartTask;
    Turns(s, Extracted(s.kind), Extracted(s.kind));
    if cfg.Large() {
      FromApproval(cfg, images, s.(status := AwaitingApproval));
    } else {
      FromCompile(cfg, images, s.(status := Processing));
    }
    Before(cfg, images, WithRun(s, Extracted(s.kind)), GateExtraction(s.kind, images));
  }

  lemma FromExtracting(cfg: Config, images: bool, s: State)
    requires s.located && (PastMapping(s.phase) ==> PlanUsable(s.plan))
    ensures Finishes(cfg, images, WithRun(s, Extracting(s.kind)))
  {
    hide Finishes, Add, Remove, State.Advance, State.End, PlanUsable, Request, Plan, Write, Interrupt, StartTask;
    var read := s.(fullText := true);
    FromExtracted(cfg, images, read);
    Turns(read, Extracting(s.kind), Extracted(s.kind));
    Turns(s, Extracting(s.kind), Extracting(s.kind));
    Before(cfg, images, WithRun(s, Extracting(s.kind)), Extract(s.kind, true));
  }

  lemma FromIngestTask(cfg: Config, images: bool, s: State)
    requires s.located && (PastMapping(s.phase) ==> PlanUsable(s.plan))
    ensures Finishes(cfg, images, WithTask(s, if s.kind == File then IngestFile else IngestUrl))
  {
    var t := if s.kind == File then IngestFile else IngestUrl;
    hide Finishes, Add, State.Enqueue, State.Begin, PlanUsable, Step;
    FromExtracting(cfg, images, s.(status := Processing));
    Starts(s, t, Extracting(s.kind));
    IngestBegins(cfg, WithTask(s, t), t);
    Before(cfg, images, WithTask(s, t), Start(t));
  }

  lemma FromReplanning(cfg: Config, images: bool, s: State)
    requires s.fullText
    ensures Finishes(cfg, images, WithRun(s, Replanning))
  {
    hide Finishes, Add, Remove, State.End, Prepare, Plan, Interrupt, Request, StartTask;
    var review := s.(plan := Some(PendingReview));
    FromReview(cfg, images, review);
    Turns(review, Replanning, Replanning);
    Turns(s, Replanning, Replanning);
    Before(cfg, images, WithRun(s, Replanning), RegenerateDone(Regenerating));
  }

  lemma FromRejected(cfg: Config, images: bool, s: State)
    requires s.fullText && s.plan == Some(Rejected)
    ensures Finishes(cfg, images, s)
  {
    hide Finishes, Add, Remove, State.Enqueue, State.Dequeue, State.Begin, Prepare, Plan, Interrupt, Write;
    var rewriting := s.(plan := Some(Regenerating));
    FromReplanning(cfg, images, rewriting);
    Starts(rewriting, Regenerate, Replanning);
    Before(cfg, images, WithTask(rewriting, Regenerate), Start(Regenerate));
    Before(cfg, images, s, RegeneratePlan(true));
  }

  lemma FromFailure(cfg: Config, images: bool, s: State)
    requires s.located && (s.status == Error || s.status == PlanReady) && (PastMapping(s.phase) ==> PlanUsable(s.plan))
    requires s.phase != NoPhase || s.status == PlanReady ==> s.fullText
    ensures Finishes(cfg, images, s)
  {
    var pending := s.(status := Pending);
    hide Finishes, Step, PlanUsable, State.Enqueue;
    if PastMapping(s.phase) {
      FromRetry(cfg, images, s);
    } else {
      if s.phase != NoPhase || s.status == PlanReady { FromMapTask(cfg, images, pending); } else { FromIngestTask(cfg, images, pending); }
      RetryQueues(cfg, s, true);
      Before(cfg, images, s, Retry(true));
    }
  }

  lemma FromUpload(cfg: Config, images: bool, s: State)
    requires s.kind == File && !s.located && (PastMapping(s.phase) ==> PlanUsable(s.plan))
    ensures Finishes(cfg, images, s)
  {
    hide Finishes, PlanUsable, State.Enqueue, Prepare, Plan, Write, Interrupt, StartTask;
    FromIngestTask(cfg, images, s.(located := true));
    Before(cfg, images, s, Store);
  }

  // ----- the sources that are lost -----

  /** Somebody or something takes up the source as it stands. */
  predicate TakenUp(s: State) {
    match s.status
    case Ready => true
    case AwaitingApproval => s.located || s.kind == File || !PastMapping(s.phase)
    case Pending => s.kind == File && !s.located
    case Failed => s.kind == File && !s.located
    case _ => s.located || s.kind == File
  }

  /**
   Nothing brings the source to `ready` any more: there is no plan to decide on, and either nobody takes it up, or it
   is in refinement without a plan that refinement accepts.
   */
  predicate Lost(s: State) {
    && s.status != Ready && s.plan != Some(PendingReview) && s.plan != Some(Rejected)
    && (!TakenUp(s) || (PastMapping(s.phase) && !PlanUsable(s.plan)))
  }

  /** A source that is not lost can be finished, whatever else is queued or running. */
  lemma KeptIsFinished(cfg: Config, images: bool, s: State, approved: bool)
    requires Gated(cfg, s, approved) && !Lost(s)
    ensures Finishes(cfg, images, s)
  {
    assert s.phase != NoPhase || s.plan.Some? || s.status == PlanReady || s.status == AwaitingApproval ==> s.fullText;
    hide Gated, Finishes, Step, PlanUsable;
    if s.status == Ready {
      AlreadyReady(cfg, images, s);
    } else if s.plan == Some(PendingReview) {
      FromReview(cfg, images, s);
    } else if s.plan == Some(Rejected) {
      FromRejected(cfg, images, s);
    } else if s.kind == File && !s.located {
      FromUpload(cfg, images, s);
    } else if s.status == AwaitingApproval {
      FromApproval(cfg, images, s);
    } else if s.status == Processing {
      SweepFails(cfg, s);
      FromFailure(cfg, images, s.(recoveries := s.recoveries + 1, status := Error));
      Before(cfg, images, s, Sweep);
    } else {
      FromFailure(cfg, images, s);
    }
  }

  // Why a lost source at rest stays lost: three ways, each of which every step keeps.

  predicate Undecided(s: State) { s.status != Ready && s.plan != Some(PendingReview) && s.plan != Some(Rejected) }

  predicate AtRest(s: State) { s.queue == multiset{} && s.runs == multiset{} }

  /** Every refinement fails at its opening. */
  ghost predicate Refusing(s: State) {
    && Undecided(s) && PastMapping(s.phase) && !PlanUsable(s.plan) && s.queue[Regenerate] == 0
    && forall r | s.runs[r] > 0 ::
         r.Extracting? || r.Extracted? || r == Captioning || r == MapStarted(s.phase) || r == RefineStarted(s.phase)
  }

  /** No retry is accepted, and the map-reduce task has nothing to do. */
  ghost predicate Unfindable(s: State) {
    && Undecided(s) && PastMapping(s.phase) && s.kind == Url && !s.located
    && (forall t | s.queue[t] > 0 :: t == Captions || t == MapReduce)
    && forall r | s.runs[r] > 0 :: r == Captioning || r == MapStarted(s.phase)
  }

  /** Nothing is accepted at all. */
  predicate Stranded(s: State) {
    && Undecided(s) && AtRest(s) && !(s.kind == File && !s.located)
    && (s.status == Pending || s.status == Failed || (s.status != AwaitingApproval && !s.located))
  }

  lemma RefusingRequest(cfg: Config, s: State, e: Event)
    requires Refusing(s) && e.IsRequest()
    ensures Refusing(Request(cfg, s, e))
  {
    hide Add, Remove, Regenerations, Refinements;
  }

  lemma RefusingPlan(cfg: Config, s: State, e: Event)
    requires Refusing(s) && e.IsPlanning()
    ensures Refusing(Plan(cfg, s, e))
  {
    hide Add, Remove, Regenerations, Refinements, Conclude;
  }

  lemma RefusingWrite(s: State, e: Event)
    requires Refusing(s) && e.IsRefining()
    ensures Refusing(Write(s, e))
  {
    hide Add, Remove, Regenerations, Refinements;
  }

  lemma RefusingLists(s: State, r: Run, t: Task)
    requires Refusing(s)
    ensures Refusing(s.End(r)) && Refusing(s.Dequeue(t)) && (t != Regenerate ==> Refusing(s.Enqueue(t)))
  {
    hide Add, Remove, Regenerations, Refinements;
  }

  lemma RefusingExtract(cfg: Config, s: State, k: Kind, found: bool)
    requires Refusing(s)
    ensures Refusing(Prepare(cfg, s, Extract(k, found)))
  {
    hide Add, Remove, Regenerations, Refinements;
  }

  lemma RefusingGate(cfg: Config, s: State, k: Kind, images: bool)
    requires Refusing(s)
    ensures Refusing(Prepare(cfg, s, GateExtraction(k, images)))
  {
    hide Refusing, State.End, State.Enqueue, State.Dequeue;
    var left := s.End(Extracted(k));
    RefusingLists(s, Extracted(k), Captions);
    RefusingMarks(left);
    RefusingLists(left.(status := Processing), Captioning, if images then Captions else MapReduce);
  }

  lemma RefusingCaptions(cfg: Config, s: State, e: Event)
    requires Refusing(s) && (e == SkipCaptions || e == CaptionsDone)
    ensures Refusing(Prepare(cfg, s, e))
  {
    hide Refusing, State.End, State.Enqueue, State.Dequeue;
    if e == CaptionsDone {
      RefusingLists(s, Captioning, Captions);
      RefusingLists(s.End(Captioning), Captioning, MapReduce);
    } else {
      var busy := s.(status := Processing);
      RefusingMarks(s);
      RefusingLists(busy, Captioning, Captions);
      RefusingLists(busy.Dequeue(Captions), Captioning, MapReduce);
    }
  }

  lemma RefusingMarks(s: State)
    requires Refusing(s)
    ensures Refusing(s.(status := Processing)) && Refusing(s.(status := AwaitingApproval))
  {}

  lemma RefusingOrigin(s: State, r: Run)
    requires Refusing(s) && s.Running(r)
    ensures r.Origin() != Regenerate
  {}

  lemma RefusingFields(s: State, r: Run)
    requires Refusing(s)
    ensures Refusing(s.(status := Error)) && Refusing(s.(status := Error).End(r))
  {
    RefusingLists(s.(status := Error), r, Captions);
    hide State.End;
  }

  lemma RefusingInterrupt(s: State, e: Event)
    requires Refusing(s) && e.IsInterruption()
    ensures Refusing(Interrupt(s, e))
  {
    hide Refusing, State.End, State.Dequeue, State.Enqueue, Run.Origin;
    if e.Lose? {
      RefusingLists(s, Captioning, e.task);
    } else if s.Running(e.run) {
      RefusingOrigin(s, e.run);
      RefusingLists(s, e.run, e.run.Origin());
      RefusingLists(s.End(e.run), e.run, e.run.Origin());
      RefusingFields(s, e.run);
    } else {
      RefusingLists(s, e.run, Captions);
    }
  }

  lemma RefusingStart(s: State, t: Task)
    requires Refusing(s)
    ensures Refusing(StartTask(s, t))
  {
    hide Add, Remove, Regenerations, Refinements;
  }

  lemma StepKeepsRefusing(cfg: Config, s: State, e: Event)
    requires Refusing(s)
    ensures Refusing(Step(cfg, s, e))
  {
    hide Request, Prepare, Plan, Write, Interrupt, StartTask;
    if e.IsRequest() {
      RefusingRequest(cfg, s, e);
    } else if e.Extract? {
      RefusingExtract(cfg, s, e.kind, e.found);
    } else if e.GateExtraction? {
      RefusingGate(cfg, s, e.kind, e.images);
    } else if e.IsPreparation() {
      RefusingCaptions(cfg, s, e);
    } else if e.IsPlanning() {
      RefusingPlan(cfg, s, e);
    } else if e.IsRefining() {
      RefusingWrite(s, e);
    } else if e.IsInterruption() {
      RefusingInterrupt(s, e);
    } else if e.Start? {
      RefusingStart(s, e.task);
    }
  }

  lemma UnfindableRequest(cfg: Config, s: State, e: Event)
    requires Unfindable(s) && e.IsRequest()
    ensures Unfindable(Request(cfg, s, e))
  {
    hide Add, Remove, Regenerations, Refinements;
  }

  lemma UnfindablePrepare(cfg: Config, s: State, e: Event)
    requires Unfindable(s) && e.IsPreparation()
    ensures Unfindable(Step(cfg, s, e))
  {
    hide Add, Remove, Regenerations, Refinements, Gate, Plan, Write, Request, Interrupt, StartTask;
  }

  lemma UnfindablePlan(cfg: Config, s: State, e: Event)
    requires Unfindable(s) && e.IsPlanning()
    ensures Unfindable(Step(cfg, s, e))
  {
    hide Add, Remove, Regenerations, Refinements, Conclude, Write, Prepare, Request, Interrupt, StartTask;
  }

  lemma UnfindableWrite(cfg: Config, s: State, e: Event)
    requires Unfindable(s) && e.IsRefining()
    ensures Step(cfg, s, e) == s
  {
    hide Add, Remove, Regenerations, Refinements, Open, Plan, Prepare, Request, Interrupt, StartTask, State.End, State.Advance;
  }

  lemma UnfindableLists(s: State, r: Run, t: Task)
    requires Unfindable(s)
    ensures Unfindable(s.End(r)) && Unfindable(s.Dequeue(t)) && (t == Captions || t == MapReduce ==> Unfindable(s.Enqueue(t)))
  {
    hide Add, Remove, Regenerations, Refinements;
  }

  lemma UnfindableOrigin(s: State, r: Run)
    requires Unfindable(s) && s.Running(r)
    ensures r.Origin() == Captions || r.Origin() == MapReduce
  {}

  lemma UnfindableFields(s: State, r: Run)
    requires Unfindable(s)
    ensures Unfindable(s.(status := Error)) && Unfindable(s.(status := Error).End(r))
  {
    UnfindableLists(s.(status := Error), r, Captions);
    hide State.End;
  }

  lemma UnfindableInterrupt(s: State, e: Event)
    requires Unfindable(s) && e.IsInterruption()
    ensures Unfindable(Interrupt(s, e))
  {
    hide Unfindable, State.End, State.Dequeue, State.Enqueue, Run.Origin;
    if e.Lose? {
      UnfindableLists(s, Captioning, e.task);
    } else if s.Running(e.run) {
      UnfindableOrigin(s, e.run);
      UnfindableLists(s, e.run, e.run.Origin());
      UnfindableLists(s.End(e.run), e.run, e.run.Origin());
      UnfindableFields(s, e.run);
    } else {
      UnfindableLists(s, e.run, Captions);
    }
  }

  lemma UnfindableStart(s: State, t: Task)
    requires Unfindable(s)
    ensures Unfindable(StartTask(s, t))
  {
    hide Add, Remove, Regenerations, Refinements;
  }

  lemma UnfindableRest(cfg: Config, s: State, e: Event)
    requires Unfindable(s) && (e.Start? || e == Sweep)
    ensures Unfindable(Step(cfg, s, e))
  {
    hide StartTask, Request, Prepare, Plan, Write, Interrupt;
    if e.Start? { UnfindableStart(s, e.task); }
  }

  lemma StrandedRequest(cfg: Config, s: State, e: Event)
    requires Stranded(s) && (e.IsRequest() || e == Sweep)
    ensures Stranded(Step(cfg, s, e))
  {
    hide Add, Remove, Regenerations, Refinements, Prepare, Plan, Write, Interrupt, StartTask, RetryTask;
  }

  /** With nothing queued and nothing running no worker takes a step. */
  lemma NobodyWorks(cfg: Config, s: State, e: Event)
    requires AtRest(s) && !e.IsRequest() && e != Sweep
    ensures Step(cfg, s, e) == s
  {
    hide Regenerations, Refinements, Conclude, Open, Gate, RouteRun, Request, State.Enqueue, State.Begin, State.Advance, Run.Origin;
    assert forall r :: s.runs[r] == 0;
    assert forall t :: s.queue[t] == 0;
  }

  lemma StrandedStays(cfg: Config, s: State, e: Event)
    requires Stranded(s)
    ensures Stranded(Step(cfg, s, e))
  {
    hide Step;
    if e.IsRequest() || e == Sweep { StrandedRequest(cfg, s, e); } else { NobodyWorks(cfg, s, e); }
  }

  ghost predicate BeyondHelp(s: State) { Refusing(s) || Unfindable(s) || Stranded(s) }

  lemma InterruptStep(cfg: Config, s: State, e: Event)
    requires e.IsInterruption()
    ensures Step(cfg, s, e) == Interrupt(s, e)
  {
    hide Interrupt;
  }

  lemma StepKeepsBeyondHelp(cfg: Config, s: State, e: Event)
    requires BeyondHelp(s)
    ensures BeyondHelp(Step(cfg, s, e))
  {
    hide Refusing, Unfindable, Stranded, Step, Interrupt;
    if Refusing(s) {
      StepKeepsRefusing(cfg, s, e);
    } else if Stranded(s) {
      StrandedStays(cfg, s, e);
    } else if e.IsRequest() {
      UnfindableRequest(cfg, s, e);
      assert Step(cfg, s, e) == Request(cfg, s, e) by { RequestStep(cfg, s, e); }
    } else if e.IsInterruption() {
      InterruptStep(cfg, s, e);
      UnfindableInterrupt(s, e);
    } else if e.Start? || e == Sweep {
      UnfindableRest(cfg, s, e);
    } else if e.IsPreparation() {
      UnfindablePrepare(cfg, s, e);
    } else if e.IsPlanning() {
      UnfindablePlan(cfg, s, e);
    } else {
      UnfindableWrite(cfg, s, e);
    }
  }

  lemma RequestStep(cfg: Config, s: State, e: Event)
    requires e.IsRequest()
    ensures Step(cfg, s, e) == Request(cfg, s, e)
  {
    hide Request;
  }

  lemma {:induction false} BeyondHelpStays(cfg: Config, s: State, trace: seq<Event>)
    requires BeyondHelp(s)
    ensures BeyondHelp(Execute(cfg, s, trace)) && Execute(cfg, s, trace).status != Ready
  {
    hide Step, PlanUsable;
    if trace != [] {
      var init, e := trace[..|trace| - 1], trace[|trace| - 1];
      BeyondHelpStays(cfg, s, init);
      StepKeepsBeyondHelp(cfg, Execute(cfg, s, init), e);
    }
  }

  /**
   A source at rest can be finished exactly if it is not lost; and a lost one never becomes ready, whoever does what.
   */
  lemma FinishesIff(cfg: Config, images: bool, s: State, approved: bool)
    requires Gated(cfg, s, approved) && AtRest(s)
    ensures Finishes(cfg, images, s) <==> !Lost(s)
    ensures Lost(s) ==> forall trace :: Execute(cfg, s, trace).status != Ready
  {
    if Lost(s) {
      assert BeyondHelp(s);
      forall trace ensures Execute(cfg, s, trace).status != Ready { BeyondHelpStays(cfg, s, trace); }
    } else {
      KeptIsFinished(cfg, images, s, approved);
    }
  }

  /** So it is for every source that some run from its creation has brought to rest. */
  lemma ReachableFinishesIff(cfg: Config, images: bool, s: State, trace: seq<Event>)
    requires Initial(s) && AtRest(Execute(cfg, s, trace))
    ensures Finishes(cfg, images, Execute(cfg, s, trace)) <==> !Lost(Execute(cfg, s, trace))
  {
    hide Execute, Finishes, Lost, AtRest;
    ExecuteKeepsGate(cfg, s, trace);
    FinishesIff(cfg, images, Execute(cfg, s, trace), WasApproved(cfg, s, trace));
  }

  /** A new source whose queue entry is lost is pending for good: no endpoint takes it up and no sweep finds it. */
  lemma LostEntry(cfg: Config, s: State)
    requires Initial(s) && s.kind == Url
    ensures var after := Step(cfg, s, Lose(IngestUrl));
            after.status == Pending && forall trace :: Execute(cfg, after, trace).status != Ready
  {
    var after := Step(cfg, s, Lose(IngestUrl));
    assert after == s.(queue := Remove(s.queue, IngestUrl)) && AtRest(after);
    hide Step, Execute;
    forall trace ensures Execute(cfg, after, trace).status != Ready { BeyondHelpStays(cfg, after, trace); }
  }

  /** A first map-reduce run whose probe fails, and whose failure nobody records, leaves the source failed for good. */
  lemma LostByProbe(cfg: Config, s: State, unrecorded: Event)
    requires s.queue == multiset{} && s.runs == multiset{Probing} && s.located && s.plan == None
    requires unrecorded == Fail(Probing, false) || unrecorded == Crash(Probing)
    ensures var after := Step(cfg, Step(cfg, s, ProbeFails), unrecorded);
            after.status == Failed && forall trace :: Execute(cfg, after, trace).status != Ready
  {
    var after := Step(cfg, Step(cfg, s, ProbeFails), unrecorded);
    assert after == s.(status := Failed, runs := Remove(s.runs, Probing)) && AtRest(after);
    hide Step, Execute;
    forall trace ensures Execute(cfg, after, trace).status != Ready { BeyondHelpStays(cfg, after, trace); }
  }
}
