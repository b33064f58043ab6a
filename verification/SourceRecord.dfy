/**
 The source row, its plan row and its tasks as the endpoints, workers and sweep update them in
 place. Every method is one transaction, takes the step of the state machine, and keeps what is
 proved of every reachable state.
 */
module SourceRecord {
  import opened Options
  import opened Lifecycle

  /**
   A state some run from `origin` reaches, with what is proved of every such state: whatever is queued or
   running finds its input and is cleared, the sweep count is within its budget, and it is reset when done
   unless some worker has skipped that.
   */
  ghost predicate Good(cfg: Config, origin: State, trace: seq<Event>, s: State) {
    && Initial(origin) && s == Execute(cfg, origin, trace)
    && Gated(cfg, s, WasApproved(cfg, origin, trace))
    && WithinBudget(cfg, s, Revivals(cfg, origin, trace)) && (NoSkips(cfg, origin, trace) ==> Reset(s))
  }

  lemma Fresh(cfg: Config, origin: State)
    requires Initial(origin)
    ensures Good(cfg, origin, [], origin)
  {
    ExecuteKeepsGate(cfg, origin, []);
    RetryBudget(cfg, origin, []);
    ResetIff(cfg, origin, []);
  }

  lemma Advance(cfg: Config, origin: State, trace: seq<Event>, s: State, e: Event)
    requires Good(cfg, origin, trace, s)
    ensures Good(cfg, origin, trace + [e], Step(cfg, s, e))
  {
    Next(cfg, origin, trace, e);
    ExecuteKeepsGate(cfg, origin, trace + [e]);
    RetryBudget(cfg, origin, trace + [e]);
    ResetIff(cfg, origin, trace + [e]);
    hide Step, Execute, Gated, WithinBudget, Reset, Initial, NoSkips, Revivals;
  }

  // Which branch of the state machine a step takes.

  lemma StartStep(cfg: Config, s: State, t: Task)
    ensures Step(cfg, s, Start(t)) == StartTask(s, t)
  {
    hide Request, Prepare, Plan, Write, Interrupt, StartTask;
  }

  lemma GateStep(cfg: Config, s: State, k: Kind, images: bool)
    ensures Step(cfg, s, GateExtraction(k, images)) ==
              if !s.Running(Extracted(k)) then s
              else if cfg.Large() then s.(status := AwaitingApproval, runs := Remove(s.runs, Extracted(k)))
              else s.(status := Processing, runs := Remove(s.runs, Extracted(k)), queue := Add(s.queue, if images then Captions else MapReduce))
  {
    hide Request, Plan, Write, Interrupt, StartTask, Add, Remove, Regenerations, Refinements;
  }

  lemma CaptionStep(cfg: Config, s: State, vision: bool)
    ensures Step(cfg, s, if vision then Start(Captions) else SkipCaptions) ==
              if !s.Queued(Captions) then s
              else if vision then s.(queue := Remove(s.queue, Captions), runs := Add(s.runs, Captioning))
              else s.(status := Processing, queue := Add(Remove(s.queue, Captions), MapReduce))
  {
    hide Request, Plan, Write, Interrupt, Add, Remove, Regenerations, Refinements;
  }

  lemma CommitStep(cfg: Config, s: State, zero: bool)
    ensures Step(cfg, s, CommitDone(zero)) ==
              if !s.Running(Verifying) then s
              else s.(plan := Some(Done), phase := Commit, status := Ready, recoveries := if zero then s.recoveries else 0,
                      runs := Remove(s.runs, Verifying))
  {
    hide Request, Prepare, Plan, Interrupt, StartTask, Add, Remove, Regenerations, Refinements;
  }

  lemma RegenerateStep(cfg: Config, s: State, planned: bool, copy: PlanStatus)
    ensures var rewrites := if planned then copy != PendingReview else copy == Regenerating;
            Step(cfg, s, if planned then RegenerateDone(copy) else RegenerateFails(copy)) ==
              if !s.Running(Replanning) then s
              else s.(plan := if rewrites then Some(PendingReview) else s.plan, runs := Remove(s.runs, Replanning))
  {
    hide Request, Prepare, Plan, Interrupt, StartTask, Add, Remove, Regenerations, Refinements;
  }

  lemma ApproveStep(cfg: Config, s: State, saved: bool, zero: bool)
    requires s.Running(Planned(true))
    ensures Step(cfg, s, FinishPlan(true, saved, zero)) == AutoTrigger(s.End(Planned(true)), saved)
  {
    hide Request, Prepare, Write, Interrupt, StartTask, AutoTrigger;
  }

  lemma OpenStep(cfg: Config, s: State, seen: Phase, drafts: bool)
    requires s.Running(RefineStarted(seen))
    ensures Step(cfg, s, OpenRefine(seen, drafts)) == Open(s, seen, drafts)
  {
    hide Request, Prepare, Plan, Interrupt, StartTask, Open;
  }

  lemma OpenFields(s: State, seen: Phase, drafts: bool)
    ensures var early := seen != Verify && seen != Commit;
            Open(s, seen, drafts) ==
              if !PlanUsable(s.plan) then s.(status := Error, runs := Remove(s.runs, RefineStarted(seen)))
              else if early then
                s.(phase := Refine, plan := Some(InProgress), runs := Add(Remove(s.runs, RefineStarted(seen)), Writing))
              else if drafts then s.(phase := Verify, runs := Add(Remove(s.runs, RefineStarted(seen)), Verifying))
              else s.(phase := Refine, runs := Add(Remove(s.runs, RefineStarted(seen)), Writing))
  {
    hide Add, Remove, Regenerations, Refinements;
  }

  class Source {
    const cfg: Config
    const kind: Kind
    var located: bool
    var fullText: bool
    var status: Status
    var phase: Phase
    var recoveries: nat
    var plan: Option<PlanStatus>
    var queue: multiset<Task>
    var runs: multiset<Run>
    ghost const origin: State
    ghost var trace: seq<Event> // every step so far

    ghost predicate Valid()
      reads this
    {
      Good(cfg, origin, trace, View())
    }

    function View(): State
      reads this
    {
      State(kind, located, fullText, status, phase, recoveries, plan, queue, runs)
    }

    constructor (cfg: Config, kind: Kind, hasAddress: bool)
      ensures Valid() && trace == [] && this.cfg == cfg
      ensures Initial(View()) && this.kind == kind && located == (kind == Url && hasAddress)
    {
      this.cfg := cfg;
      this.kind := kind;
      located := kind == Url && hasAddress;
      fullText := false;
      status := Pending;
      phase := NoPhase;
      recoveries := 0;
      plan := None;
      queue := if kind == Url then multiset{IngestUrl} else multiset{};
      runs := multiset{};
      trace := [];
      origin := State(kind, kind == Url && hasAddress, false, Pending, NoPhase, 0, None,
                      if kind == Url then multiset{IngestUrl} else multiset{}, multiset{});
      new;
      Fresh(cfg, origin);
    }

    // ----- endpoints -----

    method UploadFile()
      requires Valid()
      modifies this
      ensures Valid() && trace == old(trace) + [Store]
      ensures View() == Step(cfg, old(View()), Store)
    {
      hide Good, StartTask, Prepare, Plan, Write, Interrupt, Regenerations, Refinements, Add, Remove;
      Advance(cfg, origin, trace, View(), Store);
      trace := trace + [Store];
      if kind == File && !located {
        located := true;
        queue := Add(queue, IngestFile);
      }
    }

    method EditDepartments(changed: bool) returns (accepted: bool)
      requires Valid()
      modifies this`status, this`queue, this`trace
      ensures Valid() && trace == old(trace) + [Event.EditDepartments(changed)]
      ensures View() == Step(cfg, old(View()), Event.EditDepartments(changed))
      ensures accepted <==> !(old(View()).Active() || old(status) == PlanReady)
    {
      hide Good, StartTask, Prepare, Plan, Write, Interrupt, Regenerations, Refinements, Add, Remove;
      Advance(cfg, origin, trace, View(), Event.EditDepartments(changed));
      trace := trace + [Event.EditDepartments(changed)];
      if status == Pending || status == Processing || status == AwaitingApproval || status == PlanReady { return false; }
      if changed && status == Ready {
        status := Processing;
        queue := Add(queue, MapReduce);
      }
      return true;
    }

    method Retry(admin: bool) returns (accepted: bool)
      requires Valid()
      modifies this`status, this`queue, this`trace
      ensures Valid() && trace == old(trace) + [Event.Retry(admin)]
      ensures View() == Step(cfg, old(View()), Event.Retry(admin))
      ensures accepted <==> MayRetry(cfg, old(View()), admin)
    {
      hide Good, StartTask, Prepare, Plan, Write, Interrupt, Regenerations, Refinements, Add, Remove;
      Advance(cfg, origin, trace, View(), Event.Retry(admin));
      trace := trace + [Event.Retry(admin)];
      if status != Error && status != PlanReady { return false; }
      if recoveries >= cfg.cap && !admin { return false; }
      if !located { return false; }
      var originalStatus := status;
      status := Pending;
      var task: Task;
      if phase == Refine || phase == Verify || phase == Commit {
        task := RefinePages;
      } else if phase == Map || phase == Reduce || phase == PlanReview || originalStatus == PlanReady {
        task := MapReduce;
      } else {
        task := if kind == Url then IngestUrl else IngestFile;
      }
      queue := Add(queue, task);
      return true;
    }

    method ApproveExtraction(images: bool) returns (accepted: bool)
      requires Valid()
      modifies this`status, this`queue, this`trace
      ensures Valid() && trace == old(trace) + [Event.ApproveExtraction(images)]
      ensures View() == Step(cfg, old(View()), Event.ApproveExtraction(images))
      ensures accepted <==> ApprovesExtraction(old(View()), Event.ApproveExtraction(images))
    {
      hide Good, StartTask, Prepare, Plan, Write, Interrupt, Regenerations, Refinements, Add, Remove;
      Advance(cfg, origin, trace, View(), Event.ApproveExtraction(images));
      trace := trace + [Event.ApproveExtraction(images)];
      if status != AwaitingApproval { return false; }
      queue := Add(queue, if images then Captions else MapReduce);
      status := Processing;
      return true;
    }

    method ApprovePlan() returns (accepted: bool)
      requires Valid()
      modifies this`plan, this`status, this`queue, this`trace
      ensures Valid() && trace == old(trace) + [Event.ApprovePlan]
      ensures View() == Step(cfg, old(View()), Event.ApprovePlan)
      ensures accepted <==> old(plan) == Some(PendingReview)
    {
      hide Good, StartTask, Prepare, Plan, Write, Interrupt, Regenerations, Refinements, Add, Remove;
      Advance(cfg, origin, trace, View(), Event.ApprovePlan);
      trace := trace + [Event.ApprovePlan];
      if plan != Some(PendingReview) { return false; }
      plan := Some(Approved);
      status := Processing;
      queue := Add(queue, RefinePages);
      return true;
    }

    method RejectPlan() returns (accepted: bool)
      requires Valid()
      modifies this`plan, this`status, this`trace
      ensures Valid() && trace == old(trace) + [Event.RejectPlan]
      ensures View() == Step(cfg, old(View()), Event.RejectPlan)
      ensures accepted <==> old(plan) == Some(PendingReview)
    {
      hide Good, StartTask, Prepare, Plan, Write, Interrupt, Regenerations, Refinements, Add, Remove;
      Advance(cfg, origin, trace, View(), Event.RejectPlan);
      trace := trace + [Event.RejectPlan];
      if plan != Some(PendingReview) { return false; }
      plan := Some(Rejected);
      status := Error;
      return true;
    }

    method RegeneratePlan(queued: bool) returns (accepted: bool)
      requires Valid()
      modifies this`plan, this`queue, this`trace
      ensures Valid() && trace == old(trace) + [Event.RegeneratePlan(queued)]
      ensures View() == Step(cfg, old(View()), Event.RegeneratePlan(queued))
      ensures accepted <==> old(plan) == Some(PendingReview) || old(plan) == Some(Rejected)
    {
      hide Good, StartTask, Prepare, Plan, Write, Interrupt, Regenerations, Refinements, Add, Remove;
      Advance(cfg, origin, trace, View(), Event.RegeneratePlan(queued));
      trace := trace + [Event.RegeneratePlan(queued)];
      if plan != Some(PendingReview) && plan != Some(Rejected) { return false; }
      plan := Some(Regenerating);
      if queued { queue := Add(queue, Regenerate); }
      return true;
    }

    // ----- workers -----

    method StartIngest(k: Kind)
      requires Valid()
      modifies this`status, this`queue, this`runs, this`trace
      ensures Valid() && trace == old(trace) + [Start(IngestTask(k))]
      ensures View() == Step(cfg, old(View()), Start(IngestTask(k)))
    {
      hide Good, Step, State.Enqueue, State.Advance, State.End, Regenerations, Refinements, Add, Remove;
      var task := IngestTask(k);
      Advance(cfg, origin, trace, View(), Start(task));
      StartStep(cfg, View(), task);
      trace := trace + [Start(task)];
      if queue[task] == 0 { return; }
      queue := Remove(queue, task);
      if k == File && !located { return; }
      status := Processing;
      runs := Add(runs, Extracting(k));
    }

    method SaveText(k: Kind, found: bool)
      requires Valid()
      modifies this`fullText, this`status, this`runs, this`trace
      ensures Valid() && trace == old(trace) + [Extract(k, found)]
      ensures View() == Step(cfg, old(View()), Extract(k, found))
    {
      hide Good, Request, StartTask, Plan, Write, Interrupt, Regenerations, Refinements, Add, Remove;
      Advance(cfg, origin, trace, View(), Extract(k, found));
      trace := trace + [Extract(k, found)];
      if runs[Extracting(k)] == 0 { return; }
      runs := Remove(runs, Extracting(k));
      if !found {
        status := Error;
        return;
      }
      fullText := true;
      runs := Add(runs, Extracted(k));
    }

    method PassGate(k: Kind, images: bool)
      requires Valid()
      modifies this`status, this`queue, this`runs, this`trace
      ensures Valid() && trace == old(trace) + [GateExtraction(k, images)]
      ensures View() == Step(cfg, old(View()), GateExtraction(k, images))
    {
      hide Good, Step, Add, Remove, Regenerations, Refinements;
      Advance(cfg, origin, trace, View(), GateExtraction(k, images));
      GateStep(cfg, View(), k, images);
      trace := trace + [GateExtraction(k, images)];
      if runs[Extracted(k)] == 0 { return; }
      runs := Remove(runs, Extracted(k));
      if cfg.tokens > cfg.threshold {
        status := AwaitingApproval;
        return;
      }
      queue := Add(queue, if images then Captions else MapReduce);
      status := Processing;
    }

    method StartCaptions(vision: bool)
      requires Valid()
      modifies this`status, this`queue, this`runs, this`trace
      ensures Valid() && trace == old(trace) + [if vision then Start(Captions) else SkipCaptions]
      ensures View() == Step(cfg, old(View()), if vision then Start(Captions) else SkipCaptions)
    {
      hide Good, Step, Add, Remove, Regenerations, Refinements;
      Advance(cfg, origin, trace, View(), if vision then Start(Captions) else SkipCaptions);
      CaptionStep(cfg, View(), vision);
      trace := trace + [if vision then Start(Captions) else SkipCaptions];
      if queue[Captions] == 0 { return; }
      queue := Remove(queue, Captions);
      if vision {
        runs := Add(runs, Captioning);
      } else {
        queue := Add(queue, MapReduce);
        status := Processing;
      }
    }

    method FinishCaptions()
      requires Valid()
      modifies this`queue, this`runs, this`trace
      ensures Valid() && trace == old(trace) + [CaptionsDone]
      ensures View() == Step(cfg, old(View()), CaptionsDone)
    {
      hide Good, Request, StartTask, Plan, Write, Interrupt, Regenerations, Refinements, Add, Remove;
      Advance(cfg, origin, trace, View(), CaptionsDone);
      trace := trace + [CaptionsDone];
      if runs[Captioning] == 0 { return; }
      runs := Remove(runs, Captioning);
      queue := Add(queue, MapReduce);
    }

    method StartMapReduce()
      requires Valid()
      modifies this`status, this`queue, this`runs, this`trace
      ensures Valid() && trace == old(trace) + [Start(MapReduce)]
      ensures View() == Step(cfg, old(View()), Start(MapReduce))
    {
      hide Good, Request, Prepare, Plan, Write, Interrupt, Regenerations, Refinements, Add, Remove;
      Advance(cfg, origin, trace, View(), Start(MapReduce));
      trace := trace + [Start(MapReduce)];
      if queue[MapReduce] == 0 { return; }
      queue := Remove(queue, MapReduce);
      if !fullText { return; }
      status := Processing;
      runs := Add(runs, MapStarted(phase));
    }

    method RouteMapReduce(seen: Phase)
      requires Valid()
      modifies this`runs, this`trace
      ensures Valid() && trace == old(trace) + [Route(seen)]
      ensures View() == Step(cfg, old(View()), Route(seen))
    {
      hide Good, Request, StartTask, Prepare, Write, Interrupt, Regenerations, Refinements, Add, Remove;
      Advance(cfg, origin, trace, View(), Route(seen));
      trace := trace + [Route(seen)];
      if runs[MapStarted(seen)] == 0 { return; }
      runs := Remove(runs, MapStarted(seen));
      if seen == PlanReview && (plan == Some(PendingReview) || plan == Some(Approved)) {
        runs := Add(runs, Planned(cfg.autoApprove || plan == Some(Approved)));
        return;
      }
      if seen == Refine || seen == Verify || seen == Commit { return; }
      runs := Add(runs, Probing);
    }

    method StartMap(alive: bool)
      requires Valid()
      modifies this`phase, this`status, this`runs, this`trace
      ensures Valid() && trace == old(trace) + [if alive then BeginMap else ProbeFails]
      ensures View() == Step(cfg, old(View()), if alive then BeginMap else ProbeFails)
    {
      hide Good, Request, StartTask, Prepare, Write, Interrupt, Regenerations, Refinements, Add, Remove;
      Advance(cfg, origin, trace, View(), if alive then BeginMap else ProbeFails);
      trace := trace + [if alive then BeginMap else ProbeFails];
      if runs[Probing] == 0 { return; }
      if !alive {
        status := Failed;
        return;
      }
      phase := Map;
      runs := Add(Remove(runs, Probing), Mapping);
    }

    method FinishMap()
      requires Valid()
      modifies this`phase, this`runs, this`trace
      ensures Valid() && trace == old(trace) + [MapDone]
      ensures View() == Step(cfg, old(View()), MapDone)
    {
      hide Good, Request, StartTask, Prepare, Write, Interrupt, Regenerations, Refinements, Add, Remove;
      Advance(cfg, origin, trace, View(), MapDone);
      trace := trace + [MapDone];
      if runs[Mapping] == 0 { return; }
      phase := Reduce;
      runs := Add(Remove(runs, Mapping), Reducing);
    }

    method SavePlan()
      requires Valid()
      modifies this`plan, this`phase, this`runs, this`trace
      ensures Valid() && trace == old(trace) + [ReduceDone]
      ensures View() == Step(cfg, old(View()), ReduceDone)
    {
      hide Good, Request, StartTask, Prepare, Write, Interrupt, Regenerations, Refinements, Add, Remove;
      Advance(cfg, origin, trace, View(), ReduceDone);
      trace := trace + [ReduceDone];
      if runs[Reducing] == 0 { return; }
      plan := Some(PendingReview);
      phase := PlanReview;
      runs := Add(Remove(runs, Reducing), Planned(cfg.autoApprove));
    }

    /** Called last by a map-reduce run that is to approve its plan. */
    method AutoTriggerRefine(saved: bool, ghost zero: bool)
      requires Valid() && View().Running(Planned(true))
      modifies this`plan, this`status, this`queue, this`runs, this`trace
      ensures Valid() && trace == old(trace) + [FinishPlan(true, saved, zero)]
      ensures View() == Step(cfg, old(View()), FinishPlan(true, saved, zero))
    {
      hide Good, Step, State.Dequeue, State.Begin, State.Advance, Regenerations, Refinements, Add, Remove;
      Advance(cfg, origin, trace, View(), FinishPlan(true, saved, zero));
      ApproveStep(cfg, View(), saved, zero);
      trace := trace + [FinishPlan(true, saved, zero)];
      runs := Remove(runs, Planned(true));
      if saved {
        if plan == Some(PendingReview) { plan := Some(Approved); }
        status := Processing;
      }
      queue := Add(queue, RefinePages);
    }

    method FinishPlanning(approve: bool, saved: bool, zero: bool)
      requires Valid()
      modifies this`plan, this`status, this`recoveries, this`queue, this`runs, this`trace
      ensures Valid() && trace == old(trace) + [FinishPlan(approve, saved, zero)]
      ensures View() == Step(cfg, old(View()), FinishPlan(approve, saved, zero))
    {
      hide Good, Request, StartTask, Prepare, Write, Interrupt, AutoTrigger, Regenerations, Refinements, Add, Remove;
      if approve && runs[Planned(true)] > 0 {
        AutoTriggerRefine(saved, zero);
        return;
      }
      Advance(cfg, origin, trace, View(), FinishPlan(approve, saved, zero));
      trace := trace + [FinishPlan(approve, saved, zero)];
      if runs[Planned(approve)] == 0 { return; }
      runs := Remove(runs, Planned(approve));
      status := PlanReady;
      if !zero { recoveries := 0; }
    }

    method StartRefine()
      requires Valid()
      modifies this`status, this`queue, this`runs, this`trace
      ensures Valid() && trace == old(trace) + [Start(RefinePages)]
      ensures View() == Step(cfg, old(View()), Start(RefinePages))
    {
      hide Good, Request, Prepare, Plan, Write, Interrupt, Regenerations, Refinements, Add, Remove;
      Advance(cfg, origin, trace, View(), Start(RefinePages));
      trace := trace + [Start(RefinePages)];
      if queue[RefinePages] == 0 { return; }
      queue := Remove(queue, RefinePages);
      if !fullText { return; }
      status := Processing;
      runs := Add(runs, RefineStarted(phase));
    }

    method RunRefinePipeline(seen: Phase, drafts: bool)
      requires Valid() && View().Running(RefineStarted(seen))
      modifies this`plan, this`phase, this`status, this`runs, this`trace
      ensures Valid() && trace == old(trace) + [OpenRefine(seen, drafts)]
      ensures View() == Step(cfg, old(View()), OpenRefine(seen, drafts))
    {
      hide Good, Step, Open, Regenerations, Refinements, Add, Remove;
      Advance(cfg, origin, trace, View(), OpenRefine(seen, drafts));
      OpenStep(cfg, View(), seen, drafts);
      OpenFields(View(), seen, drafts);
      trace := trace + [OpenRefine(seen, drafts)];
      var rest := Remove(runs, RefineStarted(seen));
      if plan != Some(Approved) && plan != Some(InProgress) && plan != Some(Done) {
        status, runs := Error, rest;
      } else if seen != Verify && seen != Commit {
        phase, plan, runs := Refine, Some(InProgress), Add(rest, Writing);
      } else if drafts {
        phase, runs := Verify, Add(rest, Verifying);
      } else {
        phase, runs := Refine, Add(rest, Writing);
      }
    }

    method OpenPlan(seen: Phase, drafts: bool)
      requires Valid()
      modifies this`plan, this`phase, this`status, this`runs, this`trace
      ensures Valid() && trace == old(trace) + [OpenRefine(seen, drafts)]
      ensures View() == Step(cfg, old(View()), OpenRefine(seen, drafts))
    {
      hide Good, Request, StartTask, Prepare, Plan, Interrupt, Open, Regenerations, Refinements, Add, Remove;
      if runs[RefineStarted(seen)] > 0 {
        RunRefinePipeline(seen, drafts);
        return;
      }
      Advance(cfg, origin, trace, View(), OpenRefine(seen, drafts));
      trace := trace + [OpenRefine(seen, drafts)];
    }

    method FinishWriting()
      requires Valid()
      modifies this`phase, this`runs, this`trace
      ensures Valid() && trace == old(trace) + [WriteDone]
      ensures View() == Step(cfg, old(View()), WriteDone)
    {
      hide Good, Request, StartTask, Prepare, Plan, Interrupt, Regenerations, Refinements, Add, Remove;
      Advance(cfg, origin, trace, View(), WriteDone);
      trace := trace + [WriteDone];
      if runs[Writing] == 0 { return; }
      phase := Verify;
      runs := Add(Remove(runs, Writing), Verifying);
    }

    method CommitPages(zero: bool)
      requires Valid()
      modifies this`plan, this`phase, this`status, this`recoveries, this`runs, this`trace
      ensures Valid() && trace == old(trace) + [CommitDone(zero)]
      ensures View() == Step(cfg, old(View()), CommitDone(zero))
    {
      hide Good, Step, Add, Remove, Regenerations, Refinements;
      Advance(cfg, origin, trace, View(), CommitDone(zero));
      CommitStep(cfg, View(), zero);
      trace := trace + [CommitDone(zero)];
      if runs[Verifying] == 0 { return; }
      plan := Some(Done);
      phase := Commit;
      status := Ready;
      if !zero { recoveries := 0; }
      runs := Remove(runs, Verifying);
    }

    method StartRegenerate()
      requires Valid()
      modifies this`queue, this`runs, this`trace
      ensures Valid() && trace == old(trace) + [Start(Regenerate)]
      ensures View() == Step(cfg, old(View()), Start(Regenerate))
    {
      hide Good, Request, Prepare, Plan, Write, Interrupt, Regenerations, Refinements, Add, Remove;
      Advance(cfg, origin, trace, View(), Start(Regenerate));
      trace := trace + [Start(Regenerate)];
      if queue[Regenerate] == 0 { return; }
      queue := Remove(queue, Regenerate);
      if plan == None { return; }
      runs := Add(runs, Replanning);
    }

    /** `copy` is what the plan read when the task loaded it. */
    method FinishRegenerate(planned: bool, copy: PlanStatus)
      requires Valid()
      modifies this`plan, this`runs, this`trace
      ensures Valid() && trace == old(trace) + [if planned then RegenerateDone(copy) else RegenerateFails(copy)]
      ensures View() == Step(cfg, old(View()), if planned then RegenerateDone(copy) else RegenerateFails(copy))
    {
      hide Good, Step, Add, Remove, Regenerations, Refinements;
      Advance(cfg, origin, trace, View(), if planned then RegenerateDone(copy) else RegenerateFails(copy));
      RegenerateStep(cfg, View(), planned, copy);
      trace := trace + [if planned then RegenerateDone(copy) else RegenerateFails(copy)];
      if runs[Replanning] == 0 { return; }
      if if planned then copy != PendingReview else copy == Regenerating { plan := Some(PendingReview); }
      runs := Remove(runs, Replanning);
    }

    method FailRun(r: Run, marked: bool)
      requires Valid()
      modifies this`status, this`runs, this`trace
      ensures Valid() && trace == old(trace) + [Fail(r, marked)]
      ensures View() == Step(cfg, old(View()), Fail(r, marked))
    {
      hide Good, Request, StartTask, Prepare, Plan, Write, Regenerations, Refinements, Add, Remove;
      Advance(cfg, origin, trace, View(), Fail(r, marked));
      trace := trace + [Fail(r, marked)];
      if runs[r] == 0 || r == Replanning { return; }
      runs := Remove(runs, r);
      if marked && r != Captioning { status := Error; }
    }

    // ----- cron -----

    method SweepStuck()
      requires Valid()
      modifies this`recoveries, this`status, this`trace
      ensures Valid() && trace == old(trace) + [Sweep]
      ensures View() == Step(cfg, old(View()), Sweep)
    {
      hide Good, Request, StartTask, Prepare, Plan, Write, Interrupt, Regenerations, Refinements, Add, Remove;
      Advance(cfg, origin, trace, View(), Sweep);
      trace := trace + [Sweep];
      if status != Processing { return; }
      recoveries := recoveries + 1;
      status := Error;
    }
  }
}
