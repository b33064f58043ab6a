/**
 The life of one source: ingestion, compilation plan, refinement and the stuck-source sweep.

 One step per transaction. Admins and editors call the endpoints, workers take tasks off a queue
 and advance the runs they hold, runs fail, die, are delivered again or twice, and the sweep flips
 sources that made no progress. All of these interleave freely.
 */
module Lifecycle {
  import opened Options

  datatype Kind = File | Url

  datatype Status = Pending | Processing | AwaitingApproval | PlanReady | Ready | Error | Failed

  datatype Phase = NoPhase | Map | Reduce | PlanReview | Refine | Verify | Commit

  datatype PlanStatus = PendingReview | Regenerating | Approved | Rejected | InProgress | Done

  datatype Task = IngestFile | IngestUrl | Captions | MapReduce | RefinePages | Regenerate

  function IngestTask(k: Kind): Task { if k == File then IngestFile else IngestUrl }

  /** A task some worker is executing, and how far it has got. `seen` is the phase read when the task started. */
  datatype Run =
    | Extracting(kind: Kind)
    | Extracted(kind: Kind)
    | Captioning
    | MapStarted(seen: Phase)
    | Probing
    | Mapping
    | Reducing
    | Planned(approve: bool)
    | RefineStarted(seen: Phase)
    | Writing
    | Verifying
    | Replanning
  {
    function Origin(): Task {
      match this
      case Extracting(k) => IngestTask(k)
      case Extracted(k) => IngestTask(k)
      case Captioning => Captions
      case MapStarted(_) => MapReduce
      case Probing => MapReduce
      case Mapping => MapReduce
      case Reducing => MapReduce
      case Planned(_) => MapReduce
      case RefineStarted(_) => RefinePages
      case Writing => RefinePages
      case Verifying => RefinePages
      case Replanning => Regenerate
    }
  }

  /** Settings, and the token count extraction yields for this source. */
  datatype Config = Config(tokens: nat, threshold: nat, cap: nat, autoApprove: bool) {
    predicate Large() { tokens > threshold }
  }

  function Add<T(!new,==)>(m: multiset<T>, x: T): (r: multiset<T>)
    ensures forall y {:trigger r[y]} :: r[y] == m[y] + if y == x then 1 else 0
  {
    m + multiset{x}
  }

  function Remove<T(!new,==)>(m: multiset<T>, x: T): (r: multiset<T>)
    ensures forall y {:trigger r[y]} :: r[y] == if y == x && m[y] > 0 then m[y] - 1 else m[y]
  {
    m - multiset{x}
  }

  function Regenerations(queue: multiset<Task>, runs: multiset<Run>): (n: nat)
    ensures queue[Regenerate] <= n && runs[Replanning] <= n
  {
    queue[Regenerate] + runs[Replanning]
  }

  function Refinements(runs: multiset<Run>): (n: nat)
    ensures runs[Writing] <= n && runs[Verifying] <= n
  {
    runs[Writing] + runs[Verifying]
  }

  datatype State = State(
    kind: Kind,
    located: bool, // storage key (file) or address (url) is present
    fullText: bool,
    status: Status,
    phase: Phase,
    recoveries: nat,
    plan: Option<PlanStatus>,
    queue: multiset<Task>,
    runs: multiset<Run>)
  {
    predicate Active() { status == Pending || status == Processing || status == AwaitingApproval }

    predicate Queued(t: Task) { queue[t] > 0 }

    predicate Running(r: Run) { runs[r] > 0 }

    function Enqueue(t: Task): (after: State)
      ensures after == this.(queue := after.queue)
      ensures after.Outstanding() == Outstanding() + if t == Regenerate then 1 else 0
    {
      this.(queue := Add(queue, t))
    }

    function Dequeue(t: Task): (after: State)
      ensures after == this.(queue := after.queue)
      ensures after.Outstanding() == Outstanding() - if t == Regenerate && Queued(t) then 1 else 0
    {
      this.(queue := Remove(queue, t))
    }

    function Begin(t: Task, r: Run): (after: State)
      ensures after == this.(queue := after.queue, runs := after.runs)
      ensures Queued(t) ==>
        after.Outstanding() == Outstanding() + (if r == Replanning then 1 else 0) - (if t == Regenerate then 1 else 0)
      ensures r != Writing && r != Verifying ==> after.Refiners() == Refiners()
    {
      this.(queue := Remove(queue, t), runs := Add(runs, r))
    }

    function Advance(from: Run, to: Run): (after: State)
      ensures after == this.(runs := after.runs)
      ensures from != Replanning && to != Replanning ==> after.Outstanding() == Outstanding()
      ensures to != Writing && to != Verifying ==> after.Refiners() <= Refiners()
    {
      this.(runs := Add(Remove(runs, from), to))
    }

    function End(r: Run): (after: State)
      ensures after == this.(runs := after.runs)
      ensures after.Outstanding() == Outstanding() - if r == Replanning && Running(r) then 1 else 0
      ensures after.Refiners() <= Refiners()
    {
      this.(runs := Remove(runs, r))
    }

    /** Regenerate tasks queued or running. */
    function Outstanding(): nat { Regenerations(queue, runs) }

    /** Refine runs that have opened their plan. */
    function Refiners(): nat { Refinements(runs) }
  }

  /**
   A worker assigns to the objects it loaded when its task started, and an assignment of the value loaded is
   not written: `zero` tells that the sweep count read zero there, `copy` is what the plan read.
   */
  datatype Event =
    // endpoints
    | Store
    | EditDepartments(changed: bool)
    | Retry(admin: bool)
    | ApproveExtraction(images: bool)
    | ApprovePlan
    | RejectPlan
    | RegeneratePlan(queued: bool)
    // workers
    | Start(task: Task)
    | Lose(task: Task)
    | Extract(kind: Kind, found: bool)
    | GateExtraction(kind: Kind, images: bool)
    | SkipCaptions
    | CaptionsDone
    | Route(seen: Phase)
    | BeginMap
    | ProbeFails
    | MapDone
    | ReduceDone
    | FinishPlan(approve: bool, saved: bool, zero: bool)
    | OpenRefine(seen: Phase, drafts: bool)
    | WriteDone
    | CommitDone(zero: bool)
    | RegenerateDone(copy: PlanStatus)
    | RegenerateFails(copy: PlanStatus)
    | Fail(run: Run, marked: bool)
    | Crash(run: Run)
    | Redeliver(run: Run)
    | Duplicate(run: Run)
    // cron
    | Sweep
  {
    predicate IsRequest() {
      Store? || EditDepartments? || Retry? || ApproveExtraction? || ApprovePlan? || RejectPlan? || RegeneratePlan?
    }

    predicate IsPreparation() { Extract? || GateExtraction? || SkipCaptions? || CaptionsDone? }

    predicate IsPlanning() { Route? || BeginMap? || ProbeFails? || MapDone? || ReduceDone? || FinishPlan? }

    predicate IsRefining() { OpenRefine? || WriteDone? || CommitDone? || RegenerateDone? || RegenerateFails? }

    predicate IsInterruption() { Lose? || Fail? || Crash? || Redeliver? || Duplicate? }
  }

  // ----- endpoints -----

  function RetryTask(s: State): Task {
    if s.phase in {Refine, Verify, Commit} then RefinePages
    else if s.phase in {Map, Reduce, PlanReview} || s.status == PlanReady then MapReduce
    else IngestTask(s.kind)
  }

  predicate MayRetry(cfg: Config, s: State, admin: bool) {
    && (s.status == Error || s.status == PlanReady)
    && (s.recoveries < cfg.cap || admin)
    && s.located
  }

  function Request(cfg: Config, s: State, e: Event): State
    requires e.IsRequest()
  {
    match e
    case Store =>
      if s.kind == File && !s.located then s.(located := true).Enqueue(IngestFile) else s
    case EditDepartments(changed) =>
      if changed && s.status == Ready then s.(status := Processing).Enqueue(MapReduce) else s
    case Retry(admin) =>
      if MayRetry(cfg, s, admin) then s.(status := Pending).Enqueue(RetryTask(s)) else s
    case ApproveExtraction(images) =>
      if s.status == AwaitingApproval
      then s.(status := Processing).Enqueue(if images then Captions else MapReduce)
      else s
    case ApprovePlan =>
      if s.plan == Some(PendingReview)
      then s.(plan := Some(Approved), status := Processing).Enqueue(RefinePages)
      else s
    case RejectPlan =>
      if s.plan == Some(PendingReview) then s.(plan := Some(Rejected), status := Error) else s
    case RegeneratePlan(queued) =>
      if s.plan == Some(PendingReview) || s.plan == Some(Rejected) then
        var after := s.(plan := Some(Regenerating));
        if queued then after.Enqueue(Regenerate) else after
      else s
  }

  // ----- workers -----

  /** A worker takes a task. Missing prerequisites end it before the source is touched. */
  function StartTask(s: State, t: Task): State {
    if !s.Queued(t) then s
    else
      match t
      case IngestFile =>
        if s.located then s.(status := Processing).Begin(t, Extracting(File)) else s.Dequeue(t)
      case IngestUrl => s.(status := Processing).Begin(t, Extracting(Url))
      case Captions => s.Begin(t, Captioning)
      case MapReduce =>
        if s.fullText then s.(status := Processing).Begin(t, MapStarted(s.phase)) else s.Dequeue(t)
      case RefinePages =>
        if s.fullText then s.(status := Processing).Begin(t, RefineStarted(s.phase)) else s.Dequeue(t)
      case Regenerate => if s.plan.Some? then s.Begin(t, Replanning) else s.Dequeue(t)
  }

  function Gate(cfg: Config, s: State, k: Kind, images: bool): State {
    var after := s.End(Extracted(k));
    if cfg.Large() then after.(status := AwaitingApproval)
    else after.(status := Processing).Enqueue(if images then Captions else MapReduce)
  }

  /** Automatic approval; its own transaction may be lost, the refine task is queued all the same. */
  function AutoTrigger(s: State, saved: bool): State {
    var plan := if s.plan == Some(PendingReview) then Some(Approved) else s.plan;
    (if saved then s.(status := Processing, plan := plan) else s).Enqueue(RefinePages)
  }

  /** The last transaction of a map-reduce run whose plan is in place; whether to approve it was decided before. */
  function Conclude(s: State, approve: bool, saved: bool, zero: bool): State {
    if approve then AutoTrigger(s, saved) else s.(status := PlanReady, recoveries := if zero then s.recoveries else 0)
  }

  predicate PlanUsable(p: Option<PlanStatus>) {
    p == Some(Approved) || p == Some(InProgress) || p == Some(Done)
  }

  /** Where a map-reduce run goes after its start, by the phase it read. */
  function RouteRun(cfg: Config, s: State, seen: Phase): State {
    if seen == PlanReview && (s.plan == Some(PendingReview) || s.plan == Some(Approved))
    then s.Advance(MapStarted(seen), Planned(cfg.autoApprove || s.plan == Some(Approved)))
    else if seen in {Refine, Verify, Commit} then s.End(MapStarted(seen))
    else s.Advance(MapStarted(seen), Probing)
  }

  function Open(s: State, seen: Phase, drafts: bool): State {
    if !PlanUsable(s.plan) then s.(status := Error).End(RefineStarted(seen))
    else if seen != Verify && seen != Commit then
      s.(phase := Refine, plan := Some(InProgress)).Advance(RefineStarted(seen), Writing)
    else if drafts then s.(phase := Verify).Advance(RefineStarted(seen), Verifying)
    else s.(phase := Refine).Advance(RefineStarted(seen), Writing)
  }

  /** Extraction and captioning runs. */
  function Prepare(cfg: Config, s: State, e: Event): State
    requires e.IsPreparation()
  {
    match e
    case Extract(k, found) =>
      if !s.Running(Extracting(k)) then s
      else if found then s.(fullText := true).Advance(Extracting(k), Extracted(k))
      else s.(status := Error).End(Extracting(k))
    case GateExtraction(k, images) => if s.Running(Extracted(k)) then Gate(cfg, s, k, images) else s
    case SkipCaptions =>
      if s.Queued(Captions) then s.(status := Processing).Dequeue(Captions).Enqueue(MapReduce) else s
    case CaptionsDone => if s.Running(Captioning) then s.End(Captioning).Enqueue(MapReduce) else s
  }

  /** Map-reduce runs. */
  function Plan(cfg: Config, s: State, e: Event): State
    requires e.IsPlanning()
  {
    match e
    case Route(seen) => if s.Running(MapStarted(seen)) then RouteRun(cfg, s, seen) else s
    case BeginMap => if s.Running(Probing) then s.(phase := Map).Advance(Probing, Mapping) else s
    case ProbeFails => if s.Running(Probing) then s.(status := Failed) else s
    case MapDone => if s.Running(Mapping) then s.(phase := Reduce).Advance(Mapping, Reducing) else s
    case ReduceDone =>
      if s.Running(Reducing)
      then s.(plan := Some(PendingReview), phase := PlanReview).Advance(Reducing, Planned(cfg.autoApprove))
      else s
    case FinishPlan(approve, saved, zero) =>
      if s.Running(Planned(approve)) then Conclude(s.End(Planned(approve)), approve, saved, zero) else s
  }

  /** Refine and regenerate runs. */
  function Write(s: State, e: Event): State
    requires e.IsRefining()
  {
    match e
    case OpenRefine(seen, drafts) => if s.Running(RefineStarted(seen)) then Open(s, seen, drafts) else s
    case WriteDone => if s.Running(Writing) then s.(phase := Verify).Advance(Writing, Verifying) else s
    case CommitDone(zero) =>
      if s.Running(Verifying)
      then s.(plan := Some(Done), phase := Commit, status := Ready, recoveries := if zero then s.recoveries else 0).End(Verifying)
      else s
    case RegenerateDone(copy) =>
      if s.Running(Replanning)
      then s.(plan := if copy == PendingReview then s.plan else Some(PendingReview)).End(Replanning)
      else s
    case RegenerateFails(copy) =>
      if s.Running(Replanning)
      then s.(plan := if copy == Regenerating then Some(PendingReview) else s.plan).End(Replanning)
      else s
  }

  /** Ends of a run that its own code does not choose. Only ingest, map-reduce and refine runs mark the source. */
  function Interrupt(s: State, e: Event): State
    requires e.IsInterruption()
  {
    match e
    case Lose(t) => s.Dequeue(t)
    case Fail(r, marked) =>
      if !s.Running(r) || r == Replanning then s
      else if marked && r != Captioning then s.(status := Error).End(r)
      else s.End(r)
    case Crash(r) => s.End(r)
    case Redeliver(r) => if s.Running(r) then s.End(r).Enqueue(r.Origin()) else s
    case Duplicate(r) => if s.Running(r) then s.Enqueue(r.Origin()) else s
  }

  /** One transaction; an event whose guard fails changes nothing. */
  function Step(cfg: Config, s: State, e: Event): State {
    if e.IsRequest() then Request(cfg, s, e)
    else if e.IsPreparation() then Prepare(cfg, s, e)
    else if e.IsPlanning() then Plan(cfg, s, e)
    else if e.IsRefining() then Write(s, e)
    else if e.IsInterruption() then Interrupt(s, e)
    else if e.Start? then StartTask(s, e.task)
    else if s.status == Processing then s.(recoveries := s.recoveries + 1, status := Error)
    else s
  }

  function Execute(cfg: Config, s: State, trace: seq<Event>): State {
    if trace == [] then s else Step(cfg, Execute(cfg, s, trace[..|trace| - 1]), trace[|trace| - 1])
  }

  /** A source as its create endpoint leaves it: a file still to be stored, or an address with its task queued. */
  predicate Initial(s: State) {
    && !s.fullText && s.status == Pending && s.phase == NoPhase && s.recoveries == 0 && s.plan == None
    && s.runs == multiset{}
    && (s.kind == File ==> !s.located && s.queue == multiset{})
    && (s.kind == Url ==> s.queue <= multiset{IngestUrl})
  }

  // ----- task preconditions and the token gate -----

  /** Compiling this source has been allowed: it has text, and is small or its extraction was approved. */
  predicate Cleared(cfg: Config, s: State, approved: bool) {
    s.fullText && (!cfg.Large() || approved)
  }

  predicate TaskReady(cfg: Config, s: State, approved: bool, t: Task) {
    match t
    case IngestFile => s.kind == File && s.located
    case IngestUrl => s.kind == Url
    case Captions => Cleared(cfg, s, approved)
    case MapReduce => Cleared(cfg, s, approved)
    case RefinePages => Cleared(cfg, s, approved)
    case Regenerate => Cleared(cfg, s, approved) && s.plan.Some?
  }

  predicate RunReady(cfg: Config, s: State, approved: bool, r: Run) {
    && TaskReady(cfg, s, approved, r.Origin())
    && (r.Extracted? ==> s.fullText)
    && (r.Planned? ==> s.plan.Some?)
  }

  ghost predicate Gated(cfg: Config, s: State, approved: bool) {
    && (forall t | s.queue[t] > 0 :: TaskReady(cfg, s, approved, t))
    && (forall r | s.runs[r] > 0 :: RunReady(cfg, s, approved, r))
    && (s.phase != NoPhase || s.plan.Some? || s.status == PlanReady || s.status == Ready ==> Cleared(cfg, s, approved))
    && (s.status == AwaitingApproval ==> s.fullText)
  }

  predicate ApprovesExtraction(s: State, e: Event) {
    e.ApproveExtraction? && s.status == AwaitingApproval
  }

  /** Some step of the run was an `approve_extraction` that went through. */
  predicate WasApproved(cfg: Config, s: State, trace: seq<Event>) {
    exists i | 0 <= i < |trace| :: ApprovesExtraction(Execute(cfg, s, trace[..i]), trace[i])
  }

  lemma WasApprovedSnoc(cfg: Config, s: State, trace: seq<Event>)
    requires trace != []
    ensures var init, e := trace[..|trace| - 1], trace[|trace| - 1];
            WasApproved(cfg, s, trace) <==> WasApproved(cfg, s, init) || ApprovesExtraction(Execute(cfg, s, init), e)
  {
    var init := trace[..|trace| - 1];
    hide Execute, ApprovesExtraction;
    if i :| 0 <= i < |trace| && ApprovesExtraction(Execute(cfg, s, trace[..i]), trace[i]) {
      if i < |init| { assert init[..i] == trace[..i] && init[i] == trace[i]; }
    }
    if i :| 0 <= i < |init| && ApprovesExtraction(Execute(cfg, s, init[..i]), init[i]) {
      assert init[..i] == trace[..i] && init[i] == trace[i];
    }
  }

  // Each way a step can change the queue, the runs or the fields keeps the gate.

  lemma GatedEnqueue(cfg: Config, s: State, approved: bool, t: Task)
    requires Gated(cfg, s, approved) && TaskReady(cfg, s, approved, t)
    ensures Gated(cfg, s.Enqueue(t), approved)
  {
    hide Add, Remove;
  }

  lemma GatedDequeue(cfg: Config, s: State, approved: bool, t: Task)
    requires Gated(cfg, s, approved)
    ensures Gated(cfg, s.Dequeue(t), approved)
  {
    hide Add, Remove;
  }

  lemma GatedEnd(cfg: Config, s: State, approved: bool, r: Run)
    requires Gated(cfg, s, approved)
    ensures Gated(cfg, s.End(r), approved)
  {
    hide Add, Remove;
  }

  lemma GatedBegin(cfg: Config, s: State, approved: bool, t: Task, r: Run)
    requires Gated(cfg, s, approved) && RunReady(cfg, s, approved, r)
    ensures Gated(cfg, s.Begin(t, r), approved)
  {
    hide Add, Remove;
  }

  lemma GatedAdvance(cfg: Config, s: State, approved: bool, from: Run, to: Run)
    requires Gated(cfg, s, approved) && RunReady(cfg, s, approved, to)
    ensures Gated(cfg, s.Advance(from, to), approved)
  {
    hide Add, Remove;
  }

  /** Field updates: nothing a queued task relies on is taken away. */
  lemma GatedFields(cfg: Config, s: State, approved: bool, after: State, approvedAfter: bool)
    requires Gated(cfg, s, approved) && (approved ==> approvedAfter)
    requires after.queue == s.queue && after.runs == s.runs && after.kind == s.kind
    requires (s.located ==> after.located) && (s.fullText ==> after.fullText) && (s.plan.Some? ==> after.plan.Some?)
    requires after.phase != NoPhase || after.plan.Some? || after.status == PlanReady || after.status == Ready ==>
               Cleared(cfg, after, approvedAfter)
    requires after.status == AwaitingApproval ==> after.fullText
    ensures Gated(cfg, after, approvedAfter)
  {
    hide Add, Remove;
  }

  /** Retry picks a task by phase, and whatever phase was reached has prepared that task's input. */
  lemma GatedRetry(cfg: Config, s: State, approved: bool)
    requires Gated(cfg, s, approved) && (s.status == Error || s.status == PlanReady) && s.located
    ensures Gated(cfg, s.(status := Pending).Enqueue(RetryTask(s)), approved)
  {
    hide State.Enqueue, State.Dequeue, State.Begin, State.Advance, State.End, Regenerations, Refinements, Add, Remove;
    GatedFields(cfg, s, approved, s.(status := Pending), approved);
    GatedEnqueue(cfg, s.(status := Pending), approved, RetryTask(s));
  }

  lemma GatedRequest(cfg: Config, s: State, approved: bool, e: Event)
    requires Gated(cfg, s, approved)
    requires e.IsRequest()
    ensures Gated(cfg, Request(cfg, s, e), approved || ApprovesExtraction(s, e))
  {
    hide State.Enqueue, State.Dequeue, State.Begin, State.Advance, State.End, Regenerations, Refinements, Add, Remove;
    var approvedAfter := approved || ApprovesExtraction(s, e);
    match e
    case Store =>
      if s.kind == File && !s.located {
        GatedFields(cfg, s, approved, s.(located := true), approvedAfter);
        GatedEnqueue(cfg, s.(located := true), approvedAfter, IngestFile);
      }
    case EditDepartments(changed) =>
      if changed && s.status == Ready {
        GatedFields(cfg, s, approved, s.(status := Processing), approvedAfter);
        GatedEnqueue(cfg, s.(status := Processing), approvedAfter, MapReduce);
      }
    case Retry(admin) =>
      if MayRetry(cfg, s, admin) { GatedRetry(cfg, s, approved); }
    case ApproveExtraction(images) =>
      if s.status == AwaitingApproval {
        GatedFields(cfg, s, approved, s.(status := Processing), approvedAfter);
        GatedEnqueue(cfg, s.(status := Processing), approvedAfter, if images then Captions else MapReduce);
      }
    case ApprovePlan =>
      if s.plan == Some(PendingReview) {
        GatedFields(cfg, s, approved, s.(plan := Some(Approved), status := Processing), approvedAfter);
        GatedEnqueue(cfg, s.(plan := Some(Approved), status := Processing), approvedAfter, RefinePages);
      }
    case RejectPlan =>
      if s.plan == Some(PendingReview) { GatedFields(cfg, s, approved, Request(cfg, s, e), approvedAfter); }
    case RegeneratePlan(queued) =>
      if s.plan == Some(PendingReview) || s.plan == Some(Rejected) {
        GatedFields(cfg, s, approved, s.(plan := Some(Regenerating)), approvedAfter);
        GatedEnqueue(cfg, s.(plan := Some(Regenerating)), approvedAfter, Regenerate);
      }
  }

  lemma BeginReady(cfg: Config, s: State, approved: bool, t: Task, r: Run)
    requires TaskReady(cfg, s, approved, t) && r.Origin() == t && !r.Extracted? && !r.Planned?
    ensures RunReady(cfg, s, approved, r) && RunReady(cfg, s.(status := Processing), approved, r)
  {}

  lemma GatedStart(cfg: Config, s: State, approved: bool, t: Task)
    requires Gated(cfg, s, approved)
    ensures Gated(cfg, StartTask(s, t), approved)
  {
    hide State.Enqueue, State.Dequeue, State.Begin, State.Advance, State.End, Regenerations, Refinements, Add, Remove;
    var busy := s.(status := Processing);
    assert s.Queued(t) ==> TaskReady(cfg, s, approved, t);
    GatedFields(cfg, s, approved, busy, approved);
    hide Gated, TaskReady, RunReady;
    GatedDequeue(cfg, s, approved, t);
    if s.Queued(t) {
      var r := match t
        case IngestFile => Extracting(File)
        case IngestUrl => Extracting(Url)
        case Captions => Captioning
        case MapReduce => MapStarted(s.phase)
        case RefinePages => RefineStarted(s.phase)
        case Regenerate => Replanning;
      BeginReady(cfg, s, approved, t, r);
      GatedBegin(cfg, s, approved, t, r);
      GatedBegin(cfg, busy, approved, t, r);
    }
  }

  lemma GatedPrepare(cfg: Config, s: State, approved: bool, e: Event)
    requires Gated(cfg, s, approved)
    requires e.IsPreparation()
    ensures Gated(cfg, Prepare(cfg, s, e), approved)
  {
    hide State.Enqueue, State.Dequeue, State.Begin, State.Advance, State.End, Regenerations, Refinements, Add, Remove;
    match e
    case Extract(k, found) =>
      if s.Running(Extracting(k)) {
        assert RunReady(cfg, s, approved, Extracting(k));
        GatedFields(cfg, s, approved, s.(fullText := true), approved);
        GatedAdvance(cfg, s.(fullText := true), approved, Extracting(k), Extracted(k));
        GatedFields(cfg, s, approved, s.(status := Error), approved);
        GatedEnd(cfg, s.(status := Error), approved, Extracting(k));
      }
    case GateExtraction(k, images) =>
      if s.Running(Extracted(k)) {
        assert RunReady(cfg, s, approved, Extracted(k));
        GatedEnd(cfg, s, approved, Extracted(k));
        var after := s.End(Extracted(k));
        hide State.End;
        if cfg.Large() {
          GatedFields(cfg, after, approved, after.(status := AwaitingApproval), approved);
        } else {
          GatedFields(cfg, after, approved, after.(status := Processing), approved);
          GatedEnqueue(cfg, after.(status := Processing), approved, if images then Captions else MapReduce);
        }
      }
    case SkipCaptions =>
      if s.Queued(Captions) {
        assert TaskReady(cfg, s, approved, Captions);
        GatedFields(cfg, s, approved, s.(status := Processing), approved);
        GatedDequeue(cfg, s.(status := Processing), approved, Captions);
        GatedEnqueue(cfg, s.(status := Processing).Dequeue(Captions), approved, MapReduce);
      }
    case CaptionsDone =>
      if s.Running(Captioning) {
        assert RunReady(cfg, s, approved, Captioning);
        GatedEnd(cfg, s, approved, Captioning);
        GatedEnqueue(cfg, s.End(Captioning), approved, MapReduce);
      }
  }

  lemma GatedRoute(cfg: Config, s: State, approved: bool, seen: Phase)
    requires Gated(cfg, s, approved) && s.Running(MapStarted(seen))
    ensures Gated(cfg, RouteRun(cfg, s, seen), approved)
  {
    hide State.Enqueue, State.Dequeue, State.Begin, State.Advance, State.End, Regenerations, Refinements, Add, Remove;
    assert RunReady(cfg, s, approved, MapStarted(seen));
    if s.plan.Some? { GatedAdvance(cfg, s, approved, MapStarted(seen), Planned(cfg.autoApprove || s.plan == Some(Approved))); }
    GatedEnd(cfg, s, approved, MapStarted(seen));
    GatedAdvance(cfg, s, approved, MapStarted(seen), Probing);
  }

  lemma GatedPlan(cfg: Config, s: State, approved: bool, e: Event)
    requires Gated(cfg, s, approved)
    requires e.IsPlanning()
    ensures Gated(cfg, Plan(cfg, s, e), approved)
  {
    hide State.Enqueue, State.Dequeue, State.Begin, State.Advance, State.End, Regenerations, Refinements, Add, Remove;
    match e
    case Route(seen) =>
      if s.Running(MapStarted(seen)) { GatedRoute(cfg, s, approved, seen); }
    case BeginMap =>
      if s.Running(Probing) {
        assert RunReady(cfg, s, approved, Probing);
        GatedFields(cfg, s, approved, s.(phase := Map), approved);
        GatedAdvance(cfg, s.(phase := Map), approved, Probing, Mapping);
      }
    case ProbeFails => GatedFields(cfg, s, approved, s.(status := Failed), approved);
    case MapDone =>
      if s.Running(Mapping) {
        assert RunReady(cfg, s, approved, Mapping);
        GatedFields(cfg, s, approved, s.(phase := Reduce), approved);
        GatedAdvance(cfg, s.(phase := Reduce), approved, Mapping, Reducing);
      }
    case ReduceDone =>
      if s.Running(Reducing) {
        assert RunReady(cfg, s, approved, Reducing);
        var after := s.(plan := Some(PendingReview), phase := PlanReview);
        GatedFields(cfg, s, approved, after, approved);
        GatedAdvance(cfg, after, approved, Reducing, Planned(cfg.autoApprove));
      }
    case FinishPlan(approve, saved, zero) =>
      if s.Running(Planned(approve)) {
        assert RunReady(cfg, s, approved, Planned(approve));
        GatedEnd(cfg, s, approved, Planned(approve));
        GatedConclude(cfg, s.End(Planned(approve)), approved, approve, saved, zero);
      }
  }

  lemma GatedConclude(cfg: Config, s: State, approved: bool, approve: bool, saved: bool, zero: bool)
    requires Gated(cfg, s, approved) && Cleared(cfg, s, approved)
    ensures Gated(cfg, Conclude(s, approve, saved, zero), approved)
  {
    hide State.Enqueue, State.Dequeue, State.Begin, State.Advance, State.End, Regenerations, Refinements, Add, Remove;
    var plan := if s.plan == Some(PendingReview) then Some(Approved) else s.plan;
    GatedFields(cfg, s, approved, s.(status := Processing, plan := plan), approved);
    GatedEnqueue(cfg, s.(status := Processing, plan := plan), approved, RefinePages);
    GatedEnqueue(cfg, s, approved, RefinePages);
    GatedFields(cfg, s, approved, s.(status := PlanReady, recoveries := if zero then s.recoveries else 0), approved);
  }

  lemma GatedWrite(cfg: Config, s: State, approved: bool, e: Event)
    requires Gated(cfg, s, approved)
    requires e.IsRefining()
    ensures Gated(cfg, Write(s, e), approved)
  {
    hide State.Enqueue, State.Dequeue, State.Begin, State.Advance, State.End, Regenerations, Refinements, Add, Remove;
    match e
    case OpenRefine(seen, drafts) =>
      if s.Running(RefineStarted(seen)) {
        assert RunReady(cfg, s, approved, RefineStarted(seen));
        GatedOpen(cfg, s, approved, seen, drafts);
      }
    case WriteDone =>
      if s.Running(Writing) {
        assert RunReady(cfg, s, approved, Writing);
        GatedFields(cfg, s, approved, s.(phase := Verify), approved);
        GatedAdvance(cfg, s.(phase := Verify), approved, Writing, Verifying);
      }
    case CommitDone(zero) =>
      if s.Running(Verifying) {
        assert RunReady(cfg, s, approved, Verifying);
        var after := s.(plan := Some(Done), phase := Commit, status := Ready, recoveries := if zero then s.recoveries else 0);
        GatedFields(cfg, s, approved, after, approved);
        GatedEnd(cfg, after, approved, Verifying);
      }
    case RegenerateDone(copy) =>
      if s.Running(Replanning) {
        assert RunReady(cfg, s, approved, Replanning);
        var after := s.(plan := if copy == PendingReview then s.plan else Some(PendingReview));
        GatedFields(cfg, s, approved, after, approved);
        GatedEnd(cfg, after, approved, Replanning);
      }
    case RegenerateFails(copy) =>
      if s.Running(Replanning) {
        assert RunReady(cfg, s, approved, Replanning);
        var after := s.(plan := if copy == Regenerating then Some(PendingReview) else s.plan);
        GatedFields(cfg, s, approved, after, approved);
        GatedEnd(cfg, after, approved, Replanning);
      }
  }

  lemma GatedOpen(cfg: Config, s: State, approved: bool, seen: Phase, drafts: bool)
    requires Gated(cfg, s, approved) && Cleared(cfg, s, approved)
    ensures Gated(cfg, Open(s, seen, drafts), approved)
  {
    hide State.Enqueue, State.Dequeue, State.Begin, State.Advance, State.End, Regenerations, Refinements, Add, Remove;
    var from := RefineStarted(seen);
    if !PlanUsable(s.plan) {
      GatedFields(cfg, s, approved, s.(status := Error), approved);
      GatedEnd(cfg, s.(status := Error), approved, from);
    } else if seen != Verify && seen != Commit {
      GatedFields(cfg, s, approved, s.(phase := Refine, plan := Some(InProgress)), approved);
      GatedAdvance(cfg, s.(phase := Refine, plan := Some(InProgress)), approved, from, Writing);
    } else if drafts {
      GatedFields(cfg, s, approved, s.(phase := Verify), approved);
      GatedAdvance(cfg, s.(phase := Verify), approved, from, Verifying);
    } else {
      GatedFields(cfg, s, approved, s.(phase := Refine), approved);
      GatedAdvance(cfg, s.(phase := Refine), approved, from, Writing);
    }
  }

  lemma GatedRequeue(cfg: Config, s: State, approved: bool, r: Run)
    requires Gated(cfg, s, approved) && s.Running(r)
    ensures Gated(cfg, s.Enqueue(r.Origin()), approved) && Gated(cfg, s.End(r).Enqueue(r.Origin()), approved)
  {
    hide State.Enqueue, State.Dequeue, State.Begin, State.Advance, State.End, Regenerations, Refinements, Add, Remove;
    assert RunReady(cfg, s, approved, r);
    GatedEnd(cfg, s, approved, r);
    GatedEnqueue(cfg, s.End(r), approved, r.Origin());
    GatedEnqueue(cfg, s, approved, r.Origin());
  }

  lemma GatedFail(cfg: Config, s: State, approved: bool, r: Run)
    requires Gated(cfg, s, approved)
    ensures Gated(cfg, s.End(r), approved) && Gated(cfg, s.(status := Error).End(r), approved)
  {
    hide State.Enqueue, State.Dequeue, State.Begin, State.Advance, State.End, Regenerations, Refinements, Add, Remove;
    GatedFields(cfg, s, approved, s.(status := Error), approved);
    GatedEnd(cfg, s.(status := Error), approved, r);
    GatedEnd(cfg, s, approved, r);
  }

  lemma GatedInterrupt(cfg: Config, s: State, approved: bool, e: Event)
    requires Gated(cfg, s, approved) && e.IsInterruption()
    ensures Gated(cfg, Interrupt(s, e), approved)
  {
    hide Gated, State.Enqueue, State.Dequeue, State.Begin, State.Advance, State.End, Regenerations, Refinements, Add, Remove;
    match e
    case Lose(t) => GatedDequeue(cfg, s, approved, t);
    case Fail(r, marked) => GatedFail(cfg, s, approved, r);
    case Crash(r) => GatedFail(cfg, s, approved, r);
    case Redeliver(r) => if s.Running(r) { GatedRequeue(cfg, s, approved, r); }
    case Duplicate(r) => if s.Running(r) { GatedRequeue(cfg, s, approved, r); }
  }

  lemma StepKeepsGate(cfg: Config, s: State, approved: bool, e: Event)
    requires Gated(cfg, s, approved)
    ensures Gated(cfg, Step(cfg, s, e), approved || ApprovesExtraction(s, e))
  {
    if e == Sweep { GatedFields(cfg, s, approved, Step(cfg, s, e), approved); }
    hide Gated, Request, Prepare, Plan, Write, Interrupt, StartTask;
    if e.IsRequest() {
      GatedRequest(cfg, s, approved, e);
    } else if e.IsInterruption() {
      GatedInterrupt(cfg, s, approved, e);
    } else if e.Start? {
      GatedStart(cfg, s, approved, e.task);
    } else if e.IsPreparation() {
      GatedPrepare(cfg, s, approved, e);
    } else if e.IsPlanning() {
      GatedPlan(cfg, s, approved, e);
    } else if e.IsRefining() {
      GatedWrite(cfg, s, approved, e);
    }
  }

  lemma {:induction false} ExecuteKeepsGate(cfg: Config, s: State, trace: seq<Event>)
    requires Initial(s)
    ensures Gated(cfg, Execute(cfg, s, trace), WasApproved(cfg, s, trace))
  {
    if trace != [] {
      var init, e := trace[..|trace| - 1], trace[|trace| - 1];
      ExecuteKeepsGate(cfg, s, init);
      StepKeepsGate(cfg, Execute(cfg, s, init), WasApproved(cfg, s, init), e);
      WasApprovedSnoc(cfg, s, trace);
    }
  }

  /** In every reachable state each queued task finds what it reads: text, a stored file, a plan. */
  lemma QueuedTasksFindInputs(cfg: Config, s: State, trace: seq<Event>, t: Task)
    requires Initial(s) && t in Execute(cfg, s, trace).queue
    ensures var now := Execute(cfg, s, trace);
            && (t == IngestFile ==> now.kind == File && now.located)
            && (t == IngestUrl ==> now.kind == Url)
            && (t == Captions || t == MapReduce || t == RefinePages || t == Regenerate ==> now.fullText)
            && (t == Regenerate ==> now.plan.Some?)
  {
    ExecuteKeepsGate(cfg, s, trace);
    hide Execute, WasApproved;
  }

  /** Over the threshold nothing is captioned, mapped, planned or refined before an approved extraction. */
  lemma TokenGate(cfg: Config, s: State, trace: seq<Event>)
    requires Initial(s) && cfg.Large()
    requires var now := Execute(cfg, s, trace);
             || now.phase != NoPhase || now.plan.Some? || now.status == PlanReady || now.status == Ready
             || (exists t | now.queue[t] > 0 :: t != IngestFile && t != IngestUrl)
             || (exists r | now.runs[r] > 0 :: !r.Extracting? && !r.Extracted?)
    ensures exists i | 0 <= i < |trace| :: ApprovesExtraction(Execute(cfg, s, trace[..i]), trace[i])
  {
    ExecuteKeepsGate(cfg, s, trace);
    hide Execute, Gated;
    PastExtraction(cfg, Execute(cfg, s, trace), WasApproved(cfg, s, trace));
  }

  /** A large source that is past extraction has been approved. */
  lemma PastExtraction(cfg: Config, s: State, approved: bool)
    requires cfg.Large() && Gated(cfg, s, approved)
    requires || s.phase != NoPhase || s.plan.Some? || s.status == PlanReady || s.status == Ready
             || (exists t | s.queue[t] > 0 :: t != IngestFile && t != IngestUrl)
             || (exists r | s.runs[r] > 0 :: !r.Extracting? && !r.Extracted?)
    ensures approved
  {
    if t :| s.queue[t] > 0 && t != IngestFile && t != IngestUrl { LargeTask(cfg, s, approved, t); }
    if r :| s.runs[r] > 0 && !r.Extracting? && !r.Extracted? { LargeRun(cfg, s, approved, r); }
    hide TaskReady, RunReady;
  }

  lemma LargeTask(cfg: Config, s: State, approved: bool, t: Task)
    requires cfg.Large() && Gated(cfg, s, approved) && s.queue[t] > 0 && t != IngestFile && t != IngestUrl
    ensures approved
  {
    assert TaskReady(cfg, s, approved, t);
    hide Gated;
  }

  lemma LargeRun(cfg: Config, s: State, approved: bool, r: Run)
    requires cfg.Large() && Gated(cfg, s, approved) && s.runs[r] > 0 && !r.Extracting? && !r.Extracted?
    ensures approved
  {
    assert RunReady(cfg, s, approved, r);
    hide Gated;
  }

  // ----- the retry budget -----

  /** The source becomes active again although no retry passed the cap. */
  predicate Revives(cfg: Config, s: State, e: Event) {
    !s.Active() && Step(cfg, s, e).Active() && e != Retry(false)
  }

  function Revivals(cfg: Config, s: State, trace: seq<Event>): nat {
    if trace == [] then 0
    else
      var init := trace[..|trace| - 1];
      Revivals(cfg, s, init) + if Revives(cfg, Execute(cfg, s, init), trace[|trace| - 1]) then 1 else 0
  }

  lemma WritingRevivesNot(cfg: Config, s: State, e: Event)
    requires e.IsRefining()
    ensures !Revives(cfg, s, e)
  {
    hide Request, Prepare, Plan, Interrupt, StartTask, State.Enqueue, State.Dequeue, State.Begin, State.Advance, State.End, Regenerations, Refinements, Add, Remove;
  }

  lemma PlanningRevives(cfg: Config, s: State, e: Event)
    requires e.IsPlanning() && Revives(cfg, s, e)
    ensures e.FinishPlan? && e.approve && e.saved && s.Running(Planned(true))
  {
    hide Request, Prepare, Write, Interrupt, StartTask, State.Enqueue, State.Dequeue, State.Begin, State.Advance, State.End, Regenerations, Refinements, Add, Remove;
  }

  /** Only these can revive: an admin's retry, a plan approval, a department change, or a worker task. */
  lemma RevivesOnly(cfg: Config, s: State, e: Event)
    requires Revives(cfg, s, e)
    ensures || e == Retry(true) || e == ApprovePlan || e == EditDepartments(true)
            || (e.Start? && s.Queued(e.task)) || (e == SkipCaptions && s.Queued(Captions))
            || (e.GateExtraction? && s.Running(Extracted(e.kind))) || (e.FinishPlan? && e.approve && e.saved && s.Running(Planned(true)))
  {
    if e.IsRefining() { WritingRevivesNot(cfg, s, e); }
    if e.IsPlanning() { PlanningRevives(cfg, s, e); }
    hide Plan, Write, Add, Remove, State.Enqueue, State.Dequeue, State.Begin, State.End, Regenerations, Refinements;
  }

  function Ceiling(cfg: Config): nat { if cfg.cap == 0 then 1 else cfg.cap }

  predicate Reset(s: State) {
    s.status == PlanReady || s.status == Ready ==> s.recoveries == 0
  }

  /** A run ends in a ready plan or committed pages, but its copy of the count reads zero where the count does not. */
  predicate SkipsReset(s: State, e: Event) {
    && ((e.FinishPlan? && !e.approve && e.zero && s.Running(Planned(false))) || (e.CommitDone? && e.zero && s.Running(Verifying)))
    && s.recoveries > 0
  }

  predicate WithinBudget(cfg: Config, s: State, revivals: nat) {
    && s.recoveries <= Ceiling(cfg) + revivals
    && (s.Active() ==> s.recoveries < Ceiling(cfg) + revivals)
  }

  /** The count is left alone, or reset on reaching a ready plan or committed pages. */
  predicate Counted(s: State, after: State) {
    || (after.recoveries == s.recoveries
        && (after.status == s.status || (after.status != PlanReady && after.status != Ready)))
    || (after.recoveries == 0 && !after.Active())
  }

  lemma CountedRequest(cfg: Config, s: State, e: Event)
    requires e.IsRequest()
    ensures Counted(s, Request(cfg, s, e))
  {
    hide State.Enqueue, State.Dequeue, State.Begin, State.Advance, State.End, Regenerations, Refinements, Add, Remove;
  }

  lemma CountedPrepare(cfg: Config, s: State, e: Event)
    requires e.IsPreparation()
    ensures Counted(s, Prepare(cfg, s, e))
  {
    hide State.Enqueue, State.Dequeue, State.Begin, State.Advance, State.End, Regenerations, Refinements, Add, Remove;
  }

  /** The count stands although the run is done. */
  predicate Skipped(s: State, after: State) {
    after.recoveries == s.recoveries > 0 && (after.status == PlanReady || after.status == Ready)
  }

  lemma CountedPlan(cfg: Config, s: State, e: Event)
    requires e.IsPlanning()
    ensures if SkipsReset(s, e) then Skipped(s, Plan(cfg, s, e)) else Counted(s, Plan(cfg, s, e))
  {
    hide State.Enqueue, State.Dequeue, State.Begin, State.Advance, State.End, Regenerations, Refinements, Add, Remove;
  }

  lemma CountedWrite(s: State, e: Event)
    requires e.IsRefining()
    ensures if SkipsReset(s, e) then Skipped(s, Write(s, e)) else Counted(s, Write(s, e))
  {
    hide State.Enqueue, State.Dequeue, State.Begin, State.Advance, State.End, Regenerations, Refinements, Add, Remove;
  }

  lemma CountedInterrupt(s: State, e: Event)
    requires e.IsInterruption()
    ensures Counted(s, Interrupt(s, e))
  {
    hide State.Enqueue, State.Dequeue, State.Begin, State.Advance, State.End, Regenerations, Refinements, Add, Remove;
  }

  lemma CountedStart(s: State, t: Task)
    ensures Counted(s, StartTask(s, t))
  {
    hide State.Enqueue, State.Dequeue, State.Begin, State.Advance, State.End, Regenerations, Refinements, Add, Remove;
  }

  /** What every step does to the count. */
  predicate Tallied(s: State, e: Event, after: State) {
    if SkipsReset(s, e) then Skipped(s, after) else Counted(s, after)
  }

  lemma StepTallies(cfg: Config, s: State, e: Event)
    requires e != Sweep
    ensures Tallied(s, e, Step(cfg, s, e))
  {
    hide Request, Prepare, Plan, Write, Interrupt, StartTask, Counted, Skipped;
    if e.IsRequest() {
      CountedRequest(cfg, s, e);
    } else if e.IsPreparation() {
      CountedPrepare(cfg, s, e);
    } else if e.IsPlanning() {
      CountedPlan(cfg, s, e);
    } else if e.IsRefining() {
      CountedWrite(s, e);
    } else if e.IsInterruption() {
      CountedInterrupt(s, e);
    } else if e.Start? {
      CountedStart(s, e.task);
    }
  }

  /** A retry without the admin's permission does not pass the cap. */
  lemma RetryStays(cfg: Config, s: State)
    requires !s.Active() && Step(cfg, s, Retry(false)).Active()
    ensures s.recoveries < cfg.cap
  {
    hide State.Enqueue;
  }

  lemma StepKeepsBudget(cfg: Config, s: State, revivals: nat, e: Event)
    requires WithinBudget(cfg, s, revivals)
    ensures WithinBudget(cfg, Step(cfg, s, e), revivals + if Revives(cfg, s, e) then 1 else 0)
    ensures Reset(s) ==> (Reset(Step(cfg, s, e)) <==> !SkipsReset(s, e))
  {
    if e == Sweep {
      hide Request, Prepare, Plan, Write, Interrupt, StartTask;
    } else {
      hide Step;
      StepTallies(cfg, s, e);
      if e == Retry(false) && !s.Active() && Step(cfg, s, e).Active() { RetryStays(cfg, s); }
    }
  }

  /**
   In every run the sweep count stays within the cap plus the ungated revivals, strictly while the
   source is active.
   */
  lemma {:induction false} RetryBudget(cfg: Config, s: State, trace: seq<Event>)
    requires Initial(s)
    ensures WithinBudget(cfg, Execute(cfg, s, trace), Revivals(cfg, s, trace))
  {
    if trace != [] {
      var init := trace[..|trace| - 1];
      RetryBudget(cfg, s, init);
      StepKeepsBudget(cfg, Execute(cfg, s, init), Revivals(cfg, s, init), trace[|trace| - 1]);
      hide Step, Revives;
    }
  }

  /** No step of the run skips the reset. */
  predicate NoSkips(cfg: Config, s: State, trace: seq<Event>) {
    trace == [] ||
    (NoSkips(cfg, s, trace[..|trace| - 1]) && !SkipsReset(Execute(cfg, s, trace[..|trace| - 1]), trace[|trace| - 1]))
  }

  /** The count is zero whenever a plan is ready or the pages are committed, at every point of the run. */
  predicate ResetThroughout(cfg: Config, s: State, trace: seq<Event>) {
    Reset(Execute(cfg, s, trace)) && (trace != [] ==> ResetThroughout(cfg, s, trace[..|trace| - 1]))
  }

  /** So it is exactly in the runs in which no finishing worker skips the reset. */
  lemma {:induction false} ResetIff(cfg: Config, s: State, trace: seq<Event>)
    requires Initial(s)
    ensures ResetThroughout(cfg, s, trace) <==> NoSkips(cfg, s, trace)
  {
    if trace != [] {
      var init := trace[..|trace| - 1];
      ResetIff(cfg, s, init);
      RetryBudget(cfg, s, init);
      StepKeepsBudget(cfg, Execute(cfg, s, init), Revivals(cfg, s, init), trace[|trace| - 1]);
    }
    hide Step, Revives, Reset, SkipsReset;
  }

  /** A source swept while its first run is about to commit ends up ready with a count of one. */
  lemma SweepOutlivesCommit(cfg: Config, s: State)
    requires s.status == Processing && s.recoveries == 0 && s.Running(Verifying)
    ensures var now := Execute(cfg, s, [] + [Sweep] + [CommitDone(true)]);
            now.status == Ready && now.recoveries == 1
  {
    var swept := s.(recoveries := 1, status := Error);
    assert Step(cfg, s, Sweep) == swept;
    CommitSkips(cfg, swept);
    hide Step;
    Idle(cfg, s);
    Next(cfg, s, [], Sweep);
    Next(cfg, s, [] + [Sweep], CommitDone(true));
  }

  lemma CommitSkips(cfg: Config, s: State)
    requires s.Running(Verifying)
    ensures Step(cfg, s, CommitDone(true)).status == Ready && Step(cfg, s, CommitDone(true)).recoveries == s.recoveries
  {
    hide Request, Prepare, Plan, Interrupt, StartTask, Regenerations, Refinements, Add, Remove;
  }

  /** The budget as the setting reads: no run is swept more often than the cap plus its revivals. */
  ghost predicate BudgetHolds(cfg: Config) {
    forall s, trace | Initial(s) :: Execute(cfg, s, trace).recoveries <= cfg.cap + Revivals(cfg, s, trace)
  }

  /** With a cap of zero a new source is swept once although nothing revived it. */
  lemma CapZero(cfg: Config) returns (s: State, trace: seq<Event>)
    requires cfg.cap == 0
    ensures Initial(s) && Execute(cfg, s, trace).recoveries == 1 && Revivals(cfg, s, trace) == 0
  {
    s := State(Url, true, false, Pending, NoPhase, 0, None, multiset{IngestUrl}, multiset{});
    trace := [] + [Start(IngestUrl)] + [Sweep];
    var started := s.(status := Processing).Begin(IngestUrl, Extracting(Url));
    assert Step(cfg, s, Start(IngestUrl)) == started;
    assert Step(cfg, started, Sweep) == started.(recoveries := 1, status := Error);
    hide Step, State.Begin, Regenerations, Refinements;
    Idle(cfg, s);
    Next(cfg, s, [], Start(IngestUrl));
    Next(cfg, s, [] + [Start(IngestUrl)], Sweep);
    Unrevived(cfg, s, [], Start(IngestUrl));
    Unrevived(cfg, s, [] + [Start(IngestUrl)], Sweep);
  }

  lemma Unrevived(cfg: Config, s: State, trace: seq<Event>, e: Event)
    requires Revivals(cfg, s, trace) == 0 && (Execute(cfg, s, trace).Active() || !Execute(cfg, s, trace + [e]).Active())
    ensures Revivals(cfg, s, trace + [e]) == 0
  {
    hide Step;
    assert (trace + [e])[..|trace|] == trace;
  }

  /** So the budget holds exactly for positive caps. */
  lemma BudgetHoldsIff(cfg: Config)
    ensures BudgetHolds(cfg) <==> cfg.cap > 0
  {
    if cfg.cap == 0 {
      var s, trace := CapZero(cfg);
    } else {
      forall s, trace | Initial(s) ensures Execute(cfg, s, trace).recoveries <= cfg.cap + Revivals(cfg, s, trace) {
        RetryBudget(cfg, s, trace);
      }
    }
  }

  /** At the cap, with no worker left on it. */
  ghost predicate Blocked(cfg: Config, s: State) {
    && s.status == Error && s.recoveries >= cfg.cap && (s.kind == Url || s.located)
    && (forall t | s.queue[t] > 0 :: t == Regenerate)
    && (forall r | s.runs[r] > 0 :: r == Replanning)
  }

  lemma BlockedRequest(cfg: Config, s: State, e: Event)
    requires Blocked(cfg, s) && e.IsRequest() && e != Retry(true) && e != ApprovePlan
    ensures Blocked(cfg, Request(cfg, s, e)) && Request(cfg, s, e).recoveries == s.recoveries
  {
    hide Add, Remove, Regenerations, Refinements;
  }

  lemma BlockedInterrupt(cfg: Config, s: State, e: Event)
    requires Blocked(cfg, s) && e.IsInterruption()
    ensures Blocked(cfg, Interrupt(s, e)) && Interrupt(s, e).recoveries == s.recoveries
  {
    hide Add, Remove, Regenerations, Refinements;
  }

  /** Only a regenerate run is left to advance. */
  lemma BlockedIdle(cfg: Config, s: State, e: Event)
    requires Blocked(cfg, s) && (e.IsPreparation() || e.IsPlanning())
    ensures Step(cfg, s, e) == s
  {
    hide Add, Remove, Regenerations, Refinements, Gate, RouteRun, Conclude;
    hide State.Enqueue, State.Dequeue, State.Begin, State.Advance, State.End, Regenerations, Refinements, Add, Remove;
  }

  lemma BlockedWorker(cfg: Config, s: State, e: Event)
    requires Blocked(cfg, s) && e.IsRefining()
    ensures Blocked(cfg, Write(s, e)) && Write(s, e).recoveries == s.recoveries
  {
    hide Add, Remove, Regenerations, Refinements, Open, State.Enqueue, State.Dequeue, State.Begin, State.Advance;
  }

  lemma BlockedStart(cfg: Config, s: State, t: Task)
    requires Blocked(cfg, s)
    ensures Blocked(cfg, StartTask(s, t)) && StartTask(s, t).recoveries == s.recoveries
  {
    hide Add, Remove, Regenerations, Refinements, State.Enqueue, State.Advance, State.End;
  }

  lemma StepKeepsBlocked(cfg: Config, s: State, e: Event)
    requires Blocked(cfg, s) && e != Retry(true) && e != ApprovePlan
    ensures Blocked(cfg, Step(cfg, s, e)) && Step(cfg, s, e).recoveries == s.recoveries
  {
    assert s.status == Error;
    hide Blocked, Request, Prepare, Plan, Write, Interrupt, StartTask;
    if e.IsRequest() {
      BlockedRequest(cfg, s, e);
    } else if e.IsInterruption() {
      BlockedInterrupt(cfg, s, e);
    } else if e.IsPreparation() || e.IsPlanning() {
      BlockedIdle(cfg, s, e);
    } else if e.IsRefining() {
      BlockedWorker(cfg, s, e);
    } else if e.Start? {
      BlockedStart(cfg, s, e.task);
    }
  }

  /** A source at its cap stays blocked, whatever happens, until an admin retries or a plan is approved. */
  lemma {:induction false} BlockedUntilReviewed(cfg: Config, s: State, trace: seq<Event>)
    requires Blocked(cfg, s) && Retry(true) !in trace && ApprovePlan !in trace
    ensures Blocked(cfg, Execute(cfg, s, trace)) && Execute(cfg, s, trace).recoveries == s.recoveries
  {
    if trace != [] {
      var init, e := trace[..|trace| - 1], trace[|trace| - 1];
      assert trace == init + [e];
      BlockedUntilReviewed(cfg, s, init);
      StepKeepsBlocked(cfg, Execute(cfg, s, init), e);
    }
  }

  lemma Next(cfg: Config, s: State, trace: seq<Event>, e: Event)
    ensures Execute(cfg, s, trace + [e]) == Step(cfg, Execute(cfg, s, trace), e)
  {
    assert (trace + [e])[..|trace|] == trace;
  }

  lemma Idle(cfg: Config, s: State)
    ensures Execute(cfg, s, []) == s
  {}

  lemma AddRemove<T(!new)>(m: multiset<T>, x: T)
    ensures Remove(Add(m, x), x) == m
  {}

  lemma Requeued(s: State, t: Task, r: Run, next: Run)
    ensures s.Enqueue(t).Queued(t) && s.Enqueue(t).Begin(t, r).Running(r)
    ensures s.Enqueue(t).Begin(t, r).End(r) == s
    ensures s.Enqueue(t).Begin(t, r).Advance(r, next) == s.(runs := Add(s.runs, next))
  {
    hide Regenerations, Refinements;
    AddRemove(s.queue, t);
    AddRemove(s.runs, r);
    hide Add, Remove;
  }

  lemma DepartmentSteps(cfg: Config, s: State, busy: State)
    requires s.status == Ready && s.fullText && busy == s.(status := Processing)
    ensures Step(cfg, s, EditDepartments(true)) == busy.Enqueue(MapReduce)
    ensures Step(cfg, busy.Enqueue(MapReduce), Start(MapReduce)) == busy.Enqueue(MapReduce).Begin(MapReduce, MapStarted(s.phase))
    ensures var started := busy.Enqueue(MapReduce).Begin(MapReduce, MapStarted(s.phase));
            Step(cfg, started, Route(s.phase)) == RouteRun(cfg, started, s.phase)
  {
    Requeued(busy, MapReduce, MapStarted(s.phase), Probing);
    hide Regenerations, Refinements, RouteRun, State.Enqueue, State.Begin, State.End, State.Advance, State.Queued, State.Running;
    var queued := busy.Enqueue(MapReduce);
    assert queued.(status := Processing) == queued;
  }

  /** The phases the map-reduce task takes for work that is already past it. */
  predicate PastMapping(p: Phase) { p in {Refine, Verify, Commit} }

  predicate Reviewable(s: State) {
    s.phase == PlanReview && (s.plan == Some(PendingReview) || s.plan == Some(Approved))
  }

  /** Where the map-reduce task queued by a department change leaves a finished source. */
  function AfterDepartmentChange(cfg: Config, s: State): State {
    var trace := [] + [EditDepartments(true)] + [Start(MapReduce)] + [Route(s.phase)];
    Execute(cfg, s, trace)
  }

  function Rerouted(cfg: Config, s: State): State {
    if PastMapping(s.phase) then s.(status := Processing)
    else if Reviewable(s) then
      s.(status := Processing, runs := Add(s.runs, Planned(cfg.autoApprove || s.plan == Some(Approved))))
    else s.(status := Processing, runs := Add(s.runs, Probing))
  }

  lemma DepartmentRoute(cfg: Config, s: State, busy: State)
    requires busy == s.(status := Processing)
    ensures RouteRun(cfg, busy.Enqueue(MapReduce).Begin(MapReduce, MapStarted(s.phase)), s.phase) == Rerouted(cfg, s)
  {
    Requeued(busy, MapReduce, MapStarted(s.phase), Probing);
    Requeued(busy, MapReduce, MapStarted(s.phase), Planned(cfg.autoApprove || s.plan == Some(Approved)));
    hide Add, Remove, State.Enqueue, State.Begin, State.Advance, State.End, Regenerations, Refinements;
  }

  /** It leaves the source `processing` with no new run, with the old plan to conclude, or about to map. */
  lemma DepartmentChange(cfg: Config, s: State)
    requires s.status == Ready && s.fullText
    ensures AfterDepartmentChange(cfg, s) == Rerouted(cfg, s)
  {
    var busy := s.(status := Processing);
    DepartmentSteps(cfg, s, busy);
    DepartmentRoute(cfg, s, busy);
    hide Step, Execute, Rerouted, RouteRun, Add, Remove, State.Enqueue, State.Begin, State.Advance, State.End, Regenerations, Refinements;
    Idle(cfg, s);
    Next(cfg, s, [], EditDepartments(true));
    Next(cfg, s, [] + [EditDepartments(true)], Start(MapReduce));
    Next(cfg, s, [] + [EditDepartments(true)] + [Start(MapReduce)], Route(s.phase));
  }

  /**
   A department change maps the source again exactly if the phase it was left in is neither past
   mapping nor a review of a pending or approved plan. After an ordinary finish it never does.
   */
  lemma DepartmentRemapsIff(cfg: Config, s: State)
    requires s.status == Ready && s.fullText
    ensures AfterDepartmentChange(cfg, s).runs[Probing] > s.runs[Probing] <==> !PastMapping(s.phase) && !Reviewable(s)
  {
    DepartmentChange(cfg, s);
    hide AfterDepartmentChange, Add;
  }

  // ----- a retry resumes -----

  /** A retry, the start of a queued task, and that task's next transaction. */
  function AfterRetry(cfg: Config, s: State, admin: bool, task: Task, next: Event): State {
    var trace := [] + [Retry(admin)] + [Start(task)] + [next];
    Execute(cfg, s, trace)
  }

  lemma AfterRetrySteps(cfg: Config, s: State, admin: bool, task: Task, next: Event)
    ensures AfterRetry(cfg, s, admin, task, next) == Step(cfg, Step(cfg, Step(cfg, s, Retry(admin)), Start(task)), next)
  {
    hide Step, Execute;
    Idle(cfg, s);
    Next(cfg, s, [], Retry(admin));
    Next(cfg, s, [] + [Retry(admin)], Start(task));
    Next(cfg, s, [] + [Retry(admin)] + [Start(task)], next);
  }

  lemma RetryQueues(cfg: Config, s: State, admin: bool)
    requires MayRetry(cfg, s, admin)
    ensures Step(cfg, s, Retry(admin)) == s.(status := Pending).Enqueue(RetryTask(s))
  {
    hide State.Enqueue, RetryTask;
  }

  /** The state between start and next transaction: nothing is queued that was not, and the task has its run. */
  lemma RetryStarts(cfg: Config, s: State, admin: bool, r: Run)
    requires MayRetry(cfg, s, admin) && r.Origin() == RetryTask(s) && s.fullText
    requires r == MapStarted(s.phase) || r == RefineStarted(s.phase)
    ensures Step(cfg, Step(cfg, s, Retry(admin)), Start(r.Origin())) == s.(status := Processing, runs := Add(s.runs, r))
  {
    hide State.Enqueue, State.Begin, State.Advance, State.End, Add, Remove, Regenerations, Refinements, RetryTask, MayRetry;
    RetryQueues(cfg, s, admin);
    Relabel(s, r.Origin(), r);
  }

  lemma Relabel(s: State, t: Task, r: Run)
    ensures s.(status := Pending).Enqueue(t).Queued(t)
    ensures s.(status := Pending).Enqueue(t).(status := Processing).Begin(t, r) == s.(status := Processing, runs := Add(s.runs, r))
  {
    hide Regenerations, Refinements;
    AddRemove(s.queue, t);
    hide Add, Remove;
  }

  lemma Replaced(s: State, r: Run, next: Run)
    ensures s.(runs := Add(s.runs, r)).Running(r)
    ensures s.(runs := Add(s.runs, r)).Advance(r, next) == s.(runs := Add(s.runs, next))
    ensures s.(runs := Add(s.runs, r)).End(r) == s
  {
    hide Regenerations, Refinements;
    AddRemove(s.runs, r);
    hide Add, Remove;
  }

  /**
   A source retried in refine, verify or commit goes on writing, or verifying when it has saved drafts past the
   refine phase; without a usable plan it fails again.
   */
  lemma RetryResumesRefining(cfg: Config, s: State, admin: bool, drafts: bool)
    requires MayRetry(cfg, s, admin) && s.fullText && (s.phase == Refine || s.phase == Verify || s.phase == Commit)
    ensures AfterRetry(cfg, s, admin, RefinePages, OpenRefine(s.phase, drafts)) ==
              if !(s.plan == Some(Approved) || s.plan == Some(InProgress) || s.plan == Some(Done)) then s.(status := Error)
              else if s.phase == Refine then
                s.(status := Processing, plan := Some(InProgress), runs := Add(s.runs, Writing))
              else if drafts then s.(status := Processing, phase := Verify, runs := Add(s.runs, Verifying))
              else s.(status := Processing, phase := Refine, runs := Add(s.runs, Writing))
  {
    AfterRetrySteps(cfg, s, admin, RefinePages, OpenRefine(s.phase, drafts));
    RetryStarts(cfg, s, admin, RefineStarted(s.phase));
    OpenedRefine(cfg, s.(status := Processing), drafts);
    hide Step, AfterRetry, Add;
  }

  lemma OpenedRefine(cfg: Config, s: State, drafts: bool)
    ensures Step(cfg, s.(runs := Add(s.runs, RefineStarted(s.phase))), OpenRefine(s.phase, drafts)) ==
              if !PlanUsable(s.plan) then s.(status := Error)
              else if s.phase != Verify && s.phase != Commit then
                s.(phase := Refine, plan := Some(InProgress), runs := Add(s.runs, Writing))
              else if drafts then s.(phase := Verify, runs := Add(s.runs, Verifying))
              else s.(phase := Refine, runs := Add(s.runs, Writing))
  {
    var r, started := RefineStarted(s.phase), s.(runs := Add(s.runs, RefineStarted(s.phase)));
    Replaced(s.(status := Error), r, r);
    Replaced(s.(phase := Refine, plan := Some(InProgress)), r, Writing);
    Replaced(s.(phase := Verify), r, Verifying);
    Replaced(s.(phase := Refine), r, Writing);
    hide Add, Remove, Regenerations, Refinements, State.Advance, State.End, PlanUsable;
    hide Request, Prepare, Plan, Interrupt, StartTask;
  }

  /** One retried on the way to a plan maps again, or concludes the plan that is under review. */
  lemma RetryResumesMapping(cfg: Config, s: State, admin: bool)
    requires MayRetry(cfg, s, admin) && s.fullText
    requires s.phase == Map || s.phase == Reduce || s.phase == PlanReview || (s.phase == NoPhase && s.status == PlanReady)
    ensures AfterRetry(cfg, s, admin, MapReduce, Route(s.phase)) ==
              s.(status := Processing,
                 runs := Add(s.runs, if s.phase == PlanReview && (s.plan == Some(PendingReview) || s.plan == Some(Approved))
                                     then Planned(cfg.autoApprove || s.plan == Some(Approved)) else Probing))
  {
    AfterRetrySteps(cfg, s, admin, MapReduce, Route(s.phase));
    RetryStarts(cfg, s, admin, MapStarted(s.phase));
    RoutedMap(cfg, s.(status := Processing));
    hide Step, AfterRetry, Add;
  }

  lemma RoutedMap(cfg: Config, s: State)
    requires !PastMapping(s.phase)
    ensures Step(cfg, s.(runs := Add(s.runs, MapStarted(s.phase))), Route(s.phase)) ==
              s.(runs := Add(s.runs, if s.phase == PlanReview && (s.plan == Some(PendingReview) || s.plan == Some(Approved))
                                     then Planned(cfg.autoApprove || s.plan == Some(Approved)) else Probing))
  {
    Replaced(s, MapStarted(s.phase), Probing);
    Replaced(s, MapStarted(s.phase), Planned(cfg.autoApprove || s.plan == Some(Approved)));
    hide Add, Remove, Regenerations, Refinements, State.Advance, State.End;
    hide Request, Prepare, Write, Interrupt, StartTask;
  }

  /** One that failed before any phase is ingested again, by the task of its kind. */
  lemma RetryRestarts(cfg: Config, s: State, admin: bool)
    requires MayRetry(cfg, s, admin) && s.phase == NoPhase && s.status == Error
    ensures var task := if s.kind == File then IngestFile else IngestUrl;
            Execute(cfg, s, [] + [Retry(admin)] + [Start(task)]) == s.(status := Processing, runs := Add(s.runs, Extracting(s.kind)))
  {
    var task := if s.kind == File then IngestFile else IngestUrl;
    RetryQueues(cfg, s, admin);
    Relabel(s, task, Extracting(s.kind));
    IngestBegins(cfg, s.(status := Pending).Enqueue(task), task);
    hide Step, Execute, Add, State.Enqueue, State.Begin;
    Idle(cfg, s);
    Next(cfg, s, [], Retry(admin));
    Next(cfg, s, [] + [Retry(admin)], Start(task));
  }

  lemma IngestBegins(cfg: Config, s: State, task: Task)
    requires s.located && s.Queued(task) && (task == IngestFile || task == IngestUrl)
    ensures Step(cfg, s, Start(task)) == s.(status := Processing).Begin(task, Extracting(if task == IngestFile then File else Url))
  {
    hide State.Begin, State.Dequeue, Add, Remove, Request, Prepare, Plan, Write, Interrupt;
  }

  // ----- captions before the map -----

  /**
   A source with images is queued for captioning when it passes the token gate or is approved, one without
   goes straight to map-reduce; and captioning, done or skipped, queues map-reduce.
   */
  lemma ImagesCaptionedFirst(cfg: Config, s: State, k: Kind)
    ensures s.Running(Extracted(k)) && cfg.tokens <= cfg.threshold ==>
              && Step(cfg, s, GateExtraction(k, true)).queue == Add(s.queue, Captions)
              && Step(cfg, s, GateExtraction(k, false)).queue == Add(s.queue, MapReduce)
              && Step(cfg, s, GateExtraction(k, true)).status == Processing
              && Step(cfg, s, GateExtraction(k, false)).status == Processing
    ensures s.Running(Extracted(k)) && cfg.tokens > cfg.threshold ==> forall images ::
              && Step(cfg, s, GateExtraction(k, images)).queue == s.queue
              && Step(cfg, s, GateExtraction(k, images)).status == AwaitingApproval
    ensures s.status == AwaitingApproval ==>
              && Step(cfg, s, ApproveExtraction(true)) == s.(status := Processing, queue := Add(s.queue, Captions))
              && Step(cfg, s, ApproveExtraction(false)) == s.(status := Processing, queue := Add(s.queue, MapReduce))
    ensures s.Running(Captioning) ==>
              Step(cfg, s, CaptionsDone) == s.(runs := Remove(s.runs, Captioning), queue := Add(s.queue, MapReduce))
    ensures s.Queued(Captions) ==>
              Step(cfg, s, SkipCaptions) == s.(status := Processing, queue := Add(Remove(s.queue, Captions), MapReduce))
  {
    hide Add, Remove, Regenerations, Refinements, Plan, Write, Interrupt, StartTask;
  }

  // ----- plan exclusion -----

  /** At most one regenerate task is queued or running, and while one is, the plan is `regenerating`. */
  predicate Exclusive(s: State) {
    s.Outstanding() <= 1 && (s.Outstanding() == 1 ==> s.plan == Some(Regenerating))
  }

  /** A map-reduce run or a refine run overwrites the plan under an outstanding regenerate task, or that task is delivered twice. */
  predicate Collides(s: State, e: Event) {
    && s.Outstanding() == 1
    && (|| (e == ReduceDone && s.Running(Reducing))
        || (e.CommitDone? && s.Running(Verifying))
        || (e == Duplicate(Replanning) && s.Running(Replanning)))
  }

  lemma ExclusionPlan(cfg: Config, s: State, e: Event)
    requires Exclusive(s) && e.IsPlanning()
    ensures Exclusive(Plan(cfg, s, e)) <==> !Collides(s, e)
  {
    hide State.Enqueue, State.Dequeue, State.Begin, State.Advance, State.End, Regenerations, Refinements, Add, Remove;
  }

  lemma ExclusionWrite(s: State, e: Event)
    requires Exclusive(s) && e.IsRefining()
    ensures Exclusive(Write(s, e)) <==> !Collides(s, e)
  {
    hide State.Enqueue, State.Dequeue, State.Begin, State.Advance, State.End, Regenerations, Refinements, Add, Remove;
  }

  lemma ExclusionInterrupt(s: State, e: Event)
    requires Exclusive(s) && e.IsInterruption()
    ensures Exclusive(Interrupt(s, e)) <==> !Collides(s, e)
  {
    hide State.Enqueue, State.Dequeue, State.Begin, State.Advance, State.End, Regenerations, Refinements, Add, Remove;
  }

  lemma ExclusionRequest(cfg: Config, s: State, e: Event)
    requires Exclusive(s) && e.IsRequest()
    ensures Exclusive(Request(cfg, s, e))
  {
    hide State.Enqueue, State.Dequeue, State.Begin, State.Advance, State.End, Regenerations, Refinements, Add, Remove;
  }

  lemma ExclusionPrepare(cfg: Config, s: State, e: Event)
    requires Exclusive(s) && e.IsPreparation()
    ensures Exclusive(Prepare(cfg, s, e))
  {
    hide State.Enqueue, State.Dequeue, State.Begin, State.Advance, State.End, Regenerations, Refinements, Add, Remove;
  }

  lemma ExclusionStart(s: State, t: Task)
    requires Exclusive(s)
    ensures Exclusive(StartTask(s, t))
  {
    hide State.Enqueue, State.Dequeue, State.Begin, State.Advance, State.End, Regenerations, Refinements, Add, Remove;
  }

  lemma OnlyWorkersCollide(s: State, e: Event)
    requires Collides(s, e)
    ensures e.IsPlanning() || e.IsRefining() || e.IsInterruption()
  {}

  /** Exactly the collisions lose exclusion. */
  lemma ExclusionLostIff(cfg: Config, s: State, e: Event)
    requires Exclusive(s)
    ensures Exclusive(Step(cfg, s, e)) <==> !Collides(s, e)
  {
    assert e == Sweep ==> Exclusive(Step(cfg, s, e));
    if Collides(s, e) { OnlyWorkersCollide(s, e); }
    hide Request, Prepare, Plan, Write, Interrupt, StartTask, Exclusive, Collides, Regenerations, Refinements;
    if e.IsRequest() {
      ExclusionRequest(cfg, s, e);
    } else if e.IsPlanning() {
      ExclusionPlan(cfg, s, e);
    } else if e.IsRefining() {
      ExclusionWrite(s, e);
    } else if e.IsInterruption() {
      ExclusionInterrupt(s, e);
    } else if e.IsPreparation() {
      ExclusionPrepare(cfg, s, e);
    } else if e.Start? {
      ExclusionStart(s, e.task);
    }
  }

  /** No step of the run collides. */
  predicate CollisionFree(cfg: Config, s: State, trace: seq<Event>) {
    trace == [] ||
    (CollisionFree(cfg, s, trace[..|trace| - 1])
     && !Collides(Execute(cfg, s, trace[..|trace| - 1]), trace[|trace| - 1]))
  }

  /** Exclusion holds before, between and after the steps of the run. */
  predicate ExclusiveThroughout(cfg: Config, s: State, trace: seq<Event>) {
    && Exclusive(Execute(cfg, s, trace))
    && (trace != [] ==> ExclusiveThroughout(cfg, s, trace[..|trace| - 1]))
  }

  /** Over whole runs: exclusion holds at every point exactly when no step collides. */
  lemma {:induction false} ExclusionIff(cfg: Config, s: State, trace: seq<Event>)
    requires Exclusive(s)
    ensures ExclusiveThroughout(cfg, s, trace) <==> CollisionFree(cfg, s, trace)
  {
    if trace != [] {
      var init, e := trace[..|trace| - 1], trace[|trace| - 1];
      ExclusionIff(cfg, s, init);
      if ExclusiveThroughout(cfg, s, init) { ExclusionLostIff(cfg, Execute(cfg, s, init), e); }
      hide Step, Collides, Exclusive;
    }
  }

  /** So in a collision-free run the regenerate task's write back always replaces `regenerating`, never an approval. */
  lemma RegenerateWritesOverRegenerating(cfg: Config, s: State, trace: seq<Event>)
    requires Initial(s) && CollisionFree(cfg, s, trace)
    ensures var now := Execute(cfg, s, trace); now.Running(Replanning) ==> now.plan == Some(Regenerating)
  {
    assert Exclusive(s);
    ExclusionIff(cfg, s, trace);
  }

  /** A map-reduce run writes a plan although there is one. */
  predicate Replans(s: State, e: Event) { e == ReduceDone && s.Running(Reducing) && s.plan.Some? }

  /** The run neither replans nor delivers a running regenerate task a second time. */
  predicate PlansOnce(cfg: Config, s: State, trace: seq<Event>) {
    trace == [] ||
    (PlansOnce(cfg, s, trace[..|trace| - 1])
     && !Replans(Execute(cfg, s, trace[..|trace| - 1]), trace[|trace| - 1])
     && trace[|trace| - 1] != Duplicate(Replanning))
  }

  /** Refine runs past their check hold a plan that was approved. */
  predicate Orderly(s: State) {
    Exclusive(s) && (s.Refiners() > 0 ==> PlanUsable(s.plan))
  }

  lemma OrderlyPlan(cfg: Config, s: State, e: Event)
    requires Orderly(s) && e.IsPlanning() && !Replans(s, e)
    ensures Plan(cfg, s, e).Refiners() > 0 ==> PlanUsable(Plan(cfg, s, e).plan)
    ensures PlanUsable(s.plan) ==> PlanUsable(Plan(cfg, s, e).plan)
  {
    hide State.Enqueue, State.Dequeue, State.Begin, State.Advance, State.End, Regenerations, Refinements, Add, Remove;
  }

  lemma OrderlyWrite(s: State, e: Event)
    requires Orderly(s) && e.IsRefining()
    ensures Write(s, e).Refiners() > 0 ==> PlanUsable(Write(s, e).plan)
    ensures PlanUsable(s.plan) ==> PlanUsable(Write(s, e).plan)
  {
    hide State.Enqueue, State.Dequeue, State.Begin, State.Advance, State.End, Regenerations, Refinements, Add, Remove;
  }

  lemma OrderlyRequest(cfg: Config, s: State, e: Event)
    requires Orderly(s) && e.IsRequest()
    ensures Request(cfg, s, e).Refiners() > 0 ==> PlanUsable(Request(cfg, s, e).plan)
    ensures PlanUsable(s.plan) ==> PlanUsable(Request(cfg, s, e).plan)
  {
    hide State.Enqueue, State.Dequeue, State.Begin, State.Advance, State.End, Regenerations, Refinements, Add, Remove;
  }

  lemma OrderlyRest(cfg: Config, s: State, e: Event)
    requires Orderly(s) && !e.IsRequest() && !e.IsPlanning() && !e.IsRefining()
    ensures Step(cfg, s, e).Refiners() <= s.Refiners() && Step(cfg, s, e).plan == s.plan
  {
    hide State.Enqueue, State.Dequeue, State.Begin, State.Advance, State.End, Regenerations, Refinements, Orderly;
  }

  /** Without a replan or a duplicate delivery nothing collides, and an approval is never undone. */
  lemma StepKeepsOrder(cfg: Config, s: State, e: Event)
    requires Orderly(s) && !Replans(s, e) && e != Duplicate(Replanning)
    ensures Orderly(Step(cfg, s, e)) && !Collides(s, e)
    ensures PlanUsable(s.plan) ==> PlanUsable(Step(cfg, s, e).plan)
  {
    hide Request, Prepare, Plan, Write, Interrupt, StartTask, Regenerations, Refinements;
    ExclusionLostIff(cfg, s, e);
    if e.IsRequest() {
      OrderlyRequest(cfg, s, e);
    } else if e.IsPlanning() {
      OrderlyPlan(cfg, s, e);
    } else if e.IsRefining() {
      OrderlyWrite(s, e);
    } else {
      OrderlyRest(cfg, s, e);
    }
  }

  function Approvals(cfg: Config, s: State, trace: seq<Event>): nat {
    if trace == [] then 0
    else
      var init := trace[..|trace| - 1];
      Approvals(cfg, s, init)
      + if trace[|trace| - 1] == ApprovePlan && Execute(cfg, s, init).plan == Some(PendingReview) then 1 else 0
  }

  /** In such a run exclusion holds throughout and at most one approval enqueues a refine task. */
  lemma {:induction false} OneApproval(cfg: Config, s: State, trace: seq<Event>)
    requires Initial(s) && PlansOnce(cfg, s, trace)
    ensures ExclusiveThroughout(cfg, s, trace) && Orderly(Execute(cfg, s, trace))
    ensures Approvals(cfg, s, trace) == 0 || (Approvals(cfg, s, trace) == 1 && PlanUsable(Execute(cfg, s, trace).plan))
  {
    if trace == [] {
      assert Orderly(s);
    } else {
      var init, e := trace[..|trace| - 1], trace[|trace| - 1];
      OneApproval(cfg, s, init);
      var before := Execute(cfg, s, init);
      StepKeepsOrder(cfg, before, e);
      assert e == ApprovePlan && before.plan == Some(PendingReview) ==> PlanUsable(Step(cfg, before, e).plan);
      hide Step, Replans;
    }
  }

  // ----- how a replan undoes an approval -----

  lemma Frame(s: State, t: Task, from: Run, to: Run)
    ensures s.Enqueue(t).Queued(t)
    ensures s.Begin(t, to).Running(to) && s.Advance(from, to).Running(to)
    ensures s.Running(Replanning) ==> s.Begin(t, to).Running(Replanning)
    ensures s.Running(Replanning) && from != Replanning ==>
              s.Advance(from, to).Running(Replanning) && s.End(from).Running(Replanning)
  {
    hide Regenerations, Refinements, Add, Remove;
  }

  lemma ReplanSteps(cfg: Config, s: State)
    ensures s.plan == Some(PendingReview) ==>
              Step(cfg, s, RegeneratePlan(true)) == s.(plan := Some(Regenerating)).Enqueue(Regenerate)
    ensures s.Queued(Regenerate) && s.plan.Some? ==> Step(cfg, s, Start(Regenerate)) == s.Begin(Regenerate, Replanning)
    ensures MayRetry(cfg, s, false) && s.phase == PlanReview ==>
              Step(cfg, s, Retry(false)) == s.(status := Pending).Enqueue(MapReduce)
  {
    hide State.Enqueue, State.Dequeue, State.Begin, State.Advance, State.End, Regenerations, Refinements, Add, Remove;
  }

  /** Reviewer asks for a new plan, a worker starts on it, an editor retries. */
  lemma ReplanBegins(cfg: Config, s: State) returns (after: State)
    requires s.status == PlanReady && s.phase == PlanReview && s.plan == Some(PendingReview) && s.fullText
    requires MayRetry(cfg, s, false)
    ensures after == Step(cfg, Step(cfg, Step(cfg, s, RegeneratePlan(true)), Start(Regenerate)), Retry(false))
    ensures after.phase == PlanReview && after.plan == Some(Regenerating) && after.fullText
    ensures after.Queued(MapReduce) && after.Running(Replanning)
  {
    var asked := s.(plan := Some(Regenerating)).Enqueue(Regenerate);
    var planning := asked.Begin(Regenerate, Replanning);
    after := planning.(status := Pending).Enqueue(MapReduce);
    ReplanSteps(cfg, s);
    ReplanSteps(cfg, asked);
    ReplanSteps(cfg, planning);
    Frame(s.(plan := Some(Regenerating)), Regenerate, Probing, Replanning);
    Frame(asked, Regenerate, Probing, Replanning);
    Frame(planning.(status := Pending), MapReduce, Probing, Replanning);
    hide Step, Add, Remove, Regenerations, Refinements, State.Enqueue, State.Begin;
  }

  lemma MapStarts(cfg: Config, s: State)
    ensures s.Queued(MapReduce) && s.fullText ==>
              Step(cfg, s, Start(MapReduce)) == s.(status := Processing).Begin(MapReduce, MapStarted(s.phase))
    ensures s.Running(MapStarted(PlanReview)) && s.plan == Some(Regenerating) ==>
              Step(cfg, s, Route(PlanReview)) == s.Advance(MapStarted(PlanReview), Probing)
  {
    hide State.Enqueue, State.Dequeue, State.Begin, State.Advance, State.End, Regenerations, Refinements, Add, Remove, Conclude;
  }

  lemma MapSteps(cfg: Config, s: State)
    ensures s.Running(Probing) ==> Step(cfg, s, BeginMap) == s.(phase := Map).Advance(Probing, Mapping)
    ensures s.Running(Mapping) ==> Step(cfg, s, MapDone) == s.(phase := Reduce).Advance(Mapping, Reducing)
    ensures s.Running(Reducing) ==>
              Step(cfg, s, ReduceDone) ==
              s.(plan := Some(PendingReview), phase := PlanReview).Advance(Reducing, Planned(cfg.autoApprove))
  {
    hide State.Enqueue, State.Dequeue, State.Begin, State.Advance, State.End, Regenerations, Refinements, Add, Remove, Conclude;
  }

  /** The retried map-reduce run finds the plan `regenerating`, so it maps and reduces again. */
  lemma ReplanMaps(cfg: Config, s: State) returns (after: State)
    requires s.phase == PlanReview && s.plan == Some(Regenerating) && s.fullText
    requires s.Queued(MapReduce) && s.Running(Replanning)
    ensures after == Step(cfg, Step(cfg, Step(cfg, Step(cfg, Step(cfg, s, Start(MapReduce)), Route(PlanReview)), BeginMap), MapDone), ReduceDone)
    ensures after.plan == Some(PendingReview) && after.Running(Planned(cfg.autoApprove)) && after.Running(Replanning)
  {
    var started := s.(status := Processing).Begin(MapReduce, MapStarted(PlanReview));
    var probing := started.Advance(MapStarted(PlanReview), Probing);
    var mapping := probing.(phase := Map).Advance(Probing, Mapping);
    var reducing := mapping.(phase := Reduce).Advance(Mapping, Reducing);
    after := reducing.(plan := Some(PendingReview), phase := PlanReview).Advance(Reducing, Planned(cfg.autoApprove));
    MapStarts(cfg, s);
    MapStarts(cfg, started);
    MapSteps(cfg, probing);
    MapSteps(cfg, mapping);
    MapSteps(cfg, reducing);
    Frame(s.(status := Processing), MapReduce, Probing, MapStarted(PlanReview));
    Frame(started, MapReduce, MapStarted(PlanReview), Probing);
    Frame(probing.(phase := Map), MapReduce, Probing, Mapping);
    Frame(mapping.(phase := Reduce), MapReduce, Mapping, Reducing);
    Frame(reducing.(plan := Some(PendingReview), phase := PlanReview), MapReduce, Reducing, Planned(cfg.autoApprove));
    hide Step, Add, Remove, Regenerations, Refinements, State.Enqueue, State.Begin, State.Advance;
  }

  lemma ApproveSteps(cfg: Config, s: State)
    ensures s.Running(Planned(false)) ==>
              Step(cfg, s, FinishPlan(false, true, false)) == s.End(Planned(false)).(status := PlanReady, recoveries := 0)
    ensures s.plan == Some(PendingReview) ==>
              Step(cfg, s, ApprovePlan) == s.(plan := Some(Approved), status := Processing).Enqueue(RefinePages)
    ensures s.Running(Replanning) ==> Step(cfg, s, RegenerateDone(Regenerating)).plan == Some(PendingReview)
  {
    hide State.Enqueue, State.Begin, State.Advance, State.End, Regenerations, Refinements, Add, Remove;
  }

  /** Its plan is approved while the regenerate run is still at work; that run then takes the approval back. */
  lemma ReplanApproved(cfg: Config, s: State) returns (approved: State)
    requires s.plan == Some(PendingReview) && s.Running(Planned(false)) && s.Running(Replanning)
    ensures approved == Step(cfg, Step(cfg, s, FinishPlan(false, true, false)), ApprovePlan)
    ensures approved.plan == Some(Approved) && approved.Queued(RefinePages) && approved.Running(Replanning)
    ensures Step(cfg, approved, RegenerateDone(Regenerating)).plan == Some(PendingReview)
  {
    Frame(s, MapReduce, Planned(false), Mapping);
    var ready := s.End(Planned(false)).(status := PlanReady, recoveries := 0);
    var busy := ready.(plan := Some(Approved), status := Processing);
    approved := busy.Enqueue(RefinePages);
    Frame(busy, RefinePages, Planned(false), Mapping);
    ApproveSteps(cfg, s);
    ApproveSteps(cfg, ready);
    ApproveSteps(cfg, approved);
    hide Step, Add, Remove, Regenerations, Refinements, State.Enqueue, State.End;
  }

  /**
   Every source waiting for a manual review can be driven here by a regenerate request and a retry: the plan
   is approved and its refine task queued, and the next step sends it back to `pending_review`.
   */
  lemma ReplanUndoesApproval(cfg: Config, s: State) returns (trace: seq<Event>)
    requires s.status == PlanReady && s.phase == PlanReview && s.plan == Some(PendingReview) && s.fullText
    requires MayRetry(cfg, s, false) && !cfg.autoApprove
    ensures var now := Execute(cfg, s, trace);
            && now.plan == Some(Approved) && now.Queued(RefinePages)
            && Step(cfg, now, RegenerateDone(Regenerating)).plan == Some(PendingReview)
  {
    var a := ReplanBegins(cfg, s);
    var b := ReplanMaps(cfg, a);
    var c := ReplanApproved(cfg, b);
    hide Step, Execute, State.Queued, State.Running;
    Idle(cfg, s);
    Next(cfg, s, [], RegeneratePlan(true));
    var t1 := [] + [RegeneratePlan(true)];
    Next(cfg, s, t1, Start(Regenerate));
    var t2 := t1 + [Start(Regenerate)];
    Next(cfg, s, t2, Retry(false));
    var t3 := t2 + [Retry(false)];
    Next(cfg, s, t3, Start(MapReduce));
    var t4 := t3 + [Start(MapReduce)];
    Next(cfg, s, t4, Route(PlanReview));
    var t5 := t4 + [Route(PlanReview)];
    Next(cfg, s, t5, BeginMap);
    var t6 := t5 + [BeginMap];
    Next(cfg, s, t6, MapDone);
    var t7 := t6 + [MapDone];
    Next(cfg, s, t7, ReduceDone);
    var t8 := t7 + [ReduceDone];
    Next(cfg, s, t8, FinishPlan(false, true, false));
    var t9 := t8 + [FinishPlan(false, true, false)];
    Next(cfg, s, t9, ApprovePlan);
    trace := t9 + [ApprovePlan];
  }
}
