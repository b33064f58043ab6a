/**
 Online embedding migration as a state machine with one step per database transaction, and one for each
 decision that a request or a worker takes from what it read before.

 A job re-embeds a snapshot of the pages under a new spec in batches, then flips the active
 spec and deletes all other rows in one transaction. Admins, editors, the compiler, the settings and
 worker crashes may step in between any two steps.
 */
module Migration {
  import opened Options
  import opened EmbeddingStorage

  const BATCH: nat := 50

  type JobId = nat

  datatype JobStatus = Pending | Running | Completed | Failed | Cancelled

  datatype Job = Job(spec: Spec, status: JobStatus, total: nat, done: nat) {
    predicate InFlight() { status == Pending || status == Running }
  }

  /**
   What a worker executing a job holds in memory between transactions. `decided` once it has read, for the
   last time, that the job is not cancelled.
   */
  datatype Run = Run(snapshot: seq<PageId>, offset: nat, decided: bool)

  type WriterId = nat

  /**
   `cleared` are switch requests that have found no job in flight, under the id of the job they will insert;
   `enqueuing` are those that have committed it but are still handing it to the queue. `picked` are jobs a
   worker has read but not yet marked running, with the status it read. `writers` are pipeline runs and the
   spec each of them read when it began.
   */
  datatype Db = Db(
    pages: map<PageId, Page>,
    used: set<PageId>, // every id ever handed out; ids are not reused
    tables: Tables,
    active: Option<Spec>,
    jobs: map<JobId, Job>,
    runs: map<JobId, Run>,
    cleared: set<JobId>,
    enqueuing: set<JobId>,
    picked: map<JobId, JobStatus>,
    writers: map<WriterId, Spec>)

  datatype Event =
    | Ask(job: JobId)
    | Switch(job: JobId, spec: Spec)
    | Enqueued(job: JobId)
    | EnqueueFails(job: JobId)
    | Cancel(job: JobId)
    | PickUp(job: JobId)
    | Start(job: JobId, order: seq<PageId>)
    | StartFails(job: JobId)
    | Batch(job: JobId)
    | BatchFails(job: JobId)
    | Decide(job: JobId)
    | Flip(job: JobId)
    | Crash(job: JobId)
    | CreatePage(page: PageId, text: Page)
    | EditPage(page: PageId, text: Page)
    | DeletePage(page: PageId)
    | Compile(touched: seq<PageId>)
    | OpenWriter(writer: WriterId)
    | WriterCommits(writer: WriterId, page: PageId, text: Page)
    | SetActive(chosen: Option<Spec>)

  // ----- steps -----

  predicate SomeInFlight(db: Db) {
    exists j | j in db.jobs :: db.jobs[j].InFlight()
  }

  predicate Distinct<T(==)>(s: seq<T>) {
    forall i, k | 0 <= i < k < |s| :: s[i] != s[k]
  }

  /** `order` is some result of selecting the ids of all pages that are not `_index` or `_log`. */
  predicate IsSelection(db: Db, order: seq<PageId>) {
    && Distinct(order)
    && (forall p | p in order :: p in db.pages && !db.pages[p].reserved)
    && (forall p | p in db.pages && !db.pages[p].reserved :: p in order)
  }

  /** A worker picks a job up: first delivery, or redelivery after a crash. */
  predicate CanPick(db: Db, j: JobId) {
    j in db.jobs && db.jobs[j].InFlight() && j !in db.runs && j !in db.picked
  }

  predicate CanStart(db: Db, j: JobId) {
    j in db.picked && j in db.jobs
  }

  function SetStatus(db: Db, j: JobId, st: JobStatus): Db
    requires j in db.jobs
  {
    db.(jobs := db.jobs[j := db.jobs[j].(status := st)])
  }

  function EndRun(db: Db, j: JobId): Db {
    db.(runs := db.runs - {j})
  }

  function PutBack(db: Db, j: JobId): Db {
    db.(picked := db.picked - {j})
  }

  /**
   The status is written over whatever it is by now, unless the worker read `running`: assigning the value
   that was read is no change.
   */
  function StartRun(db: Db, j: JobId, order: seq<PageId>): Db
    requires CanStart(db, j)
  {
    var status := if db.picked[j] == Running then db.jobs[j].status else Running;
    PutBack(db, j).(
      jobs := db.jobs[j := db.jobs[j].(status := status, total := |order|, done := 0)],
      runs := db.runs[j := Run(order, 0, false)])
  }

  function Slice(r: Run): seq<PageId>
    requires r.offset <= |r.snapshot|
  {
    r.snapshot[r.offset..if r.offset + BATCH <= |r.snapshot| then r.offset + BATCH else |r.snapshot|]
  }

  /** Upsert rows for those of `ids` that still exist. */
  function UpsertLive(t: Tables, pages: map<PageId, Page>, s: Spec, ids: seq<PageId>): Tables {
    if ids == [] then t
    else
      var rest := UpsertLive(t, pages, s, ids[..|ids| - 1]);
      var p := ids[|ids| - 1];
      if p in pages then UpsertRow(rest, p, s, RowFor(pages[p])) else rest
  }

  function LiveCount(pages: map<PageId, Page>, ids: seq<PageId>): nat {
    if ids == [] then 0
    else LiveCount(pages, ids[..|ids| - 1]) + if ids[|ids| - 1] in pages then 1 else 0
  }

  function Min(a: nat, b: nat): nat { if a <= b then a else b }

  predicate CanBatch(db: Db, j: JobId) {
    j in db.runs && j in db.jobs && db.runs[j].offset < |db.runs[j].snapshot|
  }

  function BatchStep(db: Db, j: JobId): Db
    requires CanBatch(db, j)
  {
    if db.jobs[j].status == Cancelled then EndRun(db, j)
    else
      var r := db.runs[j];
      var ids := Slice(r);
      db.(tables := UpsertLive(db.tables, db.pages, db.jobs[j].spec, ids),
          jobs := db.jobs[j := db.jobs[j].(done := Min(r.offset + LiveCount(db.pages, ids), db.jobs[j].total))],
          runs := db.runs[j := r.(offset := Min(r.offset + BATCH, |r.snapshot|))])
  }

  predicate CanDecide(db: Db, j: JobId) {
    j in db.runs && j in db.jobs && db.runs[j].offset == |db.runs[j].snapshot| && !db.runs[j].decided
  }

  /** The last look at the job's status. */
  function DecideStep(db: Db, j: JobId): Db
    requires CanDecide(db, j)
  {
    if db.jobs[j].status == Cancelled then EndRun(db, j)
    else db.(runs := db.runs[j := db.runs[j].(decided := true)])
  }

  predicate CanFlip(db: Db, j: JobId) {
    j in db.runs && j in db.jobs && db.runs[j].decided
  }

  function FlipStep(db: Db, j: JobId): Db
    requires CanFlip(db, j)
  {
    EndRun(SetStatus(db, j, Completed), j).(
      active := Some(db.jobs[j].spec),
      tables := CleanupStale(db.tables, db.jobs[j].spec))
  }

  /**
   One transaction; a request whose guard fails changes nothing. `SetActive` is the settings endpoint, which
   writes the active spec like any other key; a text that is no spec of the catalog counts as none.
   */
  function Apply(db: Db, e: Event): Db {
    match e
    case Ask(j) => if j in db.jobs || SomeInFlight(db) then db else db.(cleared := db.cleared + {j})
    case Switch(j, s) =>
      if j in db.jobs || j !in db.cleared then db
      else db.(jobs := db.jobs[j := Job(s, Pending, 0, 0)], cleared := db.cleared - {j}, enqueuing := db.enqueuing + {j})
    case Enqueued(j) => db.(enqueuing := db.enqueuing - {j})
    case EnqueueFails(j) =>
      if j in db.enqueuing && j in db.jobs then SetStatus(db, j, Failed).(enqueuing := db.enqueuing - {j}) else db
    case Cancel(j) =>
      if j in db.jobs && db.jobs[j].InFlight() then SetStatus(db, j, Cancelled) else db
    case PickUp(j) => if CanPick(db, j) then db.(picked := db.picked[j := db.jobs[j].status]) else db
    case Start(j, order) =>
      if CanStart(db, j) && IsSelection(db, order) then StartRun(db, j, order) else db
    case StartFails(j) => if CanStart(db, j) then PutBack(SetStatus(db, j, Failed), j) else db
    case Batch(j) => if CanBatch(db, j) then BatchStep(db, j) else db
    case BatchFails(j) =>
      if CanBatch(db, j) then
        if db.jobs[j].status == Cancelled then EndRun(db, j) else EndRun(SetStatus(db, j, Failed), j)
      else db
    case Decide(j) => if CanDecide(db, j) then DecideStep(db, j) else db
    case Flip(j) => if CanFlip(db, j) then FlipStep(db, j) else db
    case Crash(j) => PutBack(EndRun(db, j), j)
    case CreatePage(p, text) =>
      if p in db.used then db else db.(pages := db.pages[p := text], used := db.used + {p})
    case EditPage(p, text) =>
      if p in db.pages then db.(pages := db.pages[p := text.(reserved := db.pages[p].reserved)]) else db
    case DeletePage(p) =>
      db.(pages := map q | q in db.pages && q != p :: db.pages[q], tables := CascadePage(db.tables, p))
    case Compile(touched) =>
      if db.active.None? then db
      else db.(tables := UpsertLive(db.tables, db.pages, db.active.value, touched))
    case OpenWriter(w) =>
      if db.active.Some? then db.(writers := db.writers[w := db.active.value]) else db
    case WriterCommits(w, p, text) =>
      if w in db.writers && p in db.pages then db.(tables := UpsertRow(db.tables, p, db.writers[w], RowFor(text))) else db
    case SetActive(chosen) => db.(active := chosen)
  }

  function Execute(db: Db, trace: seq<Event>): Db {
    if trace == [] then db else Apply(Execute(db, trace[..|trace| - 1]), trace[|trace| - 1])
  }

  /** Steps of editors, the compiler, the pipeline and the settings. */
  predicate Outside(e: Event) {
    e.CreatePage? || e.EditPage? || e.DeletePage? || e.Compile? || e.OpenWriter? || e.WriterCommits? || e.SetActive?
  }

  /** Steps of the requests; the rest are a worker's. */
  predicate Requested(e: Event) {
    e.Ask? || e.Switch? || e.Enqueued? || e.EnqueueFails? || e.Cancel?
  }

  /** A worker's steps up to the start of its run; the rest are those of the run. */
  predicate SetsUp(e: Event) {
    e.PickUp? || e.Start? || e.StartFails?
  }

  lemma OutsideKeeps(db: Db, e: Event)
    requires Outside(e)
    ensures var after := Apply(db, e);
            && (!e.SetActive? ==> after.active == db.active)
            && after.jobs == db.jobs && after.runs == db.runs
            && after.cleared == db.cleared && after.enqueuing == db.enqueuing && after.picked == db.picked
  {
    hide UpsertLive, CascadePage, RowFor;
  }

  ghost predicate SamePages(db: Db, after: Db) {
    after.pages == db.pages && after.used == db.used && after.writers == db.writers
  }

  lemma RequestedKeeps(db: Db, e: Event)
    requires Requested(e) || SetsUp(e)
    ensures SamePages(db, Apply(db, e))
  {
    hide IsSelection, SomeInFlight, CanPick;
  }

  lemma InsideKeeps(db: Db, e: Event)
    requires !Outside(e)
    ensures var after := Apply(db, e);
            after.pages == db.pages && after.used == db.used && after.writers == db.writers
  {
    if Requested(e) || SetsUp(e) { RequestedKeeps(db, e); }
    hide UpsertLive, LiveCount, Slice, CleanupStale, IsSelection, SomeInFlight, CanBatch, CanDecide, CanPick, CanFlip, Min, StartRun, SetStatus;
  }

  // ----- the invariant -----

  /** Pages the run has passed and that still exist have a row under the job's spec. */
  ghost predicate Covered(db: Db, j: JobId)
    requires j in db.runs && j in db.jobs && db.runs[j].offset <= |db.runs[j].snapshot|
  {
    forall i | 0 <= i < db.runs[j].offset && db.runs[j].snapshot[i] in db.pages ::
      HasRow(db.tables, db.runs[j].snapshot[i], db.jobs[j].spec)
  }

  ghost predicate RunOk(db: Db, j: JobId) {
    && j in db.runs && j in db.jobs
    && db.jobs[j].status != Pending && db.jobs[j].status != Completed
    && db.runs[j].offset <= |db.runs[j].snapshot|
    && (forall p | p in db.runs[j].snapshot :: p in db.used)
    && db.jobs[j].total == |db.runs[j].snapshot|
    && db.jobs[j].done <= db.runs[j].offset
    && (db.runs[j].decided ==> db.runs[j].offset == |db.runs[j].snapshot|)
    && j !in db.picked
  }

  ghost predicate RowsOk(db: Db) {
    && Filed(db.tables)
    && (forall d: Dimension, k | k in db.tables.At(d) :: k.page in db.pages)
    && db.pages.Keys <= db.used
  }

  predicate PickOk(db: Db, j: JobId) {
    && j in db.picked && j in db.jobs && j !in db.runs
    && (db.picked[j] == Pending || db.picked[j] == Running)
    && db.jobs[j].status != Completed && (db.picked[j] == Running ==> db.jobs[j].status != Pending)
  }

  ghost predicate JobsOk(db: Db) {
    && (forall j | j in db.jobs :: db.jobs[j].done <= db.jobs[j].total)
    && (forall j | j in db.picked :: PickOk(db, j))
  }

  ghost predicate RunsOk(db: Db) {
    forall j | j in db.runs :: RunOk(db, j)
  }

  /** Kept by every transaction of any party. */
  ghost predicate Inv(db: Db) {
    RowsOk(db) && JobsOk(db) && RunsOk(db)
  }

  ghost predicate OneInFlight(db: Db) {
    forall j, k | j in db.jobs && k in db.jobs && db.jobs[j].InFlight() && db.jobs[k].InFlight() :: j == k
  }

  /**
   At most one job is in flight, no worker holds a job marked failed or goes on with the flip of a cancelled
   one, and a running job has covered what its run has passed.
   */
  ghost predicate Solid(db: Db) {
    OneInFlight(db) && forall j | j in db.runs && RunOk(db, j) :: SolidRun(db, j)
  }

  ghost predicate SolidRun(db: Db, j: JobId)
    requires RunOk(db, j)
  {
    && db.jobs[j].status != Failed
    && (db.runs[j].decided ==> db.jobs[j].status == Running)
    && (db.jobs[j].status == Running ==> Covered(db, j))
  }

  lemma UpsertRowHas(t: Tables, p: PageId, s: Spec, r: Row, q: PageId, u: Spec)
    ensures HasRow(UpsertRow(t, p, s, r), q, u) <==> HasRow(t, q, u) || (p == q && s == u)
    ensures Filed(t) ==> Filed(UpsertRow(t, p, s, r))
  {}

  lemma {:induction false} UpsertLiveHas(t: Tables, pages: map<PageId, Page>, s: Spec, ids: seq<PageId>)
    ensures forall q, u :: HasRow(UpsertLive(t, pages, s, ids), q, u) <==>
              HasRow(t, q, u) || (u == s && q in ids && q in pages)
    ensures Filed(t) ==> Filed(UpsertLive(t, pages, s, ids))
  {
    if ids != [] {
      var init, p := ids[..|ids| - 1], ids[|ids| - 1];
      UpsertLiveHas(t, pages, s, init);
      assert ids == init + [p];
      var rest := UpsertLive(t, pages, s, init);
      if p in pages {
        forall q, u ensures HasRow(UpsertRow(rest, p, s, RowFor(pages[p])), q, u) <==> HasRow(rest, q, u) || (p == q && s == u) {
          UpsertRowHas(rest, p, s, RowFor(pages[p]), q, u);
        }
      }
    }
  }

  lemma {:induction false} UpsertLiveKeys(t: Tables, pages: map<PageId, Page>, s: Spec, ids: seq<PageId>)
    ensures forall d: Dimension, k | k in UpsertLive(t, pages, s, ids).At(d) :: k in t.At(d) || k.page in pages
  {
    if ids != [] { UpsertLiveKeys(t, pages, s, ids[..|ids| - 1]); }
  }

  /** Each upserted page carries exactly the row of its current text; all others are untouched. */
  lemma {:induction false} UpsertLiveRows(t: Tables, pages: map<PageId, Page>, s: Spec, ids: seq<PageId>, q: PageId, u: Spec)
    requires HasRow(UpsertLive(t, pages, s, ids), q, u)
    ensures u == s && q in ids && q in pages ==> RowOf(UpsertLive(t, pages, s, ids), q, u) == RowFor(pages[q])
    ensures !(u == s && q in ids && q in pages) ==> HasRow(t, q, u) && RowOf(UpsertLive(t, pages, s, ids), q, u) == RowOf(t, q, u)
  {
    if ids != [] {
      var init, p := ids[..|ids| - 1], ids[|ids| - 1];
      assert ids == init + [p];
      var rest := UpsertLive(t, pages, s, init);
      if p !in pages || Key(p, s) != Key(q, u) { UpsertLiveRows(t, pages, s, init, q, u); }
    }
  }

  lemma {:induction false} LiveCountFits(pages: map<PageId, Page>, ids: seq<PageId>)
    ensures LiveCount(pages, ids) <= |ids|
  {
    if ids != [] { LiveCountFits(pages, ids[..|ids| - 1]); }
  }

  lemma BatchRun(db: Db, j: JobId)
    requires RunOk(db, j) && CanBatch(db, j) && db.jobs[j].status != Cancelled
    ensures RunOk(BatchStep(db, j), j)
    ensures BatchStep(db, j).jobs[j].done >= db.jobs[j].done && BatchStep(db, j).jobs[j].done <= db.jobs[j].total
    ensures Covered(db, j) ==> Covered(BatchStep(db, j), j)
  {
    var after, r, ids := BatchStep(db, j), db.runs[j], Slice(db.runs[j]);
    hide Filed;
    UpsertLiveHas(db.tables, db.pages, db.jobs[j].spec, ids);
    LiveCountFits(db.pages, ids);
    hide UpsertLive, LiveCount, HasRow;
    forall i | 0 <= i < after.runs[j].offset && r.snapshot[i] in db.pages
      ensures i < r.offset || HasRow(after.tables, r.snapshot[i], db.jobs[j].spec)
    {
      if r.offset <= i {
        var to := if r.offset + BATCH <= |r.snapshot| then r.offset + BATCH else |r.snapshot|;
        assert ids == r.snapshot[r.offset..to];
        assert r.snapshot[i] == ids[i - r.offset];
      }
    }
  }

  /** A run whose job and own state are untouched stays fine. */
  lemma OtherRun(db: Db, after: Db, k: JobId)
    requires RunOk(db, k) && k in after.runs && after.runs[k] == db.runs[k] && k !in after.picked
    requires k in after.jobs && after.jobs[k] == db.jobs[k] && db.used <= after.used
    ensures RunOk(after, k)
  {}

  /** Nor does it lose its coverage as long as no row of a page that existed is lost. */
  lemma OtherCovered(db: Db, after: Db, k: JobId)
    requires RunOk(db, k) && RunOk(after, k) && after.runs[k] == db.runs[k] && after.jobs[k].spec == db.jobs[k].spec && Covered(db, k)
    requires forall p | p in db.used && p in after.pages ::
               p in db.pages && (HasRow(db.tables, p, db.jobs[k].spec) ==> HasRow(after.tables, p, db.jobs[k].spec))
    ensures Covered(after, k)
  {}

  lemma HeldRun(db: Db, j: JobId)
    requires RunOk(db, j)
    ensures j in db.runs && j in db.jobs && j !in db.picked
  {}

  /** Steps that leave rows and pages alone and change jobs and runs at most at `j`. */
  lemma InvAt(db: Db, after: Db, j: JobId)
    requires Inv(db) && after.tables == db.tables && after.pages == db.pages && after.used == db.used
    requires forall k | k != j :: (k in after.jobs <==> k in db.jobs) && (k in db.jobs ==> after.jobs[k] == db.jobs[k])
    requires forall k | k != j :: (k in after.runs <==> k in db.runs) && (k in db.runs ==> after.runs[k] == db.runs[k])
    requires forall k | k != j :: (k in after.picked <==> k in db.picked) && (k in db.picked ==> after.picked[k] == db.picked[k])
    requires j in after.jobs ==> after.jobs[j].done <= after.jobs[j].total
    requires j in after.picked ==> PickOk(after, j)
    requires j in after.runs ==> RunOk(after, j)
    ensures Inv(after)
  {
    forall k | k in after.runs ensures RunOk(after, k) {
      if k != j {
        assert RunOk(db, k);
        HeldRun(db, k);
        OtherRun(db, after, k);
      }
    }
    hide RunOk, Filed;
    forall k | k in after.picked ensures PickOk(after, k) {
      if k != j { assert PickOk(db, k); }
    }
  }

  lemma InvBatch(db: Db, j: JobId)
    requires Inv(db) && CanBatch(db, j)
    ensures Inv(BatchStep(db, j))
  {
    assert RunOk(db, j);
    if db.jobs[j].status == Cancelled {
      InvAt(db, BatchStep(db, j), j);
    } else {
      var s, ids := db.jobs[j].spec, Slice(db.runs[j]);
      BatchRun(db, j);
      var mid := db.(jobs := BatchStep(db, j).jobs, runs := BatchStep(db, j).runs);
      assert RunOk(mid, j);
      hide RunOk, PickOk, Slice, UpsertLive, LiveCount, Inv;
      InvAt(db, mid, j);
      InvUpsert(mid, s, ids);
    }
  }

  /** Embedding live pages. */
  lemma InvUpsert(db: Db, s: Spec, ids: seq<PageId>)
    requires Inv(db)
    ensures Inv(db.(tables := UpsertLive(db.tables, db.pages, s, ids)))
  {
    var after := db.(tables := UpsertLive(db.tables, db.pages, s, ids));
    UpsertLiveHas(db.tables, db.pages, s, ids);
    UpsertLiveKeys(db.tables, db.pages, s, ids);
    hide UpsertLive, HasRow;
    forall k | k in after.runs ensures RunOk(after, k) { assert RunOk(db, k); }
    forall k | k in after.picked ensures PickOk(after, k) { assert PickOk(db, k); }
  }

  lemma InvFlip(db: Db, j: JobId)
    requires Inv(db) && CanFlip(db, j)
    ensures Inv(FlipStep(db, j))
  {
    assert RunOk(db, j);
    var mid := EndRun(SetStatus(db, j, Completed), j);
    HeldRun(db, j);
    InvAt(db, mid, j);
    hide RunOk, PickOk;
    var after := FlipStep(db, j);
    forall k | k in after.runs ensures RunOk(after, k) {
      assert RunOk(mid, k);
      HeldRun(mid, k);
      OtherRun(mid, after, k);
    }
    forall k | k in after.picked ensures PickOk(after, k) {
      assert PickOk(mid, k);
      SamePick(mid, after, k);
    }
  }

  lemma SamePick(db: Db, after: Db, k: JobId)
    requires PickOk(db, k) && after.jobs == db.jobs && after.runs == db.runs && after.picked == db.picked
    ensures PickOk(after, k)
  {}

  /** Steps that touch neither jobs nor runs. */
  lemma InvOutside(db: Db, e: Event)
    requires Inv(db) && Outside(e) && !e.Compile?
    ensures Inv(Apply(db, e))
  {
    var after := Apply(db, e);
    OutsideKeeps(db, e);
    UsedGrows(db, e);
    forall k | k in after.runs ensures RunOk(after, k) {
      assert RunOk(db, k);
      HeldRun(db, k);
      OtherRun(db, after, k);
    }
    forall k | k in after.picked ensures PickOk(after, k) {
      assert PickOk(db, k);
      SamePick(db, after, k);
    }
    hide RunOk, PickOk;
    RowsOutside(db, e);
  }

  lemma RowsOutside(db: Db, e: Event)
    requires RowsOk(db) && Outside(e) && !e.Compile?
    ensures RowsOk(Apply(db, e))
  {}

  lemma UsedGrows(db: Db, e: Event)
    ensures db.used <= Apply(db, e).used
  {
    hide UpsertLive, LiveCount, Slice, CleanupStale, CascadePage, IsSelection, SomeInFlight, RowFor;
  }

  /** What the invariant says of one job. */
  lemma JobFacts(db: Db, j: JobId)
    requires Inv(db)
    ensures j in db.jobs ==> db.jobs[j].done <= db.jobs[j].total
    ensures j in db.picked ==> PickOk(db, j)
    ensures j in db.runs ==> RunOk(db, j)
    ensures j !in db.jobs ==> j !in db.runs && j !in db.picked
  {
    if j in db.runs { assert RunOk(db, j); }
    if j in db.picked { assert PickOk(db, j); }
  }

  lemma InvRequest(db: Db, e: Event)
    requires Inv(db) && (e.Ask? || e.Enqueued?)
    ensures Inv(Apply(db, e))
  {
    JobFacts(db, e.job);
    hide Inv, SomeInFlight;
    InvAt(db, Apply(db, e), e.job);
  }

  lemma InvPickUp(db: Db, j: JobId)
    requires Inv(db)
    ensures Inv(Apply(db, PickUp(j)))
  {
    JobFacts(db, j);
    hide Inv;
    InvAt(db, Apply(db, PickUp(j)), j);
  }

  lemma InvDecide(db: Db, j: JobId)
    requires Inv(db)
    ensures Inv(Apply(db, Decide(j)))
  {
    JobFacts(db, j);
    hide Inv;
    InvAt(db, Apply(db, Decide(j)), j);
  }

  lemma InvCrash(db: Db, j: JobId)
    requires Inv(db)
    ensures Inv(Apply(db, Crash(j)))
  {
    JobFacts(db, j);
    hide Inv;
    InvAt(db, Apply(db, Crash(j)), j);
  }

  lemma InvStatus(db: Db, j: JobId, st: JobStatus)
    requires Inv(db) && j in db.jobs && (st == Cancelled || st == Failed)
    ensures Inv(SetStatus(db, j, st))
  {
    JobFacts(db, j);
    hide Inv;
    InvAt(db, SetStatus(db, j, st), j);
  }

  lemma InvCancel(db: Db, j: JobId)
    requires Inv(db)
    ensures Inv(Apply(db, Cancel(j)))
  {
    hide Inv;
    if j in db.jobs { InvStatus(db, j, Cancelled); }
  }

  lemma InvEnqueueFails(db: Db, j: JobId)
    requires Inv(db)
    ensures Inv(Apply(db, EnqueueFails(j)))
  {
    hide Inv;
    if j in db.jobs {
      InvStatus(db, j, Failed);
      assert SetStatus(db, j, Failed).(enqueuing := db.enqueuing - {j}) == Apply(SetStatus(db, j, Failed), Enqueued(j));
      InvRequest(SetStatus(db, j, Failed), Enqueued(j));
    }
  }

  lemma InvStartFails(db: Db, j: JobId)
    requires Inv(db)
    ensures Inv(Apply(db, StartFails(j)))
  {
    JobFacts(db, j);
    hide Inv;
    InvAt(db, Apply(db, StartFails(j)), j);
  }

  lemma InvSwitch(db: Db, j: JobId, s: Spec)
    requires Inv(db) && j !in db.jobs
    ensures Inv(Apply(db, Switch(j, s)))
  {
    JobFacts(db, j);
    hide Inv;
    InvAt(db, Apply(db, Switch(j, s)), j);
  }

  lemma InvStart(db: Db, j: JobId, order: seq<PageId>)
    requires Inv(db) && CanStart(db, j) && IsSelection(db, order)
    ensures Inv(StartRun(db, j, order))
  {
    assert PickOk(db, j);
    assert forall p | p in order :: p in db.used;
    hide Inv, IsSelection;
    InvAt(db, StartRun(db, j, order), j);
  }

  lemma InvBatchFails(db: Db, j: JobId)
    requires Inv(db) && CanBatch(db, j)
    ensures Inv(Apply(db, BatchFails(j)))
  {
    assert RunOk(db, j);
    assert db.jobs[j].done <= db.jobs[j].total;
    hide Inv;
    InvAt(db, Apply(db, BatchFails(j)), j);
  }

  /** Every transaction, by whoever, keeps the invariant. */
  lemma StepKeepsInv(db: Db, e: Event)
    requires Inv(db)
    ensures Inv(Apply(db, e))
  {
    hide Inv;
    match e
    case Switch(j, s) => if j !in db.jobs { InvSwitch(db, j, s); }
    case Cancel(j) => InvCancel(db, j);
    case EnqueueFails(j) => InvEnqueueFails(db, j);
    case StartFails(j) => InvStartFails(db, j);
    case Start(j, order) => if CanStart(db, j) && IsSelection(db, order) { InvStart(db, j, order); }
    case Batch(j) => if CanBatch(db, j) { InvBatch(db, j); }
    case BatchFails(j) => if CanBatch(db, j) { InvBatchFails(db, j); }
    case Flip(j) => if CanFlip(db, j) { InvFlip(db, j); }
    case Compile(touched) => if db.active.Some? { InvUpsert(db, db.active.value, touched); }
    case Ask(_) => InvRequest(db, e);
    case Enqueued(_) => InvRequest(db, e);
    case PickUp(j) => InvPickUp(db, j);
    case Decide(j) => InvDecide(db, j);
    case Crash(j) => InvCrash(db, j);
    case _ => InvOutside(db, e);
  }

  lemma {:induction false} ExecuteKeepsInv(db: Db, trace: seq<Event>)
    requires Inv(db)
    ensures Inv(Execute(db, trace))
  {
    if trace != [] {
      ExecuteKeepsInv(db, trace[..|trace| - 1]);
      StepKeepsInv(Execute(db, trace[..|trace| - 1]), trace[|trace| - 1]);
    }
  }

  // ----- steps that overrun what another party has read -----

  predicate OtherInFlight(db: Db, j: JobId) {
    exists k | k in db.jobs :: k != j && db.jobs[k].InFlight()
  }

  /**
   A request gives up on a job, or cancels it, although a worker holds it or has decided on the flip; a worker
   starts a job that was stopped after it read it; a request inserts a job although another has come before it.
   */
  predicate Overruns(db: Db, e: Event) {
    || (e.EnqueueFails? && e.job in db.enqueuing && e.job in db.jobs && e.job in db.runs)
    || (e.Cancel? && e.job in db.jobs && db.jobs[e.job].InFlight() && e.job in db.runs && db.runs[e.job].decided)
    || (e.Start? && CanStart(db, e.job) && IsSelection(db, e.order)
        && if db.picked[e.job] == Running then db.jobs[e.job].status == Failed else OtherInFlight(db, e.job))
    || (e.Switch? && e.job !in db.jobs && e.job in db.cleared && SomeInFlight(db))
  }

  /** The steps that write rows or delete them: batches, compiles, pipeline commits, flips and deletions. */
  predicate Embeds(e: Event) {
    e.Batch? || e.Compile? || e.WriterCommits?
  }

  lemma OtherwiseSameRows(db: Db, e: Event)
    requires !Embeds(e) && !Flips(db, e) && !e.DeletePage?
    ensures Apply(db, e).tables == db.tables
  {
    hide UpsertLive, LiveCount, Slice, CleanupStale, CascadePage, IsSelection, SomeInFlight, RowFor;
  }

  lemma RowsAfterDeletion(db: Db, q: PageId, p: PageId, s: Spec)
    ensures HasRow(Apply(db, DeletePage(q)).tables, p, s) <==> HasRow(db.tables, p, s) && p != q
  {}

  lemma RowsAfterBatch(db: Db, k: JobId, p: PageId, s: Spec)
    ensures HasRow(Apply(db, Batch(k)).tables, p, s) <==>
              HasRow(db.tables, p, s) ||
              (CanBatch(db, k) && db.jobs[k].status != Cancelled && s == db.jobs[k].spec && p in Slice(db.runs[k]) && p in db.pages)
  {
    if CanBatch(db, k) { UpsertLiveHas(db.tables, db.pages, db.jobs[k].spec, Slice(db.runs[k])); }
    hide UpsertLive, LiveCount, Slice, HasRow;
  }

  lemma RowsAfterCompile(db: Db, touched: seq<PageId>, p: PageId, s: Spec)
    ensures HasRow(Apply(db, Compile(touched)).tables, p, s) <==>
              HasRow(db.tables, p, s) || (db.active == Some(s) && p in touched && p in db.pages)
  {
    if db.active.Some? { UpsertLiveHas(db.tables, db.pages, db.active.value, touched); }
    hide UpsertLive, HasRow;
  }

  lemma ActiveAfter(db: Db, e: Event)
    requires !Flips(db, e)
    ensures Apply(db, e).active == if e.SetActive? then e.chosen else db.active
  {
    hide UpsertLive, LiveCount, Slice, CleanupStale, CascadePage, IsSelection, SomeInFlight, RowFor;
  }

  /** No step but a flip or a deletion takes a row of a page that stays; only the settings change the active spec. */
  lemma RowsStay(db: Db, e: Event, p: PageId, s: Spec)
    requires !Flips(db, e) && HasRow(db.tables, p, s) && e != DeletePage(p)
    ensures HasRow(Apply(db, e).tables, p, s)
    ensures Apply(db, e).active == if e.SetActive? then e.chosen else db.active
  {
    ActiveAfter(db, e);
    hide HasRow, Apply, Flips;
    match e
    case Batch(k) => RowsAfterBatch(db, k, p, s);
    case Compile(touched) => RowsAfterCompile(db, touched, p, s);
    case WriterCommits(w, q, text) => RowsAfterCommit(db, w, q, text, p, s);
    case DeletePage(q) => RowsAfterDeletion(db, q, p, s);
    case _ => OtherwiseSameRows(db, e);
  }

  lemma RowsAfterCommit(db: Db, w: WriterId, q: PageId, text: Page, p: PageId, s: Spec)
    ensures HasRow(Apply(db, WriterCommits(w, q, text)).tables, p, s) <==>
              HasRow(db.tables, p, s) || (w in db.writers && db.writers[w] == s && p == q && p in db.pages)
  {
    hide RowFor;
  }

  /** Pages do not come back. */
  lemma NoReuse(db: Db, e: Event, p: PageId)
    requires p in db.used && p in Apply(db, e).pages
    ensures p in db.pages && e != DeletePage(p) && p in Apply(db, e).used
  {
    hide UpsertLive, LiveCount, Slice, IsSelection, SomeInFlight, CleanupStale, CascadePage, RowFor;
  }

  /** While a job runs and nothing has overrun another party, no other job flips. */
  lemma OnlyOwnFlip(db: Db, e: Event, j: JobId)
    requires Inv(db) && Solid(db) && j in db.runs && j in db.jobs && db.jobs[j].status == Running && Flips(db, e)
    ensures e.job == j
  {
    assert RunOk(db, e.job) && RunOk(db, j);
    assert SolidRun(db, e.job);
    assert db.jobs[e.job].InFlight() && db.jobs[j].InFlight();
  }

  /** The steps by which a worker moves its own run. */
  predicate Moves(e: Event, k: JobId) {
    (e.Batch? || e.BatchFails? || e.Decide? || e.Flip? || e.Start?) && e.job == k
  }

  /** A run that an event does not move: only a cancel and a late enqueue failure reach its job. */
  lemma UntouchedRun(db: Db, e: Event, k: JobId)
    requires Inv(db) && k in db.runs && k in Apply(db, e).runs && !Moves(e, k)
    ensures k in db.jobs && k in Apply(db, e).jobs && Apply(db, e).runs[k] == db.runs[k]
    ensures Apply(db, e).jobs[k] == db.jobs[k].(status := Apply(db, e).jobs[k].status)
    ensures || Apply(db, e).jobs[k].status == db.jobs[k].status
            || (Apply(db, e).jobs[k].status == Failed && Overruns(db, e))
            || (Apply(db, e).jobs[k].status == Cancelled && e == Cancel(k) && db.jobs[k].InFlight())
  {
    assert RunOk(db, k);
    HeldRun(db, k);
    hide Inv, RunOk, Apply, Overruns;
    if Outside(e) {
      OutsideKeeps(db, e);
    } else if Requested(e) {
      UntouchedByRequest(db, e, k);
    } else if SetsUp(e) {
      UntouchedBySetUp(db, e, k);
    } else {
      UntouchedByRun(db, e, k);
    }
  }

  lemma UntouchedByRequest(db: Db, e: Event, k: JobId)
    requires k in db.jobs && k in db.runs && Requested(e)
    ensures k in Apply(db, e).jobs && Apply(db, e).runs == db.runs
    ensures Apply(db, e).jobs[k] == db.jobs[k].(status := Apply(db, e).jobs[k].status)
    ensures || Apply(db, e).jobs[k].status == db.jobs[k].status
            || (Apply(db, e).jobs[k].status == Failed && Overruns(db, e))
            || (Apply(db, e).jobs[k].status == Cancelled && e == Cancel(k) && db.jobs[k].InFlight())
  {
    hide IsSelection, SomeInFlight, OtherInFlight;
  }

  lemma UntouchedBySetUp(db: Db, e: Event, k: JobId)
    requires k in db.jobs && k in db.runs && k !in db.picked && !Moves(e, k) && SetsUp(e)
    ensures k in Apply(db, e).jobs && k in Apply(db, e).runs && Apply(db, e).jobs[k] == db.jobs[k] && Apply(db, e).runs[k] == db.runs[k]
  {
    hide IsSelection;
  }

  lemma UntouchedByRun(db: Db, e: Event, k: JobId)
    requires k in db.jobs && k in db.runs && k in Apply(db, e).runs && !Moves(e, k) && !Outside(e) && !Requested(e) && !SetsUp(e)
    ensures k in Apply(db, e).jobs && Apply(db, e).jobs[k] == db.jobs[k] && Apply(db, e).runs[k] == db.runs[k]
  {
    hide UpsertLive, LiveCount, Slice, CleanupStale;
  }

  lemma EarlyCancel(db: Db, k: JobId)
    requires k in db.runs && k in db.jobs && db.jobs[k].InFlight() && !Overruns(db, Cancel(k))
    ensures !db.runs[k].decided
  {}

  lemma SolidOther(db: Db, e: Event, k: JobId)
    requires Inv(db) && Solid(db) && Inv(Apply(db, e)) && !Overruns(db, e)
    requires k in db.runs && k in Apply(db, e).runs && !Moves(e, k)
    ensures RunOk(Apply(db, e), k) && SolidRun(Apply(db, e), k)
  {
    var after := Apply(db, e);
    assert RunOk(db, k) && RunOk(after, k) && SolidRun(db, k);
    UntouchedRun(db, e, k);
    if e == Cancel(k) && after.jobs[k].status != db.jobs[k].status { EarlyCancel(db, k); }
    if after.jobs[k].status == Running {
      if Flips(db, e) { OnlyOwnFlip(db, e, k); }
      forall p | p in db.used && p in after.pages
        ensures p in db.pages && (HasRow(db.tables, p, db.jobs[k].spec) ==> HasRow(after.tables, p, db.jobs[k].spec))
      {
        NoReuse(db, e, p);
        if HasRow(db.tables, p, db.jobs[k].spec) { RowsStay(db, e, p, db.jobs[k].spec); }
      }
      OtherCovered(db, after, k);
    }
    hide Apply, Overruns, RunOk, HasRow, Inv, Solid;
  }

  lemma SolidOwn(db: Db, e: Event, k: JobId)
    requires Inv(db) && Solid(db) && Inv(Apply(db, e)) && !Overruns(db, e)
    requires k in Apply(db, e).runs && Moves(e, k)
    ensures RunOk(Apply(db, e), k) && SolidRun(Apply(db, e), k)
  {
    JobFacts(Apply(db, e), k);
    JobFacts(db, k);
    assert k in db.runs ==> SolidRun(db, k);
    hide Inv, Solid;
    if e.Start? {
      SolidStart(db, e, k);
    } else {
      HeldAfter(db, e, k);
      SolidMove(db, e, k);
    }
  }

  lemma SolidStart(db: Db, e: Event, k: JobId)
    requires e.Start? && e.job == k && !Overruns(db, e) && RunOk(Apply(db, e), k)
    requires k in db.runs ==> RunOk(db, k) && SolidRun(db, k)
    requires k in db.picked ==> PickOk(db, k)
    ensures SolidRun(Apply(db, e), k)
  {
    hide IsSelection;
  }

  lemma SolidMove(db: Db, e: Event, k: JobId)
    requires Moves(e, k) && !e.Start? && RunOk(db, k) && SolidRun(db, k) && RunOk(Apply(db, e), k)
    ensures SolidRun(Apply(db, e), k)
  {
    if e.Batch? && CanBatch(db, k) && db.jobs[k].status != Cancelled { BatchRun(db, k); }
    hide UpsertLive, LiveCount, Slice, IsSelection, HasRow;
  }

  /** A job gets in flight only by being inserted, or by a start that overrides what stopped it. */
  lemma InFlightBefore(db: Db, e: Event, k: JobId)
    requires k in Apply(db, e).jobs && Apply(db, e).jobs[k].InFlight()
    ensures (k in db.jobs && db.jobs[k].InFlight()) ||
            (e.Switch? && e.job == k && k !in db.jobs && k in db.cleared) ||
            (e.Start? && e.job == k && CanStart(db, k) && IsSelection(db, e.order) && db.picked[k] != Running)
  {
    hide UpsertLive, LiveCount, Slice, CleanupStale, CascadePage, IsSelection, SomeInFlight, RowFor;
  }

  lemma OneStays(db: Db, e: Event)
    requires OneInFlight(db) && !Overruns(db, e)
    ensures OneInFlight(Apply(db, e))
  {
    var after := Apply(db, e);
    forall j, k | j in after.jobs && k in after.jobs && after.jobs[j].InFlight() && after.jobs[k].InFlight() ensures j == k {
      InFlightBefore(db, e, j);
      InFlightBefore(db, e, k);
    }
    hide Apply, IsSelection;
  }

  /** Another job in flight. */
  lemma TwoInFlight(db: Db, e: Event, k: JobId)
    requires Overruns(db, e) && (e.Switch? || (e.Start? && db.picked[e.job] != Running))
    requires k in db.jobs && k != e.job && db.jobs[k].InFlight()
    ensures !OneInFlight(Apply(db, e))
  {
    var after := Apply(db, e);
    assert after.jobs[k] == db.jobs[k] && e.job in after.jobs && after.jobs[e.job].InFlight();
    hide IsSelection;
  }

  /** A stopped job whose worker goes on. */
  lemma StoppedHeld(db: Db, e: Event)
    requires Overruns(db, e) && !e.Switch? && (e.Start? ==> db.picked[e.job] == Running)
    ensures e.job in Apply(db, e).runs && (RunOk(Apply(db, e), e.job) ==> !SolidRun(Apply(db, e), e.job))
  {
    hide IsSelection, HasRow;
  }

  lemma OverrunBreaks(db: Db, e: Event)
    requires Inv(db) && Overruns(db, e)
    ensures !Solid(Apply(db, e))
  {
    StepKeepsInv(db, e);
    if e.Switch? || (e.Start? && db.picked[e.job] != Running) {
      var k :| k in db.jobs && k != e.job && db.jobs[k].InFlight();
      TwoInFlight(db, e, k);
    } else {
      StoppedHeld(db, e);
      JobFacts(Apply(db, e), e.job);
    }
    hide Inv, IsSelection, Apply;
  }

  lemma HeldAfter(db: Db, e: Event, k: JobId)
    requires k in Apply(db, e).runs && !(e.Start? && e.job == k)
    ensures k in db.runs
  {
    hide UpsertLive, LiveCount, Slice, CleanupStale, CascadePage, IsSelection, SomeInFlight, RowFor;
  }

  /** Exactly the overruns lose solidity. */
  lemma SolidIff(db: Db, e: Event)
    requires Inv(db) && Solid(db)
    ensures Inv(Apply(db, e)) && (Solid(Apply(db, e)) <==> !Overruns(db, e))
  {
    StepKeepsInv(db, e);
    var after := Apply(db, e);
    if Overruns(db, e) {
      OverrunBreaks(db, e);
    } else {
      OneStays(db, e);
      forall k | k in after.runs && RunOk(after, k) ensures SolidRun(after, k) {
        if Moves(e, k) {
          SolidOwn(db, e, k);
        } else {
          HeldAfter(db, e, k);
          SolidOther(db, e, k);
        }
      }
    }
    hide Apply, Inv, RunOk, Overruns, OneInFlight;
  }

  /** No step of the run overruns another party. */
  predicate Prompt(db: Db, trace: seq<Event>) {
    trace == [] ||
    (Prompt(db, trace[..|trace| - 1]) && !Overruns(Execute(db, trace[..|trace| - 1]), trace[|trace| - 1]))
  }

  lemma {:induction false} ExecuteKeepsSolid(db: Db, trace: seq<Event>)
    requires Inv(db) && Solid(db) && Prompt(db, trace)
    ensures Inv(Execute(db, trace)) && Solid(Execute(db, trace))
  {
    if trace != [] {
      ExecuteKeepsSolid(db, trace[..|trace| - 1]);
      SolidIff(Execute(db, trace[..|trace| - 1]), trace[|trace| - 1]);
    }
  }

  /** A switch request that nobody comes between inserts its job exactly if no job is in flight, and else changes nothing. */
  lemma SwitchAloneIff(db: Db, j: JobId, s: Spec)
    requires j !in db.jobs && j !in db.cleared
    ensures var after := Apply(Apply(db, Ask(j)), Switch(j, s));
            && (j in after.jobs <==> forall k | k in db.jobs :: db.jobs[k].status != Pending && db.jobs[k].status != Running)
            && (j in after.jobs ==> after.jobs[j] == Job(s, Pending, 0, 0) && forall k | k in db.jobs :: k in after.jobs && after.jobs[k] == db.jobs[k])
            && (j !in after.jobs ==> after == db)
            && (OneInFlight(db) ==> OneInFlight(after))
  {
    if !SomeInFlight(db) { assert forall k | k in db.jobs :: !db.jobs[k].InFlight(); }
  }

  /** A page edited and compiled has the row of its new text under the active spec. */
  lemma EditThenCompile(db: Db, p: PageId, text: Page, touched: seq<PageId>)
    requires p in db.pages && p in touched && db.active.Some?
    ensures var after := Apply(Apply(db, EditPage(p, text)), Compile(touched));
            HasRow(after.tables, p, db.active.value) && RowOf(after.tables, p, db.active.value) == RowFor(text.(reserved := db.pages[p].reserved))
  {
    var edited := Apply(db, EditPage(p, text));
    UpsertLiveHas(edited.tables, edited.pages, db.active.value, touched);
    UpsertLiveRows(edited.tables, edited.pages, db.active.value, touched, p, db.active.value);
    hide UpsertLive, RowFor;
  }

  // ----- no zero-result window -----

  /** Search finds a page only through a row under the active spec. */
  predicate Searchable(db: Db, p: PageId) {
    p in db.pages && db.active.Some? && HasRow(db.tables, p, db.active.value)
  }

  /** The final transaction of a job. */
  predicate Flips(db: Db, e: Event) {
    e.Flip? && CanFlip(db, e.job)
  }

  /** At the flip every page of the snapshot that still exists is embedded under the new spec. */
  lemma CoverageAtFlip(db: Db, j: JobId)
    requires Inv(db) && Solid(db) && Flips(db, Flip(j))
    ensures forall p | p in db.runs[j].snapshot && p in db.pages :: HasRow(db.tables, p, db.jobs[j].spec)
    ensures Apply(db, Flip(j)).active == Some(db.jobs[j].spec)
    ensures forall p | p in db.runs[j].snapshot && p in db.pages :: Searchable(Apply(db, Flip(j)), p)
  {
    assert RunOk(db, j) && SolidRun(db, j);
    WholeSnapshot(db, j);
  }

  lemma WholeSnapshot(db: Db, j: JobId)
    requires RunOk(db, j) && db.runs[j].offset == |db.runs[j].snapshot| && Covered(db, j)
    ensures forall p | p in db.runs[j].snapshot && p in db.pages :: HasRow(db.tables, p, db.jobs[j].spec)
  {
    var r := db.runs[j];
    forall p | p in r.snapshot && p in db.pages
      ensures HasRow(db.tables, p, db.jobs[j].spec)
    {
      var i :| 0 <= i < |r.snapshot| && r.snapshot[i] == p;
    }
  }

  lemma FlipKeeps(db: Db, j: JobId, p: PageId)
    requires Flips(db, Flip(j)) && p in db.pages
    ensures Searchable(Apply(db, Flip(j)), p) <==> HasRow(db.tables, p, db.jobs[j].spec)
  {}

  /** The step does not delete `p`, and if it sets the active spec, by a flip or in the settings, `p` has a row under it. */
  predicate Spares(db: Db, e: Event, p: PageId) {
    && e != DeletePage(p)
    && (Flips(db, e) ==> HasRow(db.tables, p, db.jobs[e.job].spec))
    && (e.SetActive? ==> e.chosen.Some? && HasRow(db.tables, p, e.chosen.value))
  }

  lemma SearchableStepIff(db: Db, e: Event, p: PageId)
    requires Searchable(db, p)
    ensures Searchable(Apply(db, e), p) <==> Spares(db, e, p)
  {
    if e == DeletePage(p) {
      assert p !in Apply(db, e).pages;
    } else {
      PageStays(db, e, p);
      if Flips(db, e) {
        FlipKeeps(db, e.job, p);
      } else if e.SetActive? {
        assert Apply(db, e) == db.(active := e.chosen);
      } else {
        RowsStay(db, e, p, db.active.value);
      }
    }
    hide Apply, HasRow;
  }

  lemma PageStays(db: Db, e: Event, p: PageId)
    requires p in db.pages && e != DeletePage(p)
    ensures p in Apply(db, e).pages
  {
    hide UpsertLive, LiveCount, Slice, CleanupStale, CascadePage, IsSelection, SomeInFlight, RowFor;
  }

  /** Every step of the run spares `p`. */
  ghost predicate Safe(db: Db, trace: seq<Event>, p: PageId) {
    trace != [] ==> Safe(db, trace[..|trace| - 1], p) && Spares(Execute(db, trace[..|trace| - 1]), trace[|trace| - 1], p)
  }

  /** Search finds `p` before, between and after the steps of the run. */
  ghost predicate SearchableThroughout(db: Db, trace: seq<Event>, p: PageId) {
    Searchable(Execute(db, trace), p) && (trace != [] ==> SearchableThroughout(db, trace[..|trace| - 1], p))
  }

  /** Over any interleaving a searchable page stays searchable at every point exactly if every step spares it. */
  lemma {:induction false} NoZeroResultWindow(db: Db, trace: seq<Event>, p: PageId)
    requires Searchable(db, p)
    ensures SearchableThroughout(db, trace, p) <==> Safe(db, trace, p)
  {
    hide Apply, Spares, Searchable;
    if trace != [] {
      var init := trace[..|trace| - 1];
      NoZeroResultWindow(db, init, p);
      if SearchableThroughout(db, init, p) { SearchableStepIff(Execute(db, init), trace[|trace| - 1], p); }
    }
  }

  /** Along the run `p` is not deleted, every flip has it in its snapshot, and the settings only choose a spec it has a row under. */
  ghost predicate SnapshottedThroughout(db: Db, trace: seq<Event>, p: PageId) {
    trace != [] ==>
      var before := Execute(db, trace[..|trace| - 1]);
      var e := trace[|trace| - 1];
      && SnapshottedThroughout(db, trace[..|trace| - 1], p)
      && e != DeletePage(p)
      && (Flips(before, e) ==> e.job in before.runs && p in before.runs[e.job].snapshot)
      && (e.SetActive? ==> e.chosen.Some? && HasRow(before.tables, p, e.chosen.value))
  }

  lemma {:induction false} PagesPersist(db: Db, trace: seq<Event>, p: PageId)
    requires p in db.pages && Safe(db, trace, p)
    ensures p in Execute(db, trace).pages
  {
    hide Apply, Flips, HasRow;
    if trace != [] {
      PagesPersist(db, trace[..|trace| - 1], p);
      PageStays(Execute(db, trace[..|trace| - 1]), trace[|trace| - 1], p);
    }
  }

  /** Being in the snapshot of every job that flips is enough for the flips. */
  lemma {:induction false} SnapshotIsSafe(db: Db, trace: seq<Event>, p: PageId)
    requires Inv(db) && Solid(db) && Prompt(db, trace) && p in db.pages && SnapshottedThroughout(db, trace, p)
    ensures Safe(db, trace, p)
  {
    if trace != [] {
      var before, e := Execute(db, trace[..|trace| - 1]), trace[|trace| - 1];
      SnapshotIsSafe(db, trace[..|trace| - 1], p);
      ExecuteKeepsSolid(db, trace[..|trace| - 1]);
      PagesPersist(db, trace[..|trace| - 1], p);
      if Flips(before, e) { CoverageAtFlip(before, e.job); }
    }
    hide Apply, Inv, Solid, HasRow;
  }

  /** A settings view read before a flip and sent back after it sets the old spec, under which no row is left. */
  lemma SettingsEchoEmpties(db: Db, j: JobId)
    requires Flips(db, Flip(j)) && db.active != Some(db.jobs[j].spec)
    ensures forall p :: !Searchable(Apply(Apply(db, Flip(j)), SetActive(db.active)), p)
  {
    forall p ensures !Searchable(Apply(Apply(db, Flip(j)), SetActive(db.active)), p) {
      if db.active.Some? { KeptUnder(db.tables, db.jobs[j].spec, p, db.active.value); }
    }
  }

  lemma ExecuteSnoc(db: Db, trace: seq<Event>, e: Event)
    ensures Execute(db, trace + [e]) == Apply(Execute(db, trace), e)
  {
    assert (trace + [e])[..|trace|] == trace;
  }

  lemma {:induction false} Joined(db: Db, a: seq<Event>, b: seq<Event>)
    ensures Execute(db, a + b) == Execute(Execute(db, a), b)
  {
    hide Apply;
    if b == [] {
      assert a + b == a;
    } else {
      Joined(db, a, b[..|b| - 1]);
      assert (a + b)[..|a + b| - 1] == a + b[..|b| - 1];
    }
  }

  /** From the request to a run over `order`. */
  function Launch(j: JobId, s: Spec, order: seq<PageId>): seq<Event> {
    [] + [Ask(j)] + [Switch(j, s)] + [PickUp(j)] + [Start(j, order)]
  }

  lemma Launched(db: Db, j: JobId, s: Spec, order: seq<PageId>)
    requires j !in db.jobs && j !in db.runs && j !in db.picked && !SomeInFlight(db) && IsSelection(db, order)
    ensures Execute(db, Launch(j, s, order)) ==
              db.(jobs := db.jobs[j := Job(s, Running, |order|, 0)], runs := db.runs[j := Run(order, 0, false)],
                  cleared := db.cleared - {j}, enqueuing := db.enqueuing + {j})
  {
    var d1 := Apply(db, Ask(j));
    var d2 := Apply(d1, Switch(j, s));
    var d3 := Apply(d2, PickUp(j));
    assert d2 == db.(jobs := db.jobs[j := Job(s, Pending, 0, 0)], cleared := db.cleared - {j}, enqueuing := db.enqueuing + {j});
    assert d3 == d2.(picked := d2.picked[j := Pending]);
    assert IsSelection(d3, order) && d3.picked - {j} == db.picked;
    assert Apply(d3, Start(j, order)) ==
      d2.(jobs := d2.jobs[j := Job(s, Running, |order|, 0)], runs := d2.runs[j := Run(order, 0, false)]);
    hide Apply, SomeInFlight, IsSelection;
    ExecuteSnoc(db, [], Ask(j));
    ExecuteSnoc(db, [] + [Ask(j)], Switch(j, s));
    ExecuteSnoc(db, [] + [Ask(j)] + [Switch(j, s)], PickUp(j));
    ExecuteSnoc(db, [] + [Ask(j)] + [Switch(j, s)] + [PickUp(j)], Start(j, order));
  }

  /** A page created after the snapshot can be searchable before the flip and lost by it. */
  lemma LatePageLost(text: Page) returns (db: Db, trace: seq<Event>, p: PageId, j: JobId)
    requires !text.reserved
    ensures Inv(db) && Solid(db)
    ensures Searchable(Execute(db, trace), p) && Flips(Execute(db, trace), Flip(j))
    ensures p in Apply(Execute(db, trace), Flip(j)).pages && !Searchable(Apply(Execute(db, trace), Flip(j)), p)
  {
    p, j := 0, 0;
    db := Db(map[], {}, Tables(map[], map[], map[], map[]), Some(OpenAiSmall), map[], map[], {}, {}, map[], map[]);
    var began := Launch(j, Gemini2, []);
    trace := began + [CreatePage(p, text)] + [Compile([p])] + [Decide(j)];
    ExecuteSnoc(db, began, CreatePage(p, text));
    ExecuteSnoc(db, began + [CreatePage(p, text)], Compile([p]));
    ExecuteSnoc(db, began + [CreatePage(p, text)] + [Compile([p])], Decide(j));
    Launched(db, j, Gemini2, []);
    var d1 := Execute(db, began);
    Handed(d1, p, text);
    var d2 := d1.(pages := map[p := text], used := {p});
    var d3 := Apply(d2, Compile([p]));
    LateRows(d2, p);
    var d4 := Apply(d3, Decide(j));
    assert d4 == d3.(runs := d3.runs[j := Run([], 0, true)]);
    hide Execute, Apply, HasRow, Launch;
    assert Flips(d4, Flip(j));
    FlipKeeps(d4, j, p);
    InsideKeeps(d4, Flip(j));
  }

  lemma Handed(db: Db, p: PageId, text: Page)
    requires db.pages == map[] && db.used == {}
    ensures Apply(db, CreatePage(p, text)) == db.(pages := map[p := text], used := {p})
  {}

  lemma LateRows(d: Db, p: PageId)
    requires p in d.pages && d.active == Some(OpenAiSmall) && d.tables == Tables(map[], map[], map[], map[])
    ensures var after := Apply(d, Compile([p]));
            after == d.(tables := after.tables) && HasRow(after.tables, p, OpenAiSmall) && !HasRow(after.tables, p, Gemini2)
  {
    UpsertLiveHas(d.tables, d.pages, OpenAiSmall, [p]);
  }

  // ----- exactly which pages a migration keeps searchable -----

  /** Somebody other than the worker of `j` gives `p`, which exists, a row under `s`. */
  predicate EmbedsNow(db: Db, e: Event, j: JobId, p: PageId, s: Spec) {
    && p in db.pages
    && ((e.Compile? && db.active == Some(s) && p in e.touched) ||
        (e.WriterCommits? && e.writer in db.writers && db.writers[e.writer] == s && e.page == p) ||
        (e.Batch? && e.job != j && CanBatch(db, e.job) && db.jobs[e.job].status != Cancelled && db.jobs[e.job].spec == s
         && p in Slice(db.runs[e.job])))
  }

  /** Somewhere along the run this happens. */
  predicate Embedded(db: Db, trace: seq<Event>, j: JobId, p: PageId, s: Spec) {
    trace != [] &&
    (Embedded(db, trace[..|trace| - 1], j, p, s) || EmbedsNow(Execute(db, trace[..|trace| - 1]), trace[|trace| - 1], j, p, s))
  }

  /** No worker picks the job up again. */
  predicate NoRestart(trace: seq<Event>, j: JobId) {
    forall e | e in trace :: !(e.Start? && e.job == j)
  }

  /** No other job flips along the run. */
  predicate NoOtherFlip(db: Db, trace: seq<Event>, j: JobId) {
    trace == [] ||
    (NoOtherFlip(db, trace[..|trace| - 1], j)
     && (Flips(Execute(db, trace[..|trace| - 1]), trace[|trace| - 1]) ==> trace[|trace| - 1].job == j))
  }

  predicate Held(db: Db, j: JobId) {
    j in db.runs && j in db.jobs && db.runs[j].offset <= |db.runs[j].snapshot|
  }

  /** The part of the snapshot the run has passed. */
  function Passed(db: Db, j: JobId): seq<PageId>
    requires Held(db, j)
  {
    db.runs[j].snapshot[..db.runs[j].offset]
  }

  lemma PassedGrows(db: Db, j: JobId)
    requires CanBatch(db, j) && Held(BatchStep(db, j), j)
    ensures Held(db, j) && db.jobs[j].status != Cancelled && Passed(BatchStep(db, j), j) == Passed(db, j) + Slice(db.runs[j])
    ensures BatchStep(db, j).runs[j].snapshot == db.runs[j].snapshot
  {
    hide UpsertLive, LiveCount;
    var r := db.runs[j];
    assert BatchStep(db, j).runs[j].offset == r.offset + |Slice(r)|;
    assert r.snapshot[..r.offset + |Slice(r)|] == r.snapshot[..r.offset] + Slice(r);
  }

  /** A job held after a step that did not start it was held before, on the same snapshot. */
  lemma HeldBefore(db: Db, e: Event, j: JobId)
    requires Inv(db) && Held(Apply(db, e), j) && !(e.Start? && e.job == j)
    ensures Held(db, j) && Apply(db, e).jobs[j].spec == db.jobs[j].spec && Apply(db, e).runs[j].snapshot == db.runs[j].snapshot
    ensures Passed(Apply(db, e), j) == if e == Batch(j) && CanBatch(db, j) then Passed(db, j) + Slice(db.runs[j]) else Passed(db, j)
  {
    hide Inv, UpsertLive, LiveCount, Slice, CleanupStale, CascadePage, IsSelection, SomeInFlight, RowFor;
    if e == Batch(j) && CanBatch(db, j) {
      PassedGrows(db, j);
    } else if (e.Batch? || e.BatchFails? || e.Flip?) && e.job == j {
      assert Apply(db, e) == db;
    } else if e == Decide(j) {
    } else {
      HeldAfter(db, e, j);
      UntouchedRun(db, e, j);
    }
  }

  lemma RowsGrowBatch(db: Db, k: JobId, j: JobId, p: PageId)
    requires Held(db, j) && Held(Apply(db, Batch(k)), j) && p in db.pages
    ensures var s := db.jobs[j].spec;
            HasRow(Apply(db, Batch(k)).tables, p, s) <==>
              HasRow(db.tables, p, s) || EmbedsNow(db, Batch(k), j, p, s) || (k == j && CanBatch(db, j) && p in Slice(db.runs[j]))
  {
    hide HasRow, Apply, Slice;
    if k == j && CanBatch(db, j) { StillHeld(db, j); }
    RowsAfterBatch(db, k, p, db.jobs[j].spec);
  }

  lemma RowsGrowElse(db: Db, e: Event, j: JobId, p: PageId, s: Spec)
    requires !e.Batch? && !Flips(db, e) && p in db.pages && p in Apply(db, e).pages
    ensures HasRow(Apply(db, e).tables, p, s) <==> HasRow(db.tables, p, s) || EmbedsNow(db, e, j, p, s)
  {
    hide HasRow, Apply, Flips, Slice;
    match e
    case Compile(touched) => RowsAfterCompile(db, touched, p, s);
    case WriterCommits(w, q, text) => RowsAfterCommit(db, w, q, text, p, s);
    case DeletePage(q) =>
      Deleted(db, q);
      RowsAfterDeletion(db, q, p, s);
    case _ => OtherwiseSameRows(db, e);
  }

  /** The only ways a page that stays gets a row under the new spec while the job is held and no other flips. */
  lemma RowsGrow(db: Db, e: Event, j: JobId, p: PageId)
    requires Held(db, j) && Held(Apply(db, e), j) && !(e.Start? && e.job == j) && (Flips(db, e) ==> e.job == j)
    requires p in db.pages && p in Apply(db, e).pages
    ensures var s := db.jobs[j].spec;
            HasRow(Apply(db, e).tables, p, s) <==>
              HasRow(db.tables, p, s) || EmbedsNow(db, e, j, p, s) || (e == Batch(j) && CanBatch(db, j) && p in Slice(db.runs[j]))
  {
    hide HasRow, Apply, Slice, Flips, EmbedsNow;
    if Flips(db, e) {
      FlipEnds(db, e);
    } else if e.Batch? {
      RowsGrowBatch(db, e.job, j, p);
    } else {
      RowsGrowElse(db, e, j, p, db.jobs[j].spec);
    }
  }

  lemma FlipEnds(db: Db, e: Event)
    requires Flips(db, e)
    ensures e.job !in Apply(db, e).runs
  {
    hide CleanupStale;
  }

  lemma StillHeld(db: Db, j: JobId)
    requires Held(Apply(db, Batch(j)), j) && CanBatch(db, j)
    ensures db.jobs[j].status != Cancelled
  {}

  lemma Deleted(db: Db, q: PageId)
    ensures q !in Apply(db, DeletePage(q)).pages
  {}

  /** Pages embedded along the run, or there when it began, have been handed out by its end. */
  lemma {:induction false} KnownByThen(db: Db, trace: seq<Event>, j: JobId, p: PageId, s: Spec)
    requires Inv(db)
    ensures (p in db.used || Embedded(db, trace, j, p, s)) ==> p in Execute(db, trace).used
  {
    hide Inv, Apply;
    if trace != [] {
      var init := trace[..|trace| - 1];
      KnownByThen(db, init, j, p, s);
      ExecuteKeepsInv(db, init);
      UsedGrows(Execute(db, init), trace[|trace| - 1]);
      KeysUsed(Execute(db, init));
    }
  }

  lemma KeysUsed(db: Db)
    requires Inv(db)
    ensures db.pages.Keys <= db.used
    ensures forall p, s | HasRow(db.tables, p, s) :: p in db.pages
    ensures forall j, p | Held(db, j) && p in db.runs[j].snapshot :: p in db.used
  {
    forall p, s | HasRow(db.tables, p, s) ensures p in db.pages {
      assert Key(p, s) in db.tables.At(DimensionOf(s));
    }
    forall j, p | Held(db, j) && p in db.runs[j].snapshot ensures p in db.used {
      assert RunOk(db, j);
    }
  }

  /** What a run that has just begun has given rows to, after any interleaving. */
  ghost predicate Reached(begun: Db, trace: seq<Event>, j: JobId, p: PageId)
    requires Held(begun, j) && Held(Execute(begun, trace), j)
  {
    var d, s := Execute(begun, trace), begun.jobs[j].spec;
    HasRow(d.tables, p, s) <==> HasRow(begun.tables, p, s) || Embedded(begun, trace, j, p, s) || p in Passed(d, j)
  }

  lemma {:induction false} RowsAlong(begun: Db, trace: seq<Event>, j: JobId, p: PageId)
    requires Inv(begun) && NoOtherFlip(begun, trace, j) && NoRestart(trace, j) && Held(Execute(begun, trace), j)
    ensures var d := Execute(begun, trace);
            Held(begun, j) && d.jobs[j].spec == begun.jobs[j].spec && d.runs[j].snapshot == begun.runs[j].snapshot
    ensures begun.runs[j].offset == 0 && p in Execute(begun, trace).pages ==> Reached(begun, trace, j, p)
  {
    hide Inv, Apply, HasRow, Slice, Flips, EmbedsNow;
    if trace != [] {
      var init, e := trace[..|trace| - 1], trace[|trace| - 1];
      var before := Execute(begun, init);
      assert e in trace && NoRestart(init, j);
      ExecuteKeepsInv(begun, init);
      StepKeepsInv(before, e);
      HeldBefore(before, e, j);
      RowsAlong(begun, init, j, p);
      if begun.runs[j].offset == 0 && p in Execute(begun, trace).pages {
        if p in before.pages { RowsGrow(before, e, j, p); } else { Newborn(begun, trace, j, p); }
      }
    }
  }

  /** A page the last step created has no row and is in nothing the run has seen. */
  lemma Newborn(begun: Db, trace: seq<Event>, j: JobId, p: PageId)
    requires Inv(begun) && trace != [] && Inv(Execute(begun, trace[..|trace| - 1]))
    requires Held(begun, j) && Held(Execute(begun, trace[..|trace| - 1]), j) && Held(Execute(begun, trace), j)
    requires Execute(begun, trace).runs[j].snapshot == Execute(begun, trace[..|trace| - 1]).runs[j].snapshot
    requires p !in Execute(begun, trace[..|trace| - 1]).pages && p in Execute(begun, trace).pages
    ensures Reached(begun, trace, j, p)
  {
    var init, e := trace[..|trace| - 1], trace[|trace| - 1];
    var before := Execute(begun, init);
    Created(before, e, p);
    KnownByThen(begun, init, j, p, begun.jobs[j].spec);
    KeysUsed(begun);
    KeysUsed(before);
    hide Inv, Apply, HasRow;
  }

  lemma Created(db: Db, e: Event, p: PageId)
    requires p !in db.pages && p in Apply(db, e).pages
    ensures e.CreatePage? && e.page == p && p !in db.used && Apply(db, e).tables == db.tables
  {
    hide UpsertLive, LiveCount, Slice, CleanupStale, CascadePage, IsSelection, SomeInFlight, RowFor;
  }

  lemma Begins(db: Db, j: JobId, order: seq<PageId>)
    requires Inv(db) && CanStart(db, j) && IsSelection(db, order)
    ensures var begun := Apply(db, Start(j, order));
            && Inv(begun) && Held(begun, j) && begun.runs[j] == Run(order, 0, false)
            && begun.jobs[j].spec == db.jobs[j].spec && begun.tables == db.tables
  {
    StepKeepsInv(db, Start(j, order));
  }

  lemma RunsAtFlip(db: Db, j: JobId)
    requires Inv(db) && Flips(db, Flip(j))
    ensures Held(db, j) && Passed(db, j) == db.runs[j].snapshot
  {
    assert RunOk(db, j);
  }

  /**
   Whatever steps in between the last start of a job and its flip, short of the flip of another job, a page
   alive at the flip is searchable after it exactly if the snapshot has it, it had a row under the new spec at
   the start, or a compile, a pipeline commit or another job's batch gave it one in between.
   */
  lemma FlipSearchableIff(db: Db, j: JobId, order: seq<PageId>, trace: seq<Event>, p: PageId)
    requires Inv(db) && CanStart(db, j) && IsSelection(db, order)
    requires NoOtherFlip(Apply(db, Start(j, order)), trace, j) && NoRestart(trace, j)
    requires Flips(Execute(Apply(db, Start(j, order)), trace), Flip(j)) && p in Execute(Apply(db, Start(j, order)), trace).pages
    ensures var begun, s := Apply(db, Start(j, order)), db.jobs[j].spec;
            Searchable(Apply(Execute(begun, trace), Flip(j)), p) <==>
              p in order || HasRow(db.tables, p, s) || Embedded(begun, trace, j, p, s)
  {
    var begun := Apply(db, Start(j, order));
    var d := Execute(begun, trace);
    Begins(db, j, order);
    ExecuteKeepsInv(begun, trace);
    RunsAtFlip(d, j);
    RowsAlong(begun, trace, j, p);
    FlipKeeps(d, j, p);
    hide Inv, Apply, Execute, HasRow, IsSelection, CanStart, Flips;
  }

  /** The job runs along the whole of the run. */
  predicate RunsThroughout(db: Db, trace: seq<Event>, j: JobId) {
    var d := Execute(db, trace);
    && j in d.runs && j in d.jobs && d.jobs[j].status == Running
    && (trace != [] ==> RunsThroughout(db, trace[..|trace| - 1], j))
  }

  /** Without overruns no other job flips while this one runs. */
  lemma {:induction false} PromptIsEnough(db: Db, trace: seq<Event>, j: JobId)
    requires Inv(db) && Solid(db) && Prompt(db, trace) && RunsThroughout(db, trace, j)
    ensures NoOtherFlip(db, trace, j)
  {
    hide Inv, Solid, Apply, Flips;
    if trace != [] {
      var init, e := trace[..|trace| - 1], trace[|trace| - 1];
      PromptIsEnough(db, init, j);
      ExecuteKeepsSolid(db, init);
      if Flips(Execute(db, init), e) { OnlyOwnFlip(Execute(db, init), e, j); }
    }
  }

  /** Without overruns no two jobs are ready to flip. */
  lemma FlipsAlone(db: Db, j: JobId, k: JobId)
    requires Inv(db) && Solid(db) && Flips(db, Flip(j)) && Flips(db, Flip(k))
    ensures j == k
  {
    assert RunOk(db, j) && SolidRun(db, j);
    OnlyOwnFlip(db, Flip(k), j);
  }

  /** If two are, to different specs, the index is empty after both. */
  lemma TwoFlipsEmpty(db: Db, k: JobId, j: JobId)
    requires Flips(db, Flip(k)) && Flips(db, Flip(j)) && k != j && db.jobs[k].spec != db.jobs[j].spec
    ensures var after := Apply(Apply(db, Flip(k)), Flip(j));
            after.active == Some(db.jobs[j].spec) && forall p, s :: !HasRow(after.tables, p, s)
  {
    var mid := Apply(db, Flip(k));
    var after := Apply(mid, Flip(j));
    assert Flips(mid, Flip(j)) && mid.jobs[j] == db.jobs[j];
    forall p, s ensures !HasRow(after.tables, p, s) {
      KeptUnder(db.tables, db.jobs[k].spec, p, s);
      KeptUnder(mid.tables, db.jobs[j].spec, p, s);
    }
  }

  lemma KeptUnder(t: Tables, keep: Spec, p: PageId, s: Spec)
    ensures HasRow(CleanupStale(t, keep), p, s) ==> s == keep && HasRow(t, p, s)
  {}

  lemma EnqueueFailed(db: Db, j: JobId)
    requires j in db.enqueuing && j in db.jobs
    ensures Apply(db, EnqueueFails(j)) == SetStatus(db, j, Failed).(enqueuing := db.enqueuing - {j})
  {}

  lemma DecideIs(db: Db, j: JobId)
    requires CanDecide(db, j)
    ensures Apply(db, Decide(j)) == DecideStep(db, j)
  {}

  /** A launched job is marked failed late, and its worker decides to flip all the same. */
  lemma FailedDecides(db: Db, k: JobId, s: Spec) returns (d: Db)
    requires db.jobs == map[k := Job(s, Running, 0, 0)] && db.runs == map[k := Run([], 0, false)] && k in db.enqueuing
    ensures d == Apply(Apply(db, EnqueueFails(k)), Decide(k))
    ensures d == db.(jobs := map[k := Job(s, Failed, 0, 0)], runs := map[k := Run([], 0, true)], enqueuing := db.enqueuing - {k})
  {
    EnqueueFailed(db, k);
    var failed := Apply(db, EnqueueFails(k));
    DecideIs(failed, k);
    d := DecideStep(failed, k);
    hide Apply;
  }

  lemma Flippable(db: Db, k: JobId, j: JobId)
    requires k in db.jobs && k in db.runs && db.runs[k].decided && k != j
    requires j in db.jobs && j in db.runs && db.runs[j] == Run([], 0, false) && db.jobs[j].status == Running
    ensures var d := Apply(db, Decide(j));
            Flips(d, Flip(k)) && Flips(d, Flip(j)) && d.jobs == db.jobs
  {}

  /** A late enqueue failure gets there: the job looks failed, another is started, and both decide to flip. */
  lemma TwoFlipsReached(db: Db, k: JobId, s: Spec, j: JobId, u: Spec) returns (trace: seq<Event>)
    requires db.jobs == map[] && db.runs == map[] && db.picked == map[] && IsSelection(db, []) && k != j
    ensures var d := Execute(db, trace);
            Flips(d, Flip(k)) && Flips(d, Flip(j)) && d.jobs[k].spec == s && d.jobs[j].spec == u
  {
    hide Apply, Execute, Launch, Flips;
    var one, two := Launch(k, s, []), Launch(j, u, []);
    Launched(db, k, s, []);
    var d3 := FailedDecides(Execute(db, one), k, s);
    Launched(d3, j, u, []);
    var d4 := Execute(d3, two);
    Flippable(d4, k, j);
    var t := one + [EnqueueFails(k)] + [Decide(k)];
    ExecuteSnoc(db, one, EnqueueFails(k));
    ExecuteSnoc(db, one + [EnqueueFails(k)], Decide(k));
    Joined(db, t, two);
    ExecuteSnoc(db, t + two, Decide(j));
    trace := t + two + [Decide(j)];
  }

  lemma WriterStays(db: Db, e: Event, w: WriterId)
    requires w in db.writers && e != OpenWriter(w)
    ensures w in Apply(db, e).writers && Apply(db, e).writers[w] == db.writers[w]
  {
    if !Outside(e) { InsideKeeps(db, e); }
    hide UpsertLive, LiveCount, Slice, CleanupStale, CascadePage, IsSelection, SomeInFlight, RowFor, StartRun, BatchStep, FlipStep, EndRun, SetStatus;
  }

  lemma {:induction false} WriterKeepsSpec(db: Db, trace: seq<Event>, w: WriterId)
    requires w in db.writers && OpenWriter(w) !in trace
    ensures w in Execute(db, trace).writers && Execute(db, trace).writers[w] == db.writers[w]
  {
    hide Apply;
    if trace != [] {
      WriterKeepsSpec(db, trace[..|trace| - 1], w);
      WriterStays(Execute(db, trace[..|trace| - 1]), trace[|trace| - 1], w);
    }
  }

  /**
   A pipeline run embeds under the spec it read when it began, so what it commits becomes searchable
   exactly if that spec is still the active one.
   */
  lemma LateCommitIff(db: Db, trace: seq<Event>, w: WriterId, p: PageId, text: Page)
    requires db.active.Some? && OpenWriter(w) !in trace && p in Execute(Apply(db, OpenWriter(w)), trace).pages
    ensures var d := Execute(Apply(db, OpenWriter(w)), trace);
            Searchable(Apply(d, WriterCommits(w, p, text)), p) <==> Searchable(d, p) || d.active == db.active
  {
    WriterKeepsSpec(Apply(db, OpenWriter(w)), trace, w);
    var d := Execute(Apply(db, OpenWriter(w)), trace);
    ActiveAfter(d, WriterCommits(w, p, text));
    PageStays(d, WriterCommits(w, p, text), p);
    if d.active.Some? { RowsAfterCommit(d, w, p, text, p, d.active.value); }
    assert db.active == Some(d.writers[w]);
    hide Execute, Apply, HasRow;
  }

  // ----- which stopped jobs are harmless -----

  /** The steps only a worker of `j` takes. */
  predicate OwnStep(e: Event, j: JobId) {
    Moves(e, j) || e == PickUp(j) || e == StartFails(j)
  }

  predicate Stopped(st: JobStatus) {
    st == Completed || st == Failed || st == Cancelled
  }

  /** A batch that passes its check of the job's status, or a flip. */
  predicate Writes(db: Db, e: Event) {
    (e.Batch? && CanBatch(db, e.job) && db.jobs[e.job].status != Cancelled) || Flips(db, e)
  }

  /** Whatever happens, no worker of `j` writes any more. */
  ghost predicate Harmless(db: Db, j: JobId) {
    forall trace, e | OwnStep(e, j) :: !Writes(Execute(db, trace), e)
  }

  /**
   A worker that holds `j` has decided on the flip, or finds it failed now or later by the request that
   switched to it; or one that has picked it up read `pending`, or will find it failed.
   */
  predicate AtLarge(db: Db, j: JobId)
    requires j in db.jobs
  {
    || (j in db.runs && (db.runs[j].decided || db.jobs[j].status == Failed || j in db.enqueuing))
    || (j in db.picked && (db.picked[j] == Pending || db.jobs[j].status == Failed || j in db.enqueuing))
  }

  /** The worker's other steps leave the active spec and every row alone. */
  lemma OnlyWritesChange(db: Db, e: Event, j: JobId)
    requires OwnStep(e, j) && !Writes(db, e)
    ensures Apply(db, e).active == db.active && Apply(db, e).tables == db.tables
  {
    hide UpsertLive, LiveCount, Slice, CleanupStale, CascadePage, IsSelection, SomeInFlight;
  }

  lemma StoppedStays(db: Db, e: Event, j: JobId)
    requires Inv(db) && j in db.jobs && Stopped(db.jobs[j].status) && !AtLarge(db, j)
    ensures j in Apply(db, e).jobs && Stopped(Apply(db, e).jobs[j].status) && !AtLarge(Apply(db, e), j)
  {
    if j in db.runs { assert RunOk(db, j); }
    if j in db.picked { assert PickOk(db, j); }
    hide Inv, RunOk, Apply;
    if Outside(e) {
      OutsideKeeps(db, e);
    } else if Requested(e) {
      StoppedByRequest(db, e, j);
    } else if SetsUp(e) {
      StoppedBySetUp(db, e, j);
    } else {
      StoppedByRun(db, e, j);
    }
  }

  lemma StoppedByRequest(db: Db, e: Event, j: JobId)
    requires j in db.jobs && Stopped(db.jobs[j].status) && !AtLarge(db, j) && Requested(e)
    requires j in db.picked ==> PickOk(db, j)
    ensures j in Apply(db, e).jobs && Stopped(Apply(db, e).jobs[j].status) && !AtLarge(Apply(db, e), j)
  {
    hide SomeInFlight;
  }

  lemma StoppedBySetUp(db: Db, e: Event, j: JobId)
    requires j in db.jobs && Stopped(db.jobs[j].status) && !AtLarge(db, j) && SetsUp(e)
    requires j in db.picked ==> PickOk(db, j)
    ensures j in Apply(db, e).jobs && Stopped(Apply(db, e).jobs[j].status) && !AtLarge(Apply(db, e), j)
  {
    hide IsSelection;
  }

  lemma StoppedByRun(db: Db, e: Event, j: JobId)
    requires j in db.jobs && Stopped(db.jobs[j].status) && !AtLarge(db, j) && !Outside(e) && !Requested(e) && !SetsUp(e)
    requires j in db.runs ==> db.jobs[j].status != Completed
    ensures j in Apply(db, e).jobs && Stopped(Apply(db, e).jobs[j].status) && !AtLarge(Apply(db, e), j)
  {
    if e.Batch? && CanBatch(db, e.job) { StoppedByBatch(db, e.job, j); }
    hide BatchStep, CleanupStale;
  }

  lemma StoppedByBatch(db: Db, k: JobId, j: JobId)
    requires j in db.jobs && Stopped(db.jobs[j].status) && !AtLarge(db, j) && CanBatch(db, k)
    requires j in db.runs ==> db.jobs[j].status != Completed
    ensures j in BatchStep(db, k).jobs && Stopped(BatchStep(db, k).jobs[j].status) && !AtLarge(BatchStep(db, k), j)
  {
    hide UpsertLive, LiveCount, Slice;
  }

  lemma {:induction false} StoppedAlong(db: Db, trace: seq<Event>, j: JobId)
    requires Inv(db) && j in db.jobs && Stopped(db.jobs[j].status) && !AtLarge(db, j)
    ensures var d := Execute(db, trace);
            Inv(d) && j in d.jobs && Stopped(d.jobs[j].status) && !AtLarge(d, j)
  {
    hide Inv, AtLarge, Apply;
    if trace != [] {
      var before := Execute(db, trace[..|trace| - 1]);
      StoppedAlong(db, trace[..|trace| - 1], j);
      StepKeepsInv(before, trace[|trace| - 1]);
      StoppedStays(before, trace[|trace| - 1], j);
    }
  }

  lemma ExecuteOne(db: Db, e: Event)
    ensures Execute(db, []) == db && Execute(db, [e]) == Apply(db, e)
  {
    hide Apply;
    ExecuteSnoc(db, [], e);
    assert [] + [e] == [e];
  }

  /** A worker that holds a job not marked cancelled writes at its next step or the one after. */
  lemma HeldWrites(db: Db, j: JobId) returns (trace: seq<Event>, e: Event)
    requires Held(db, j) && (db.runs[j].decided || db.jobs[j].status != Cancelled)
    ensures OwnStep(e, j) && Writes(Execute(db, trace), e)
  {
    ExecuteOne(db, Decide(j));
    hide Execute;
    if db.runs[j].decided {
      trace, e := [], Flip(j);
    } else if CanBatch(db, j) {
      trace, e := [], Batch(j);
    } else {
      trace, e := [Decide(j)], Flip(j);
    }
  }

  lemma {:induction false} SomeOrder(ids: set<PageId>) returns (order: seq<PageId>)
    ensures Distinct(order) && forall p :: p in order <==> p in ids
  {
    if ids == {} {
      order := [];
    } else {
      var p :| p in ids;
      var rest := SomeOrder(ids - {p});
      order := rest + [p];
      assert forall q :: q in order <==> q in rest || q == p;
    }
  }

  lemma SomeSelection(db: Db) returns (order: seq<PageId>)
    ensures IsSelection(db, order)
  {
    order := SomeOrder(set p | p in db.pages && !db.pages[p].reserved);
  }

  /** So does one that has picked a job up as pending, or finds it failed. */
  lemma PickedWrites(db: Db, j: JobId) returns (trace: seq<Event>, e: Event)
    requires CanStart(db, j) && (db.picked[j] == Pending || db.jobs[j].status == Failed)
    ensures OwnStep(e, j) && Writes(Execute(db, trace), e)
  {
    var order := SomeSelection(db);
    ExecuteOne(db, Start(j, order));
    var started := Apply(db, Start(j, order));
    assert Held(started, j) && started.jobs[j].status != Cancelled;
    hide Execute, Writes, Apply, IsSelection;
    var more;
    more, e := HeldWrites(started, j);
    trace := [Start(j, order)] + more;
    Joined(db, [Start(j, order)], more);
  }

  lemma AtLargeNow(db: Db, j: JobId) returns (trace: seq<Event>, e: Event)
    requires Inv(db) && j in db.jobs && AtLarge(db, j)
    requires db.jobs[j].status == Failed || (j in db.runs && db.runs[j].decided) || (j in db.picked && db.picked[j] == Pending)
    ensures OwnStep(e, j) && Writes(Execute(db, trace), e)
  {
    if j in db.runs { assert RunOk(db, j); }
    hide Execute, Writes;
    if j in db.runs {
      trace, e := HeldWrites(db, j);
    } else {
      trace, e := PickedWrites(db, j);
    }
  }

  lemma AtLargeWrites(db: Db, j: JobId) returns (trace: seq<Event>, e: Event)
    requires Inv(db) && j in db.jobs && AtLarge(db, j)
    ensures OwnStep(e, j) && Writes(Execute(db, trace), e)
  {
    if j in db.runs { assert RunOk(db, j); }
    if j in db.picked { assert PickOk(db, j); }
    if db.jobs[j].status == Failed || (j in db.runs && db.runs[j].decided) || (j in db.picked && db.picked[j] == Pending) {
      trace, e := AtLargeNow(db, j);
    } else {
      var failed := Apply(db, EnqueueFails(j));
      assert failed == SetStatus(db, j, Failed).(enqueuing := db.enqueuing - {j});
      StepKeepsInv(db, EnqueueFails(j));
      ExecuteOne(db, EnqueueFails(j));
      hide Inv, Execute, Writes, Apply;
      var more;
      more, e := AtLargeNow(failed, j);
      trace := [EnqueueFails(j)] + more;
      Joined(db, [EnqueueFails(j)], more);
    }
  }

  /**
   A stopped job is harmless exactly if no worker is at large with it; then no step of its worker changes the
   active spec or a row any more.
   */
  lemma HarmlessIff(db: Db, j: JobId)
    requires Inv(db) && j in db.jobs && Stopped(db.jobs[j].status)
    ensures Harmless(db, j) <==> !AtLarge(db, j)
    ensures !AtLarge(db, j) ==> forall trace, e | OwnStep(e, j) ::
              Apply(Execute(db, trace), e).active == Execute(db, trace).active && Apply(Execute(db, trace), e).tables == Execute(db, trace).tables
  {
    if AtLarge(db, j) {
      var trace, e := AtLargeWrites(db, j);
    } else {
      forall trace, e | OwnStep(e, j)
        ensures !Writes(Execute(db, trace), e)
        ensures Apply(Execute(db, trace), e).active == Execute(db, trace).active && Apply(Execute(db, trace), e).tables == Execute(db, trace).tables
      {
        StoppedWritesNot(db, trace, j, e);
      }
    }
    hide Apply, Execute, Inv, AtLarge, Writes, OwnStep;
  }

  lemma StoppedWritesNot(db: Db, trace: seq<Event>, j: JobId, e: Event)
    requires Inv(db) && j in db.jobs && Stopped(db.jobs[j].status) && !AtLarge(db, j) && OwnStep(e, j)
    ensures !Writes(Execute(db, trace), e)
    ensures Apply(Execute(db, trace), e).active == Execute(db, trace).active && Apply(Execute(db, trace), e).tables == Execute(db, trace).tables
  {
    StoppedAlong(db, trace, j);
    var d := Execute(db, trace);
    if j in d.runs { assert RunOk(d, j); }
    OnlyWritesChange(d, e, j);
    hide Inv, Apply, Execute;
  }

  /**
   A cancel that is accepted holds exactly if no worker has picked the job up as pending or decided on its flip,
   and the request that switched to it is over or no worker has it.
   */
  lemma CancelHoldsIff(db: Db, j: JobId)
    requires Inv(db) && j in db.jobs && db.jobs[j].InFlight()
    ensures Harmless(Apply(db, Cancel(j)), j) <==>
              && !(j in db.picked && db.picked[j] == Pending) && !(j in db.runs && db.runs[j].decided)
              && !(j in db.enqueuing && (j in db.runs || j in db.picked))
  {
    StepKeepsInv(db, Cancel(j));
    HarmlessIff(Apply(db, Cancel(j)), j);
    hide Inv, Harmless;
  }

  // ----- progress -----

  /** Within one run progress never goes back and never passes the total. */
  lemma DoneGrows(db: Db, e: Event, j: JobId)
    requires Inv(db) && j in db.runs && j in db.jobs && !(e.Start? && e.job == j)
    ensures var after := Apply(db, e);
            j in after.jobs && after.jobs[j].total == db.jobs[j].total &&
            db.jobs[j].done <= after.jobs[j].done <= after.jobs[j].total
  {
    assert RunOk(db, j);
    if e == Batch(j) && CanBatch(db, j) && db.jobs[j].status != Cancelled { BatchRun(db, j); }
    hide Inv, RunOk, Covered, Apply, BatchStep;
    if Outside(e) { OutsideKeeps(db, e); } else { DoneInside(db, e, j); }
  }

  lemma DoneInside(db: Db, e: Event, j: JobId)
    requires j in db.jobs && !Outside(e) && !(e.Start? && e.job == j)
    ensures var after := Apply(db, e);
            && j in after.jobs && after.jobs[j].total == db.jobs[j].total
            && (after.jobs[j].done == db.jobs[j].done || (e == Batch(j) && CanBatch(db, j) && db.jobs[j].status != Cancelled && after == BatchStep(db, j)))
  {
    hide UpsertLive, LiveCount, Slice, IsSelection, CleanupStale, SomeInFlight;
  }

  /** The positions from `lo` up to `hi` whose page is gone. */
  function Gone(pages: map<PageId, Page>, ids: seq<PageId>, lo: nat, hi: nat): set<nat> {
    set i: nat | lo <= i < hi && i < |ids| && ids[i] !in pages
  }

  lemma {:induction false} LiveCountIs(pages: map<PageId, Page>, ids: seq<PageId>, lo: nat, hi: nat)
    requires lo <= hi <= |ids|
    ensures LiveCount(pages, ids[lo..hi]) + |Gone(pages, ids, lo, hi)| == hi - lo
  {
    if lo == hi {
      assert Gone(pages, ids, lo, hi) == {};
    } else {
      LiveCountIs(pages, ids, lo, hi - 1);
      assert ids[lo..hi][..hi - lo - 1] == ids[lo..hi - 1] && ids[lo..hi][hi - lo - 1] == ids[hi - 1];
      assert Gone(pages, ids, lo, hi) == Gone(pages, ids, lo, hi - 1) + if ids[hi - 1] in pages then {} else {hi - 1};
    }
  }

  /** After a batch the progress is the position reached, less the pages of that batch that are gone. */
  lemma BatchProgress(db: Db, j: JobId)
    requires RunOk(db, j) && CanBatch(db, j) && db.jobs[j].status != Cancelled
    ensures var after, r := Apply(db, Batch(j)), db.runs[j];
            && j in after.runs && j in after.jobs
            && after.runs[j].offset == (if r.offset + 50 <= |r.snapshot| then r.offset + 50 else |r.snapshot|)
            && after.jobs[j].done == after.runs[j].offset - |Gone(db.pages, r.snapshot, r.offset, after.runs[j].offset)|
  {
    var r := db.runs[j];
    LiveCountIs(db.pages, r.snapshot, r.offset, Min(r.offset + BATCH, |r.snapshot|));
    hide LiveCount, UpsertLive, Gone;
  }

  // ----- batches and restart -----

  /** The slices `range(0, n, 50)` cuts from position `from` on. */
  function Batches<T>(s: seq<T>, from: nat): seq<seq<T>>
    requires from <= |s|
    decreases |s| - from
  {
    if from == |s| then []
    else
      var to := if from + BATCH <= |s| then from + BATCH else |s|;
      [s[from..to]] + Batches(s, to)
  }

  function Concat<T>(parts: seq<seq<T>>): seq<T> {
    if parts == [] then [] else parts[0] + Concat(parts[1..])
  }

  /** For any page count the batches partition the snapshot, in order, none empty or oversized. */
  lemma {:induction false} BatchesPartition<T>(s: seq<T>, from: nat)
    requires from <= |s|
    ensures Concat(Batches(s, from)) == s[from..]
    ensures forall b | b in Batches(s, from) :: 0 < |b| <= BATCH
    decreases |s| - from
  {
    if from < |s| {
      var to := if from + BATCH <= |s| then from + BATCH else |s|;
      BatchesPartition(s, to);
      assert s[from..] == s[from..to] + s[to..];
      assert Batches(s, from)[1..] == Batches(s, to);
    }
  }

  /** The worker alone: remaining batches, the last look, then the flip. */
  function Finish(db: Db, j: JobId): Db
    decreases if CanBatch(db, j) then |db.runs[j].snapshot| - db.runs[j].offset else 0
  {
    if CanBatch(db, j) && db.jobs[j].status != Cancelled then Finish(BatchStep(db, j), j)
    else Apply(Apply(db, Decide(j)), Flip(j))
  }

  ghost function Keys(t: Tables): set<Key> {
    t.t768.Keys + t.t1024.Keys + t.t1536.Keys + t.t3072.Keys
  }

  lemma KeysIff(t: Tables, k: Key)
    requires Filed(t)
    ensures k in Keys(t) <==> HasRow(t, k.page, k.spec)
  {
    assert forall d: Dimension :: k in t.At(d) ==> d == DimensionOf(k.spec);
    assert t.At(Dim768) == t.t768 && t.At(Dim1024) == t.t1024 && t.At(Dim1536) == t.t1536 && t.At(Dim3072) == t.t3072;
    assert k == Key(k.page, k.spec);
  }

  /** Exactly the rows of `s` that were there, plus one for each page of the snapshot still alive. */
  ghost predicate Leaves(after: Tables, before: Tables, s: Spec, snapshot: seq<PageId>, pages: map<PageId, Page>) {
    forall p, u :: HasRow(after, p, u) <==> u == s && (HasRow(before, p, s) || (p in snapshot && p in pages))
  }

  lemma Decided(db: Db, j: JobId)
    requires RunOk(db, j) && !CanBatch(db, j) && db.jobs[j].status != Cancelled
    ensures var after := Apply(db, Decide(j));
            && after == db.(runs := after.runs) && Flips(after, Flip(j))
            && after.runs[j].snapshot == db.runs[j].snapshot && after.runs[j].offset == db.runs[j].offset
  {}

  /** A worker left alone flips unless the job is cancelled, even if it was marked failed. */
  lemma {:induction false} FinishFlips(db: Db, j: JobId)
    requires Inv(db) && j in db.runs && j in db.jobs && db.jobs[j].status != Cancelled
    ensures var after := Finish(db, j);
            after.active == Some(db.jobs[j].spec) && j in after.jobs && after.jobs[j].status == Completed
    decreases if j in db.runs && j in db.jobs then |db.runs[j].snapshot| - db.runs[j].offset else 0
  {
    assert RunOk(db, j);
    if CanBatch(db, j) {
      InvBatch(db, j);
      FinishFlips(BatchStep(db, j), j);
    } else {
      Decided(db, j);
    }
    hide Inv, Slice, UpsertLive, LiveCount;
  }

  /** So a switch reported as failed, or even cancelled before, goes through all the same. */
  lemma LateFailureFlips(db: Db, j: JobId)
    requires Inv(db) && j in db.enqueuing && j in db.jobs && j in db.runs
    ensures var failed := Apply(db, EnqueueFails(j));
            && failed.jobs[j].status == Failed
            && Finish(failed, j).active == Some(db.jobs[j].spec)
            && j in Finish(failed, j).jobs && Finish(failed, j).jobs[j].status == Completed
  {
    hide Inv, Apply, Finish;
    EnqueueFailed(db, j);
    StepKeepsInv(db, EnqueueFails(j));
    FinishFlips(Apply(db, EnqueueFails(j)), j);
  }

  /** What a finished run leaves, whatever rows it started from. */
  lemma {:induction false} FinishLeaves(db: Db, j: JobId)
    requires Inv(db) && RunOk(db, j) && db.jobs[j].status == Running && Covered(db, j)
    ensures var after := Finish(db, j); var s := db.jobs[j].spec;
            && after.active == Some(s)
            && j in after.jobs && after.jobs[j].status == Completed
            && Filed(after.tables)
            && Leaves(after.tables, db.tables, s, db.runs[j].snapshot, db.pages)
    decreases |db.runs[j].snapshot| - db.runs[j].offset
  {
    var s := db.jobs[j].spec;
    if CanBatch(db, j) {
      InvBatch(db, j);
      BatchRun(db, j);
      var next := BatchStep(db, j);
      FinishLeaves(next, j);
      UpsertLiveHas(db.tables, db.pages, s, Slice(db.runs[j]));
      assert forall p | p in Slice(db.runs[j]) :: p in db.runs[j].snapshot;
    } else {
      LastLeaves(db, j);
    }
  }

  /** A run that finishes undisturbed reports every page it was to embed, when none of them has been deleted. */
  lemma {:induction false} FinishCounts(db: Db, j: JobId)
    requires Inv(db) && RunOk(db, j) && db.jobs[j].status == Running && db.jobs[j].done == db.runs[j].offset
    requires forall p | p in db.runs[j].snapshot :: p in db.pages
    ensures var after := Finish(db, j);
            j in after.jobs && after.jobs[j].done == after.jobs[j].total == |db.runs[j].snapshot|
    decreases |db.runs[j].snapshot| - db.runs[j].offset
  {
    if CanBatch(db, j) {
      InvBatch(db, j);
      BatchRun(db, j);
      BatchProgress(db, j);
      var next, r := BatchStep(db, j), db.runs[j];
      assert next == Apply(db, Batch(j)) && Gone(db.pages, r.snapshot, r.offset, next.runs[j].offset) == {};
      FinishCounts(next, j);
    } else {
      Decided(db, j);
    }
    hide Inv, Slice, UpsertLive, LiveCount, Covered;
  }

  function Members(s: seq<PageId>): set<PageId> { set p | p in s }

  lemma {:induction false} DistinctSize(s: seq<PageId>)
    requires Distinct(s)
    ensures |Members(s)| == |s|
  {
    if s == [] {
      assert Members(s) == {};
    } else {
      var init, last := s[..|s| - 1], s[|s| - 1];
      DistinctSize(init);
      assert s == init + [last];
      assert Members(s) == Members(init) + {last} && last !in Members(init);
    }
  }

  /** From pick-up to flip, with nobody else about: total and progress end at the number of pages that are not reserved. */
  lemma WholeRunCounts(db: Db, j: JobId, order: seq<PageId>)
    requires Inv(db) && CanPick(db, j) && IsSelection(db, order)
    ensures var after := Finish(Begin(db, j, order), j);
            && j in after.jobs
            && after.jobs[j].done == after.jobs[j].total == |set p | p in db.pages && !db.pages[p].reserved|
  {
    DistinctSize(order);
    assert (set p | p in db.pages && !db.pages[p].reserved) == Members(order);
    Started(db, j, order);
    assert Begin(db, j, order).jobs[j].done == 0 by { BeginsAtZero(db, j, order); }
    FinishCounts(Begin(db, j, order), j);
    hide Inv, Finish, Begin, RunOk, Covered, CanPick;
  }

  lemma BeginsAtZero(db: Db, j: JobId, order: seq<PageId>)
    requires CanPick(db, j) && IsSelection(db, order)
    ensures j in Begin(db, j, order).jobs && Begin(db, j, order).jobs[j].done == 0
  {
    assert IsSelection(Apply(db, PickUp(j)), order);
    hide IsSelection;
  }

  lemma LastLeaves(db: Db, j: JobId)
    requires Inv(db) && RunOk(db, j) && !CanBatch(db, j) && db.jobs[j].status == Running && Covered(db, j)
    ensures var after := Apply(Apply(db, Decide(j)), Flip(j)); var s := db.jobs[j].spec;
            && after.active == Some(s)
            && j in after.jobs && after.jobs[j].status == Completed
            && Filed(after.tables)
            && Leaves(after.tables, db.tables, s, db.runs[j].snapshot, db.pages)
  {
    Decided(db, j);
    WholeSnapshot(db, j);
    InvDecide(db, j);
    InvFlip(Apply(db, Decide(j)), j);
  }

  /** No row of `s` is gone, and the new ones belong to live snapshot pages. */
  ghost predicate Between(mid: Tables, before: Tables, s: Spec, snapshot: seq<PageId>, pages: map<PageId, Page>) {
    forall p ::
      && (HasRow(before, p, s) ==> HasRow(mid, p, s))
      && (HasRow(mid, p, s) ==> HasRow(before, p, s) || (p in snapshot && p in pages))
  }

  /** Any number of committed batches of one run. */
  function SomeBatches(db: Db, j: JobId, n: nat): Db {
    if n == 0 then db else Apply(SomeBatches(db, j, n - 1), Batch(j))
  }

  /** `mid` is a later stage of the same run. */
  ghost predicate SameRun(mid: Db, db: Db, j: JobId)
    requires RunOk(db, j)
  {
    && Inv(mid) && RunOk(mid, j) && Covered(mid, j) && mid.jobs[j].status == Running && mid.jobs[j].spec == db.jobs[j].spec
    && mid.pages == db.pages && mid.runs[j].snapshot == db.runs[j].snapshot
    && Between(mid.tables, db.tables, db.jobs[j].spec, db.runs[j].snapshot, db.pages)
  }

  lemma BatchKeepsRun(mid: Db, db: Db, j: JobId)
    requires RunOk(db, j) && SameRun(mid, db, j)
    ensures SameRun(Apply(mid, Batch(j)), db, j)
  {
    if CanBatch(mid, j) {
      InvBatch(mid, j);
      BatchRun(mid, j);
      var r := mid.runs[j];
      UpsertLiveHas(mid.tables, mid.pages, mid.jobs[j].spec, Slice(r));
      assert forall p | p in Slice(r) :: p in r.snapshot;
      hide Inv, RunOk, Slice, HasRow;
    }
  }

  lemma {:induction false} BatchesKeep(db: Db, j: JobId, n: nat)
    requires Inv(db) && RunOk(db, j) && db.jobs[j].status == Running && Covered(db, j)
    ensures SameRun(SomeBatches(db, j, n), db, j)
  {
    hide Inv, RunOk, HasRow;
    if n > 0 {
      BatchesKeep(db, j, n - 1);
      BatchKeepsRun(SomeBatches(db, j, n - 1), db, j);
    }
  }

  /** A worker picks the job up and begins a run. */
  function Begin(db: Db, j: JobId, order: seq<PageId>): Db {
    Apply(Apply(db, PickUp(j)), Start(j, order))
  }

  lemma Started(db: Db, j: JobId, order: seq<PageId>)
    requires Inv(db) && CanPick(db, j) && IsSelection(db, order)
    ensures var run := Begin(db, j, order);
            && Inv(run) && RunOk(run, j) && Covered(run, j) && j in run.jobs && j in run.runs && run.jobs[j].status == Running && run.runs[j] == Run(order, 0, false)
            && run.jobs[j].spec == db.jobs[j].spec && run.pages == db.pages && run.tables == db.tables
  {
    var d := Apply(db, PickUp(j));
    StepKeepsInv(db, PickUp(j));
    StepKeepsInv(d, Start(j, order));
    assert IsSelection(d, order);
    assert RunOk(Begin(db, j, order), j);
    hide Inv, RunOk, IsSelection;
  }

  lemma Killed(db: Db, j: JobId)
    requires Inv(db) && RunOk(db, j) && db.jobs[j].status == Running
    ensures var killed := Apply(db, Crash(j));
            && Inv(killed) && CanPick(killed, j) && j in killed.jobs && killed.jobs == db.jobs
            && killed.pages == db.pages && killed.tables == db.tables
  {
    StepKeepsInv(db, Crash(j));
  }

  lemma SameKeys(t: Tables, u: Tables, t0: Tables, u0: Tables, s: Spec, a: seq<PageId>, b: seq<PageId>, pages: map<PageId, Page>)
    requires Filed(t) && Filed(u) && Leaves(t, t0, s, a, pages) && Leaves(u, u0, s, b, pages)
    requires Between(u0, t0, s, a, pages) && forall p :: p in a <==> p in b
    ensures Keys(t) == Keys(u)
  {
    forall k ensures k in Keys(t) <==> k in Keys(u) {
      KeysIff(t, k);
      KeysIff(u, k);
    }
  }

  /** Both ended by flipping to `s`, with rows for the same pages. */
  ghost predicate SameOutcome(a: Db, b: Db, j: JobId, s: Spec) {
    && a.active == b.active == Some(s)
    && j in a.jobs && j in b.jobs && a.jobs[j].status == b.jobs[j].status == Completed
    && Keys(a.tables) == Keys(b.tables)
  }

  /**
   A run killed after any number of committed batches and started over ends with the same
   active spec, the same job status and the same row keys as one that was never disturbed.
   */
  lemma RestartReachesSame(db: Db, j: JobId, order: seq<PageId>, n: nat, again: seq<PageId>)
    requires Inv(db) && CanPick(db, j) && IsSelection(db, order) && IsSelection(db, again)
    ensures var calm := Begin(db, j, order);
            var restarted := Begin(Apply(SomeBatches(calm, j, n), Crash(j)), j, again);
            SameOutcome(Finish(calm, j), Finish(restarted, j), j, db.jobs[j].spec)
  {
    var s := db.jobs[j].spec;
    hide Inv, RunOk, Apply, Begin, SomeBatches, Finish, IsSelection, CanPick, HasRow, Filed, Keys, Leaves, Between;
    var calm := Begin(db, j, order);
    Started(db, j, order);
    BatchesKeep(calm, j, n);
    var mid := SomeBatches(calm, j, n);
    Killed(mid, j);
    var killed := Apply(mid, Crash(j));
    SelectionKept(db, killed, again);
    var restarted := Begin(killed, j, again);
    Started(killed, j, again);
    FinishLeaves(calm, j);
    FinishLeaves(restarted, j);
    SelectionsAgree(db, order, again);
    SameKeys(Finish(calm, j).tables, Finish(restarted, j).tables, db.tables, mid.tables, s, order, again, db.pages);
  }

  lemma SelectionKept(db: Db, after: Db, order: seq<PageId>)
    requires IsSelection(db, order) && after.pages == db.pages
    ensures IsSelection(after, order)
  {}

  lemma SelectionsAgree(db: Db, a: seq<PageId>, b: seq<PageId>)
    requires IsSelection(db, a) && IsSelection(db, b)
    ensures forall p :: p in a <==> p in b
  {}
}
