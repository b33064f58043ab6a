/** The transactions of `Migration` as they update the database in place. */
module MigrationDatabase {
  import opened Options
  import opened EmbeddingStorage
  import opened Migration

  datatype CancelReply = NotFound | CannotCancel(status: JobStatus) | CancelDone

  datatype SwitchReply = JobInFlight | CustomIdMissing | KeyMissing | SwitchDone

  predicate Custom(s: Spec) {
    s == Custom768 || s == Custom1024 || s == Custom1536 || s == Custom3072
  }

  /** The invariant, and solidity unless some step has overrun another party. */
  ghost predicate Sound(db: Db, overrun: bool) {
    Inv(db) && (overrun || Solid(db))
  }

  lemma StepKeepsSound(db: Db, e: Event, overrun: bool)
    requires Sound(db, overrun)
    ensures Sound(Apply(db, e), overrun || Overruns(db, e))
  {
    hide Inv, Solid, Apply, Overruns;
    StepKeepsInv(db, e);
    if !overrun { SolidIff(db, e); }
  }

  // What a worker's steps are when their guards hold.

  lemma BatchIs(db: Db, j: JobId)
    requires CanBatch(db, j)
    ensures Apply(db, Batch(j)) == BatchStep(db, j)
    ensures Apply(db, BatchFails(j)) ==
              if db.jobs[j].status == Cancelled then EndRun(db, j) else EndRun(SetStatus(db, j, Failed), j)
  {}

  lemma FailingStartOverrunsNobody(db: Db, j: JobId)
    ensures !Overruns(db, StartFails(j))
  {}

  /** A run that nobody has stopped and that has not looked for the last time. */
  predicate Unhindered(db: Db, j: JobId) {
    j in db.runs && j in db.jobs && db.jobs[j].status == Running && db.runs[j].offset <= |db.runs[j].snapshot| && !db.runs[j].decided
  }

  lemma PickedThenBegun(db: Db, order: seq<PageId>, j: JobId)
    requires IsSelection(db, order) && CanPick(db, j)
    ensures var d := Apply(db, PickUp(j));
            && IsSelection(d, order) && CanStart(d, j)
            && Unhindered(Apply(d, Start(j, order)), j)
  {}

  lemma UnhinderedBatch(db: Db, j: JobId)
    requires Unhindered(db, j) && CanBatch(db, j)
    ensures var after := Apply(db, Batch(j));
            && Unhindered(after, j) && Finish(after, j) == Finish(db, j)
            && after.runs[j].snapshot == db.runs[j].snapshot && after.runs[j].offset > db.runs[j].offset
  {
    BatchIs(db, j);
    hide Apply, UpsertLive, LiveCount, Slice;
  }

  lemma UnhinderedEnd(db: Db, j: JobId)
    requires Unhindered(db, j) && !CanBatch(db, j)
    ensures CanDecide(db, j) && CanFlip(Apply(db, Decide(j)), j) && db.jobs[j].status != Cancelled
    ensures Finish(db, j) == Apply(Apply(db, Decide(j)), Flip(j))
  {
    DecideIs(db, j);
    hide Apply;
  }

  lemma SwitchIs(db: Db, j: JobId, s: Spec, overrun: bool)
    requires Sound(db, overrun) && j !in db.jobs && j in db.cleared
    ensures var after := db.(jobs := db.jobs[j := Job(s, Pending, 0, 0)], cleared := db.cleared - {j}, enqueuing := db.enqueuing + {j});
            after == Apply(db, Switch(j, s)) && Sound(after, overrun || SomeInFlight(db))
  {
    StepKeepsSound(db, Switch(j, s), overrun);
    hide Sound, SomeInFlight;
  }

  lemma FlipIs(db: Db, j: JobId)
    requires CanFlip(db, j)
    ensures Apply(db, Flip(j)) == FlipStep(db, j)
  {}

  lemma StartIs(db: Db, j: JobId, order: seq<PageId>)
    requires CanStart(db, j) && IsSelection(db, order)
    ensures Apply(db, Start(j, order)) == StartRun(db, j, order)
    ensures Apply(db, StartFails(j)) == PutBack(SetStatus(db, j, Failed), j)
  {}

  class Database {
    var pages: map<PageId, Page>
    ghost var used: set<PageId>
    const embeddings: EmbeddingTables
    var active: Option<Spec>
    var customModelId: string
    var jobs: map<JobId, Job>
    var runs: map<JobId, Run> // in the memory of the workers
    ghost var cleared: set<JobId>
    ghost var enqueuing: set<JobId>
    var picked: map<JobId, JobStatus> // in the memory of the workers
    var writers: map<WriterId, Spec> // in the memory of the pipeline runs
    ghost var overrun: bool // whether any step has overrun another party

    constructor (embeddings: EmbeddingTables)
      requires embeddings.tables == Tables(map[], map[], map[], map[])
      ensures this.embeddings == embeddings && Valid() && !overrun
      ensures View() == Db(map[], {}, embeddings.tables, None, map[], map[], {}, {}, map[], map[])
    {
      pages, used := map[], {};
      this.embeddings := embeddings;
      active, customModelId, jobs, runs := None, "", map[], map[];
      cleared, enqueuing, picked, writers, overrun := {}, {}, map[], map[], false;
    }

    ghost function View(): Db
      reads this, embeddings
    {
      Db(pages, used, embeddings.tables, active, jobs, runs, cleared, enqueuing, picked, writers)
    }

    ghost predicate Valid()
      reads this, embeddings
    {
      Sound(View(), overrun)
    }

    /**
     The checks of the switch endpoint: refused while any job is pending or running, for a custom spec without
     a model id, and for a provider without a key. `customId` is the id sent, stripped, or empty.
     */
    method CheckSwitch(job: JobId, spec: Spec, customId: string, keyConfigured: bool) returns (reply: SwitchReply)
      requires Valid() && job !in jobs // a new uuid
      modifies this`cleared
      ensures Valid()
      ensures View() == if reply.SwitchDone? then Apply(old(View()), Ask(job)) else old(View())
      ensures reply.JobInFlight? <==> exists j | j in jobs :: jobs[j].InFlight()
      ensures reply.CustomIdMissing? <==> !reply.JobInFlight? && spec in {Custom768, Custom1024, Custom1536, Custom3072} && customId == ""
      ensures reply.KeyMissing? <==> !reply.JobInFlight? && spec in {Gemini001, Gemini2, OpenAiSmall, OpenAiLarge} && !keyConfigured
    {
      if exists j | j in jobs :: jobs[j].InFlight() { return JobInFlight; }
      if Custom(spec) && customId == "" { return CustomIdMissing; }
      if !Custom(spec) && !keyConfigured { return KeyMissing; }
      StepKeepsSound(View(), Ask(job), overrun);
      hide Sound;
      cleared := cleared + {job};
      reply := SwitchDone;
    }

    /** Its transaction, in which nothing is checked again. */
    method CommitSwitch(job: JobId, spec: Spec, customId: string)
      requires Valid() && job !in jobs && job in cleared
      modifies this`customModelId, this`jobs, this`cleared, this`enqueuing, this`overrun
      ensures Valid() && (overrun <==> old(overrun) || SomeInFlight(old(View())))
      ensures View() == Apply(old(View()), Switch(job, spec))
      ensures customModelId == if spec in {Custom768, Custom1024, Custom1536, Custom3072} then customId else old(customModelId)
    {
      hide Sound, Apply, SomeInFlight;
      SwitchIs(View(), job, spec, overrun);
      var id := if Custom(spec) then customId else customModelId;
      ghost var raced := SomeInFlight(View());
      customModelId, overrun, jobs, cleared, enqueuing :=
        id, overrun || raced, jobs[job := Job(spec, Pending, 0, 0)], cleared - {job}, enqueuing + {job};
    }

    /** What the switch request does after its commit: the hand-over succeeds, or the job is marked failed. */
    method EndEnqueue(job: JobId, works: bool)
      requires Valid() && job in enqueuing && job in jobs
      modifies this
      ensures Valid()
      ensures View() == Apply(old(View()), if works then Enqueued(job) else EnqueueFails(job))
      ensures overrun <==> old(overrun) || (!works && job in runs)
    {
      ghost var e := if works then Enqueued(job) else EnqueueFails(job);
      StepKeepsSound(View(), e, overrun);
      hide Sound;
      overrun := overrun || Overruns(View(), e);
      if !works { jobs := jobs[job := jobs[job].(status := Failed)]; }
      enqueuing := enqueuing - {job};
    }

    method CancelJob(job: JobId) returns (reply: CancelReply)
      requires Valid()
      modifies this
      ensures Valid() && (overrun <==> old(overrun) || (reply.CancelDone? && job in runs && runs[job].decided))
      ensures View() == Apply(old(View()), Cancel(job))
      ensures reply.CancelDone? <==> job in old(jobs) && old(jobs)[job].InFlight()
      ensures reply.NotFound? <==> job !in old(jobs)
    {
      StepKeepsSound(View(), Cancel(job), overrun);
      hide Sound;
      if job !in jobs { return NotFound; }
      if !jobs[job].InFlight() { return CannotCancel(jobs[job].status); }
      overrun := overrun || Overruns(View(), Cancel(job));
      jobs := jobs[job := jobs[job].(status := Cancelled)];
      reply := CancelDone;
    }

    /** The task reads its job and skips one that is not in flight. */
    method PickUpJob(job: JobId) returns (goesOn: bool)
      requires Valid() && job !in runs && job !in picked
      modifies this`picked
      ensures Valid()
      ensures View() == Apply(old(View()), PickUp(job))
      ensures goesOn <==> job in jobs && jobs[job].InFlight()
    {
      StepKeepsSound(View(), PickUp(job), overrun);
      hide Sound;
      goesOn := job in jobs && jobs[job].InFlight();
      if goesOn { picked := picked[job := jobs[job].status]; }
    }

    /** Its first transaction: fail on provider set-up, or count the work, whatever the job's status is by now. */
    method BeginRun(job: JobId, order: seq<PageId>, providerReady: bool)
      requires Valid() && IsSelection(View(), order) && job in picked && job in jobs
      modifies this
      ensures Valid() && (overrun <==> old(overrun) || (providerReady && Overruns(old(View()), Start(job, order))))
      ensures View() == Apply(old(View()), if providerReady then Start(job, order) else StartFails(job))
    {
      ghost var before, e := View(), if providerReady then Start(job, order) else StartFails(job);
      hide Sound, Apply, Overruns, IsSelection;
      StartIs(before, job, order);
      StepKeepsSound(before, e, overrun);
      overrun := overrun || Overruns(before, e);
      FailingStartOverrunsNobody(before, job);
      if !providerReady {
        jobs := jobs[job := jobs[job].(status := Failed)];
        picked := picked - {job};
        return;
      }
      var status := if picked[job] == Running then jobs[job].status else Running;
      jobs := jobs[job := jobs[job].(status := status, total := |order|, done := 0)];
      runs := runs[job := Run(order, 0, false)];
      picked := picked - {job};
    }

    /** Upsert a row for each page of the list that still exists, and count them. */
    method EmbedLive(ids: seq<PageId>, spec: Spec) returns (count: nat)
      modifies embeddings
      ensures embeddings.tables == UpsertLive(old(embeddings.tables), pages, spec, ids) && count == LiveCount(pages, ids)
    {
      count := 0;
      var i := 0;
      while i < |ids|
        invariant 0 <= i <= |ids|
        invariant embeddings.tables == UpsertLive(old(embeddings.tables), pages, spec, ids[..i])
        invariant count == LiveCount(pages, ids[..i])
      {
        assert ids[..i + 1][..i] == ids[..i];
        if ids[i] in pages {
          embeddings.Upsert(ids[i], spec, RowFor(pages[ids[i]]));
          count := count + 1;
        }
        i := i + 1;
      }
      assert ids[..i] == ids;
    }

    /** One pass of the batch loop, cancellation check included. */
    method RunBatch(job: JobId, embeddingWorks: bool)
      requires Valid() && CanBatch(View(), job)
      modifies this, embeddings
      ensures Valid() && overrun == old(overrun)
      ensures View() == Apply(old(View()), if embeddingWorks then Batch(job) else BatchFails(job))
    {
      hide Sound, Apply;
      BatchIs(View(), job);
      StepKeepsSound(View(), if embeddingWorks then Batch(job) else BatchFails(job), overrun);
      var run := runs[job];
      if jobs[job].status == Cancelled {
        runs := runs - {job};
        return;
      }
      if !embeddingWorks {
        jobs := jobs[job := jobs[job].(status := Failed)];
        runs := runs - {job};
        return;
      }
      var ids := Slice(run);
      var count := EmbedLive(ids, jobs[job].spec);
      jobs := jobs[job := jobs[job].(done := Min(run.offset + count, jobs[job].total))];
      runs := runs[job := run.(offset := Min(run.offset + BATCH, |run.snapshot|))];
    }

    /** The last look at the job, at the beginning of the last transaction. */
    method CheckBeforeFlip(job: JobId) returns (goesOn: bool)
      requires Valid() && CanDecide(View(), job)
      modifies this`runs
      ensures Valid()
      ensures View() == Apply(old(View()), Decide(job))
      ensures goesOn <==> jobs[job].status != Cancelled
    {
      hide Sound, Apply;
      DecideIs(View(), job);
      StepKeepsSound(View(), Decide(job), overrun);
      goesOn := jobs[job].status != Cancelled;
      runs := if goesOn then runs[job := runs[job].(decided := true)] else runs - {job};
    }

    /** And its end: flip the active spec, delete all other rows, complete the job. */
    method FlipAndCleanUp(job: JobId) returns (deleted: nat)
      requires Valid() && CanFlip(View(), job)
      modifies this, embeddings
      ensures Valid() && overrun == old(overrun)
      ensures View() == Apply(old(View()), Flip(job))
      ensures deleted == RowCount(old(embeddings.tables)) - RowCount(embeddings.tables)
    {
      hide Sound, Apply;
      ghost var before := View();
      FlipIs(before, job);
      active := Some(jobs[job].spec);
      deleted := embeddings.Cleanup(jobs[job].spec);
      jobs := jobs[job := jobs[job].(status := Completed)];
      runs := runs - {job};
      assert View() == Apply(before, Flip(job));
      StepKeepsSound(before, Flip(job), overrun);
    }

    /** The batch loop and the last transaction, with nothing stepping in between. */
    method RunToEnd(job: JobId)
      requires Valid() && Unhindered(View(), job)
      modifies this, embeddings
      ensures Valid()
      ensures View() == Finish(old(View()), job)
    {
      hide Sound, Apply, Finish;
      ghost var begun := View();
      while runs[job].offset < |runs[job].snapshot|
        invariant Unhindered(View(), job)
        invariant Valid() && Finish(View(), job) == Finish(begun, job)
        decreases |runs[job].snapshot| - runs[job].offset
      {
        UnhinderedBatch(View(), job);
        RunBatch(job, true);
      }
      UnhinderedEnd(View(), job);
      var goesOn := CheckBeforeFlip(job);
      var deleted := FlipAndCleanUp(job);
    }

    /** The task with nothing stepping in between. */
    method ReembedAllPages(job: JobId, order: seq<PageId>)
      requires Valid() && IsSelection(View(), order) && CanPick(View(), job)
      modifies this, embeddings
      ensures Valid()
      ensures View() == Finish(Begin(old(View()), job, order), job)
    {
      hide Sound, Apply, Finish, Overruns, IsSelection;
      PickedThenBegun(View(), order, job);
      var goesOn := PickUpJob(job);
      BeginRun(job, order, true);
      RunToEnd(job);
    }

    /** The settings endpoint writes the active spec as it is sent. */
    method SetActiveSpec(chosen: Option<Spec>)
      requires Valid()
      modifies this`active
      ensures Valid()
      ensures View() == Apply(old(View()), SetActive(chosen))
    {
      StepKeepsSound(View(), SetActive(chosen), overrun);
      hide Sound;
      active := chosen;
    }

    /** The compiler's re-embed: rows for the touched pages under whatever spec is active. */
    method ReembedPages(touched: seq<PageId>)
      requires Valid()
      modifies embeddings
      ensures Valid()
      ensures View() == Apply(old(View()), Compile(touched))
    {
      StepKeepsSound(View(), Compile(touched), overrun);
      hide Sound;
      if active.None? { return; }
      var count := EmbedLive(touched, active.value);
    }

    /** A pipeline run fixes the spec it will embed under. */
    method OpenPipeline(writer: WriterId)
      requires Valid()
      modifies this
      ensures Valid() && overrun == old(overrun)
      ensures View() == Apply(old(View()), OpenWriter(writer))
    {
      StepKeepsSound(View(), OpenWriter(writer), overrun);
      hide Sound;
      if active.Some? { writers := writers[writer := active.value]; }
    }

    /** Its commit embeds a page from the planned text. */
    method EmbedCommitted(writer: WriterId, page: PageId, text: Page)
      requires Valid()
      modifies embeddings
      ensures Valid()
      ensures View() == Apply(old(View()), WriterCommits(writer, page, text))
    {
      StepKeepsSound(View(), WriterCommits(writer, page, text), overrun);
      hide Sound;
      if writer in writers && page in pages { embeddings.Upsert(page, writers[writer], RowFor(text)); }
    }
  }
}
