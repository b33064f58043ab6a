# Arkon, modelled and verified in Dafny

Arkon is a self-hosted wiki compiler: it ingests documents, has a language model write wiki pages
from them, and keeps an embedding index of those pages. This project models the parts of its backend
whose correctness depends on more than one function at a time and proves properties of them.

| file | what it models |
|---|---|
| `Options.dfy` | the option type |
| `ImageMarkers.dfy` | the leftmost, non-overlapping scan for `![caption](image://id)` markers, as an explicit scanner |
| `CaptionBaking.dfy`, `MarkerStripping.dfy` | the two rewriters built on that scan |
| `EmbeddingStorage.dfy` | embedding rows in their four dimension tables, hash and input of a page, upsert and clean-up |
| `Migration.dfy`, `MigrationDatabase.dfy` | the online switch of the embedding model, one step per transaction, with a step of its own for what a request or a worker reads before it writes, and the same steps on a mutable database |
| `Lifecycle.dfy`, `SourceRecord.dfy` | the life of a source from upload to committed pages, and the same steps on a mutable source record |
| `Recovery.dfy`, `WorkBalance.dfy` | which sources can still be finished, and where the work on a source comes from and ends |
| `WikiStore.dfy`, `WikiCompiler.dfy` | the page table and the single-shot compiler's operation loop and re-embedding |
| `AgentProtocol.dfy`, `WikiAgent.dfy` | the agent's message formats, its tool handlers and its loop |
| `TreeDiff.dfy` | the file status of a skill contribution against the latest version |
| `ProfileCache.dfy` | the runtime profile cache with its lock, time to live and invalidation |
| `Gaps.dfy` | the knowledge-gap roll-up |
| `Membership.dfy` | workspace membership and its last-admin guards |
| `Settings.dfy` | the configuration service and its masked view |

Code that updates state is modelled twice: as a pure step function, about which the laws are lemmas, and
as methods or classes that update fields and arrays in place and are proved to take exactly those steps.
Runs are sequences of events; an event whose guard fails changes nothing, so a law over all event
sequences is a law over all interleavings.

The source record, the migration database, the profile cache and the workspaces carry an invariant,
`Valid()`, that every method requires and ensures. For the source record it holds the whole history: the
record is a state some run reaches, with all that is proved of such states.

Some promises turn out to hold only under a condition. In each case the model follows the code, a lemma
exhibits the failure, and the exact condition is proved for all inputs:

- Baking captions is last-writer-wins exactly when no caption that a marker can pick up holds a `]`
  (`caption_sanitize.py:50-95` does not remove that character), and an empty caption set wins only over
  an empty one.
- Stripping markers is idempotent exactly when no plain run ends in the beginning of a disallowed marker
  whose rest follows across erased markers only. That beginning may also be a lone `!`.
- Wiki pages are apart by (slug, scope) after a compile exactly when they were before it and no first
  create of a slug met another writer of that slug. `alembic/versions/018_drop_skill_description.py:188`
  drops the unique index and no later migration restores it, so both rows stay; the compiler's fallback to
  an update (`wiki_compiler.py:398-407`) would keep them apart only with the index. The advisory lock does
  not help against writers that take none (`app/routers/wiki.py:432`, `app/mcp/tools.py:1820`,
  `wiki_agent_tools.py:409`) or one under another name (`app/ai/mrp/pipeline.py:186`).
- A searchable page stays searchable at every step exactly when it is not deleted and every step that sets
  the active spec finds a row of it under that spec (the promise at `app/worker.py:563-565` is for pages in
  the snapshot). Such steps are the flips, and the settings endpoint, which writes the active spec like any
  other key: a view read before a flip and sent back after it empties the search.
- A flip finds a row exactly for the pages in the snapshot, those that had one under the new spec at the
  start, and those that a compile, a pipeline commit or another job's batch has embedded in between, as long
  as no other job flips.
- Requests and workers act on what they have read before. An accepted cancel holds exactly when no worker has
  picked the job up as pending or decided on its flip, and the request that switched to it is over or no
  worker has the job: that request marks the job failed when its enqueue fails after delivery, and the worker,
  which looks for `cancelled` only, flips all the same.
- `auto_recover_count` stays within the cap plus the ungated revivals exactly for positive caps; with a cap
  of 0, which the setting accepts, the first sweep already exceeds it. The count is zero at `plan_ready` and
  `ready` exactly in the runs in which no worker finishes with a copy of it that reads zero when it is not:
  sessions keep what they loaded (`app/database/__init__.py:26`), and assigning the value loaded writes nothing.
- A source with nothing queued or running can still be finished exactly when it has a plan to decide on, or
  somebody takes it up and refinement accepts its plan. The sweep (`app/worker.py:1055-1071`) is the recovery
  path for `processing` only: a source whose queue entry is lost while it is `pending`, one left `failed` by a
  probe, and one in refinement whose plan is still `regenerating` are beyond it.
- The plan status protects an approval exactly until a map-reduce or refine run writes the plan under an
  outstanding regenerate task, or that task is delivered twice.
- A department change re-ingests a finished source (the comment at `app/routers/sources.py:492`) exactly
  when its phase is neither past mapping nor a review of a pending or approved plan. After an ordinary
  finish the phase is `commit`, and the source is left `processing`.
- The log page keeps what it holds when an entry is appended unless it holds `_(empty`. An entry that mentions
  this text is therefore gone, with all before it, as soon as the next one is written (`wiki_service.py:657-660`).
- Invalidating the profile cache takes full effect exactly when no load that has begun to read can still
  refill it in time for a caller, new or already waiting.
- The contribution diff compares every listed file exactly when no listed path is the bare root and no two
  differ only in the number of slashes after it. Other empty segments hide nothing.
- Sending the masked settings back at once is harmless exactly when every secret is empty, has at least four
  characters, or consists of bullets. Sent back later it restores every other key to what the view showed.
- A page changed by the single-shot compiler is embedded again unless an operation on it raised after its flush.
- The last-admin guards are exact for one request at a time. Removals and demotions that are all checked
  before any is written leave no admin exactly when every admin is the target of one; for two of them,
  when the two targets are all the admins there are.

## Model

| member | source | states |
|---|---|---|
| ImageMarkers.MatchIff | app/worker.py:1303 | the scanner finds a marker at a position exactly when the text there begins with `![`, a caption without `]`, `](image://`, an id of hexadecimal digits and hyphens, and `)`, where the id is not empty or has 36 characters as the expression asks |
| ImageMarkers.OverlapShareEnd | app/worker.py:1303 | two overlapping occurrences have the same id and the same end, so leftmost scanning loses none |
| ImageMarkers.RenderParse | app/worker.py:1298-1303 | scanning a text and writing the pieces back gives the text |
| ImageMarkers.ParseRender | app/worker.py:1298-1303 | writing a scanned document and scanning again gives the same document, whatever the captions without `]` |
| ImageMarkers.NoStraddle | app/worker.py:1298-1303 | text that starts no match before one marker starts none before any other marker put in its place |
| CaptionBaking.BakedDocument | app/worker.py:1295-1305 | one pass leaves plain runs and ids where they were and puts each id's caption in front of it |
| CaptionBaking.BakeKeepsIdsAndText | app/worker.py:1295-1305 | the id sequence and all text outside markers survive byte for byte |
| CaptionBaking.LastWriterWins | app/worker.py:1297-1305 | baking twice is baking once with the later, non-empty caption set |
| CaptionBaking.BakeIdempotent | app/worker.py:1302-1305 | a re-run with the same captions changes nothing |
| CaptionBaking.OpenCaptionSticks | app/worker.py:1298-1303 | any caption with `]` gives a text on which a later bake does not win |
| CaptionBaking.LastWriterWinsIff | app/worker.py:1297-1305 | a caption set yields to all later ones on all texts if and only if none of its captions holds `]` |
| CaptionBaking.OverridesIff | app/worker.py:1297-1305 | against a closed caption set a later one wins on every text if and only if it is not empty or both are |
| MarkerStripping.StripErasesExactly | app/ai/wiki_agent_tools.py:30-37 | the result is exactly the characters that no disallowed marker covers, in order, by a definition that does not scan |
| MarkerStripping.FastPathExact | app/ai/wiki_agent_tools.py:32-33 | skipping texts without `image://` gives what the full scan gives |
| MarkerStripping.StripFixedIff | app/ai/wiki_agent_tools.py:34-37 | a text is left alone if and only if it holds no disallowed marker |
| MarkerStripping.StripIdempotentIff | app/ai/wiki_agent_tools.py:34-37 | stripping twice equals stripping once, and the result is clean, if and only if in the text no plain run ends in the first part of a disallowed marker (a lone `!`, or the bracketed caption with some of what follows) whose other part follows across erased markers only |
| MarkerStripping.OwnLinesIdempotent | app/ai/wiki_agent_tools.py:34-37 | erased markers with a newline or text edge on one side never fuse |
| MarkerStripping.FusionExample | app/ai/wiki_agent_tools.py:34-37 | erasing one marker out of the middle of another leaves a disallowed marker |
| MarkerStripping.SanitizeField | app/ai/wiki_compiler.py:507-520 | the compiler's own left-to-right pass with a counter returns what the agent's rewriter returns, an absent field stays absent, and the count is the number of places where a disallowed marker ends |
| MarkerStripping.SanitizeImageMarkers | app/ai/wiki_compiler.py:494-527 | both texts of every operation are rewritten in place, and the total is the size of the set of all places, by operation, field and position, where a disallowed marker ends |
| MarkerStripping.DroppedZeroIff | app/ai/wiki_compiler.py:507-527 | nothing is counted as dropped if and only if there was nothing disallowed |
| MarkerStripping.AllowedIff | app/ai/wiki_agent_tools.py:34-36 | a marker is kept if and only if its id is one of the source's images, in either case of the letters `A` to `F` |
| MarkerStripping.OwnMarkersStay | app/ai/wiki_agent_tools.py:30-37 | a text in which every marker, wherever it starts, bears an id of the source comes back unchanged with a count of 0 |
| MarkerStripping.OwnMarkerStays | app/ai/wiki_agent_tools.py:30-37 | a bare marker of one of the source's images comes back unchanged, in either case |
| MarkerStripping.InventedMarkerGoes | app/ai/wiki_compiler.py:507-520 | a bare marker with any other id becomes empty and is counted once |
| EmbeddingStorage.EmbeddingTables.Upsert | app/services/embedding_storage.py:35-58 | the row of (page, spec) in the table of the spec's dimension is written, no other row changes |
| EmbeddingStorage.EmbeddingTables.Cleanup | app/services/embedding_storage.py:75-102 | only rows of the kept spec remain and the returned total is the number of rows that disappeared |
| EmbeddingStorage.HashTellsInput | app/services/embedding_storage.py:24-32 | equal hashes imply equal embedding inputs although the input is cut at 8000 characters |
| EmbeddingStorage.InputIs | app/services/embedding_storage.py:24-32 | the text that is embedded has title, summary and content at their places with blank lines between, and is cut after 8000 characters and only then |
| EmbeddingStorage.InputHolds | app/services/embedding_storage.py:24-32 | when it fits, it begins with the title, has the summary behind the first blank line and ends with the content |
| EmbeddingStorage.HashTellsContent | app/services/embedding_storage.py:24-32 | two pages that agree in two of title, summary and content have the same hash if and only if they agree in the third |
| EmbeddingStorage.VectorsFit | app/ai/embedding_catalog.py:26-127 | a row goes into the one table whose width is the length of its model's vectors |
| Migration.StepKeepsInv | app/worker.py:594-695 | every step of any party keeps rows filed and of existing pages and runs in step with their jobs: requests and workers acting on what they read earlier, failing enqueues, pipeline commits and the settings' write of the active spec included |
| Migration.ExecuteKeepsInv | app/worker.py:559-695 | that invariant holds over all interleavings |
| Migration.UpsertLiveRows | app/worker.py:649-680 | a batch writes each live page the row of its current text and leaves all other rows as they were |
| Migration.RowsStay | app/worker.py:639-695 | short of a flip no page that stays loses a row under any spec, and the active spec stands unless the settings set it |
| Migration.SolidIff | app/routers/admin_embeddings.py:198-312 | a step loses "one job in flight, no failed job held, no cancelled one about to flip, and the running job has embedded what it has passed" if and only if it overruns another party: an enqueue failure for a held job, a cancel after the last look at the job, a start after a stop with another job in flight or onto a failed one, a second switch that was checked before the first committed |
| Migration.SwitchAloneIff | app/routers/admin_embeddings.py:198-259 | a switch request that nobody comes between inserts its job if and only if no job is pending or running, and else changes nothing |
| Migration.ExecuteKeepsSolid | app/worker.py:639-695 | so over all interleavings without such a step the running job has embedded every live page it has passed |
| Migration.CoverageAtFlip | app/worker.py:682-695 | at the flip every live snapshot page has a row under the new spec and is searchable after it |
| Migration.FlipSearchableIff | app/worker.py:620-695 | over every interleaving from the last start of a job to its flip in which no other job flips, a page alive at the flip is searchable after it if and only if it is in the snapshot, had a row under the new spec at the start, or was embedded under that spec by a compile, by a pipeline run opened under it, or by another job's batch |
| Migration.PromptIsEnough | app/worker.py:639-695 | without overruns no other job flips while this one runs |
| Migration.FlipsAlone | app/worker.py:682-695 | without overruns no two jobs are ready to flip |
| Migration.TwoFlipsEmpty | app/worker.py:687-690 | if two jobs with different specs are, the index holds no row at all after both flips |
| Migration.TwoFlipsReached | app/routers/admin_embeddings.py:265-272 | an enqueue failure after delivery leads there: the job looks failed, another is switched to, and both workers decide to flip |
| Migration.LateCommitIff | app/ai/mrp/pipeline.py:263-268 | what a pipeline run commits becomes searchable if and only if the spec it read when it opened is still the active one or the page was searchable anyway |
| Migration.EditThenCompile | app/ai/wiki_compiler.py:652-712 | a page edited and then compiled has the row of its new text under the active spec |
| Migration.NoZeroResultWindow | app/worker.py:559-695 | over any interleaving a searchable page stays searchable at every point if and only if no step deletes it and every step that sets the active spec, a flip or a write of the settings, finds a row of it under that spec |
| Migration.SearchableStepIff | app/routers/admin_settings.py:66-106 | the same for one step: a write of the active spec in the settings keeps a page searchable if and only if it has a row under the spec set |
| Migration.SettingsEchoEmpties | app/services/config_service.py:62-63 | a settings view read before a flip and sent back after it leaves no page searchable |
| Migration.SnapshotIsSafe | app/worker.py:620-632 | without overruns, being in the snapshot of every job that flips is enough for the flips |
| Migration.LatePageLost | app/worker.py:563-565 | a page created after the snapshot loses its search results at the flip |
| Migration.HarmlessIff | app/worker.py:590-695 | the workers of a stopped job write nothing in any continuation, so no step of theirs changes the active spec or a row, if and only if none has read it as pending or decided on its flip, and none finds it failed now or later by its switch request |
| Migration.CancelHoldsIff | app/worker.py:590-632 | an accepted cancel holds if and only if no worker has picked the job up as pending or decided on its flip, and its switch request is over or no worker has it; otherwise the start or the flip overwrites it |
| Migration.LateFailureFlips | app/routers/admin_embeddings.py:265-272 | a job marked failed while a worker holds it, even if cancelled before, flips and completes when its worker goes on |
| Migration.DoneGrows | app/worker.py:640-680 | within a run `done_pages` never goes back and never passes `total_pages` |
| Migration.BatchProgress | app/worker.py:640-680 | after a batch `done_pages` is the position reached, less the pages of that batch that are gone |
| Migration.WholeRunCounts | app/worker.py:598-695 | an undisturbed run from pick-up to flip ends with `done_pages` and `total_pages` both the number of pages that are not reserved |
| Migration.BatchesPartition | app/worker.py:640-641 | the slices of 50 concatenate to the snapshot, in order and without gap or overlap |
| Migration.FinishLeaves | app/worker.py:640-695 | an undisturbed run ends with exactly the old rows of the spec plus one per live snapshot page |
| Migration.RestartReachesSame | app/worker.py:594-632 | killed after any number of batches and restarted, a run ends with the same active spec, status and row keys |
| MigrationDatabase.Database.CheckSwitch | app/routers/admin_embeddings.py:198-245 | refuses in this order a job in flight, a custom spec without model id, a provider without key; otherwise the request goes on |
| MigrationDatabase.Database.CommitSwitch | app/routers/admin_embeddings.py:230-259 | inserts the job without another check and stores the custom id; it overruns exactly if a job is in flight by then |
| MigrationDatabase.Database.EndEnqueue | app/routers/admin_embeddings.py:261-274 | after the commit the job is handed over, or marked failed whatever its status is by then |
| MigrationDatabase.Database.CancelJob | app/routers/admin_embeddings.py:293-312 | takes the cancel step; the reply tells which of the three cases it was; it overruns exactly if the worker has looked for the last time |
| MigrationDatabase.Database.PickUpJob | app/worker.py:590-596 | the worker reads its job and goes on if it is in flight |
| MigrationDatabase.Database.BeginRun | app/worker.py:598-632 | takes the start step, or the failure step when the provider cannot be set up, whatever the job's status is by then |
| MigrationDatabase.Database.RunBatch | app/worker.py:639-680 | one pass of the batch loop takes the batch step, or the failing or stopping one |
| MigrationDatabase.Database.CheckBeforeFlip | app/worker.py:682-685 | takes the last look at the job |
| MigrationDatabase.Database.FlipAndCleanUp | app/worker.py:686-695 | takes the flip step and returns the number of deleted rows |
| MigrationDatabase.Database.RunToEnd | app/worker.py:639-695 | run alone, the batch loop and the last transaction reach the state of the recursive specification |
| MigrationDatabase.Database.ReembedAllPages | app/worker.py:559-695 | so does the whole task |
| MigrationDatabase.Database.SetActiveSpec | app/routers/admin_settings.py:66-106 | writes the active spec as it is sent |
| MigrationDatabase.Database.ReembedPages | app/ai/wiki_compiler.py:652-712 | takes the compiler's step under the active spec |
| MigrationDatabase.Database.OpenPipeline | app/ai/mrp/pipeline.py:527 | a pipeline run takes the active spec with it |
| MigrationDatabase.Database.EmbedCommitted | app/ai/mrp/pipeline.py:263-268 | a committed page gets a row under the spec the run took with it, from the planned text |
| Lifecycle.StepKeepsGate | app/worker.py:200-231 | every transaction keeps: queued and running work finds its inputs and was cleared by the token gate |
| Lifecycle.GatedRetry | app/routers/sources.py:598-615 | the job a retry picks by phase has its input, whatever state the source failed in |
| Lifecycle.QueuedTasksFindInputs | app/worker.py:728-729 | in every reachable state a queued file job finds its stored file, a map-reduce, caption, refine or regenerate job its text, a regenerate job its plan |
| Lifecycle.TokenGate | app/worker.py:203-219 | above the threshold nothing beyond extraction is queued, run or recorded before an approved extraction |
| Lifecycle.RevivesOnly | app/routers/sources.py:574-615 | only an admin retry, a plan approval, a department change or a worker step makes an inactive source active without passing the cap |
| Lifecycle.RetryBudget | app/worker.py:1097-1114 | in every run `auto_recover_count` is at most the cap, read as at least 1, plus the ungated revivals, and strictly below while the source is active |
| Lifecycle.ResetIff | app/database/__init__.py:23-27 | it is zero at `plan_ready` and `ready` throughout a run if and only if no worker finishes with a copy of the count that reads zero while the count does not |
| Lifecycle.SweepOutlivesCommit | app/ai/mrp/pipeline.py:293-302 | a source swept while its first run is about to commit ends up ready with a count of 1 |
| Lifecycle.CapZero | app/config.py:98 | with a cap of 0 a new source reaches a count of 1 without any revival |
| Lifecycle.BudgetHoldsIff | app/worker.py:1097-1114 | the count stays within the cap itself plus the revivals, in all runs from all new sources, if and only if the cap is positive |
| Lifecycle.BlockedUntilReviewed | app/routers/sources.py:580-592 | at the cap a source stays in error with its count, whatever happens, until an admin retries or a plan is approved |
| Lifecycle.DepartmentChange | app/ai/mrp/pipeline.py:378-390 | from every finished source a department change and its map-reduce job end with nothing changed but the status, with the old plan to conclude, or with a new run about to map |
| Lifecycle.DepartmentRemapsIff | app/routers/sources.py:492-538 | a department change leads to a new mapping run if and only if the phase is not refine, verify or commit and there is no pending or approved plan under review |
| Lifecycle.RetryResumesRefining | app/routers/sources.py:598-615 | a retry in refine, verify or commit and the job it queues end writing, or verifying with saved drafts; without a usable plan the source fails again; nothing else changes |
| Lifecycle.RetryResumesMapping | app/routers/sources.py:598-615 | a retry on the way to a plan ends about to map, or concluding the plan under review; nothing else changes |
| Lifecycle.RetryRestarts | app/routers/sources.py:598-615 | a retry before any phase ends extracting the source again, by the task of its kind |
| Lifecycle.ImagesCaptionedFirst | app/worker.py:203-231 | a source with images is queued for captioning when it passes the token gate or is approved, one without for map-reduce, and captioning, done or skipped, queues map-reduce |
| Lifecycle.ExclusionLostIff | app/routers/sources.py:799-819 | one step loses "at most one outstanding regenerate, plan then `regenerating`" if and only if it is one of three collisions |
| Lifecycle.ExclusionIff | app/worker.py:939-1008 | over whole runs exclusion holds at every point if and only if no step collides |
| Lifecycle.RegenerateWritesOverRegenerating | app/worker.py:994-999 | in a collision-free run the unconditional write back always replaces `regenerating`, never an approval |
| Lifecycle.StepKeepsOrder | app/routers/sources.py:737-770 | without replanning or duplicate delivery nothing collides and an approval is never undone |
| Lifecycle.OneApproval | app/routers/sources.py:737-770 | then exclusion holds throughout and at most one approval enqueues a refine job |
| Lifecycle.ReplanUndoesApproval | app/ai/mrp/reducer.py:780-797 | from every reviewable source a regenerate request and a retry lead to an approved plan that the next step sets back to review |
| Recovery.KeptIsFinished | app/worker.py:1055-1071 | from every state that keeps the gate, whatever else is queued or running, a source that is not lost reaches `ready` by steps that do not fail, with its images or without |
| Recovery.FinishesIff | app/worker.py:1055-1071 | a source at rest can be finished if and only if it is not lost: there is a plan to decide on, or its status and location let somebody take it up and refinement accepts its plan; a lost one never becomes ready in any run whatsoever |
| Recovery.ReachableFinishesIff | app/worker.py:1055-1071 | so it is for every source that any run from its creation has brought to rest |
| Recovery.LostEntry | app/routers/sources.py:574-580 | a new source whose queue entry is lost stays `pending` for good |
| Recovery.LostByProbe | app/ai/mrp/pipeline.py:413-425 | a source left `failed` by a probe, its failure not recorded by the worker, stays so for good |
| WorkBalance.StepBalances | app/routers/sources.py:574-870 | one step adds a task for an accepted request or a duplicate delivery, takes one away where the source waits, is finished, lacks an input or fails, and otherwise keeps the number of tasks and runs |
| WorkBalance.WorkConserved | app/worker.py:702-900 | over any run the tasks and runs there are make up those there were and those created, less those ended |
| WorkBalance.StatusTurnsIff | app/worker.py:233-251 | in one step a source turns to `error`, `failed` or `ready` exactly at the listed events |
| WorkBalance.PlanTurns | app/routers/sources.py:737-870 | the status diagram of the plan: which status each event gives it and when, and that nothing else touches it |
| WorkBalance.RedeliveryRestarts | app/worker.py:1349-1354 | a task delivered again after its worker was lost waits once and, once taken, starts over from what has been saved |
| SourceRecord.Source.constructor | app/routers/sources.py:351-363 | a new source is in an initial state of the life cycle, with an empty history |
| SourceRecord.Source.UploadFile | app/routers/sources.py:376-392 | stores the file and queues its ingestion |
| SourceRecord.Source.EditDepartments | app/routers/sources.py:472-545 | refuses exactly in-flight sources, re-queues a ready one on a real change, and keeps the gate and the budget, as every method here does |
| SourceRecord.Source.Retry | app/routers/sources.py:574-620 | accepts if and only if status, cap and location allow it, and queues by phase |
| SourceRecord.Source.ApproveExtraction | app/routers/sources.py:696-713 | accepts only `awaiting_approval` and queues captioning or map-reduce |
| SourceRecord.Source.ApprovePlan | app/routers/sources.py:737-774 | accepts exactly a plan pending review, approves it and queues its refine job |
| SourceRecord.Source.RejectPlan | app/routers/sources.py:841-870 | accepts exactly a plan pending review, rejects it and sets the source to error |
| SourceRecord.Source.RegeneratePlan | app/routers/sources.py:799-819 | accepts exactly a pending or rejected plan, which becomes `regenerating`; the job is queued after that commit |
| SourceRecord.Source.StartIngest | app/worker.py:129-138 | ingestion starts, or ends at once without a stored file |
| SourceRecord.Source.SaveText | app/worker.py:149-200 | the text is saved, or the source fails for lack of it |
| SourceRecord.Source.PassGate | app/worker.py:203-231 | above the threshold the source waits, below it the pipeline is queued |
| SourceRecord.Source.StartCaptions | app/worker.py:1213-1227 | captioning starts, or is skipped into map-reduce without a vision provider |
| SourceRecord.Source.FinishCaptions | app/worker.py:1309-1311 | captioning ends by queuing map-reduce |
| SourceRecord.Source.StartMapReduce | app/worker.py:723-735 | map-reduce starts and remembers the phase it read |
| SourceRecord.Source.RouteMapReduce | app/ai/mrp/pipeline.py:378-390 | a reviewable plan is kept, later phases end the run, everything else is mapped |
| SourceRecord.Source.StartMap | app/ai/mrp/pipeline.py:413-425 | the map phase begins, or the failed probe marks the source |
| SourceRecord.Source.FinishMap | app/ai/mrp/pipeline.py:430-434 | the phase becomes `reduce` |
| SourceRecord.Source.SavePlan | app/ai/mrp/reducer.py:774-799 | the plan is upserted to `pending_review` whatever it was |
| SourceRecord.Source.AutoTriggerRefine | app/ai/mrp/pipeline.py:455-481 | a pending plan is approved if that transaction goes through; the refine job is queued either way |
| SourceRecord.Source.FinishPlanning | app/worker.py:779-791 | `plan_ready` with the count reset unless the worker's copy reads zero, or automatic approval |
| SourceRecord.Source.StartRefine | app/worker.py:838-849 | refinement starts and remembers the phase it read |
| SourceRecord.Source.RunRefinePipeline | app/ai/mrp/pipeline.py:505-625 | an unapproved plan fails the run; otherwise it writes pages or resumes from saved drafts |
| SourceRecord.Source.OpenPlan | app/worker.py:859-868 | a refine run takes the opening step |
| SourceRecord.Source.FinishWriting | app/ai/mrp/pipeline.py:574-577 | the phase becomes `verify` |
| SourceRecord.Source.CommitPages | app/ai/mrp/pipeline.py:286-302 | plan done, phase `commit`, source ready, count reset unless the worker's copy reads zero |
| SourceRecord.Source.StartRegenerate | app/worker.py:928-933 | a regenerate run starts if there is a plan |
| SourceRecord.Source.FinishRegenerate | app/worker.py:994-1008 | success writes `pending_review` unless the worker's copy of the plan reads it already; failure writes it if that copy reads `regenerating`, whatever the plan is by then |
| SourceRecord.Source.FailRun | app/worker.py:233-251 | a failing run marks the source `error` unless marking fails too or it is a caption run |
| SourceRecord.Source.SweepStuck | app/worker.py:1087-1100 | a stuck `processing` source is set to error and counted |
| WikiStore.InsertEffect | app/services/wiki_service.py:444-479 | an insert adds a row under its key whether or not there is one, leaves keys apart if and only if they were and there was none, and touches neither reserved pages nor other scopes |
| WikiStore.UpdateEffect | app/services/wiki_service.py:482-528 | whichever matching row it finds, an update keeps all keys and counts and touches nothing outside the scope's ordinary pages |
| WikiStore.SlugIff | app/ai/wiki_agent_tools.py:262-272 | the slugs accepted are the ones of two characters or more with small letters and digits at both ends and these, `_`, `/` and `-` between them, `_index` and `_log` excepted |
| WikiCompiler.StepOverwrites | app/ai/wiki_compiler.py:359-426 | an operation on an existing slug overwrites exactly one of its rows, whichever the lookup returns, with `new_content_md` if present and not empty, else `content_md` likewise, else nothing; it is counted and touched unless it raises after its flush |
| WikiCompiler.StepCreates | app/ai/wiki_compiler.py:381-408 | a create appends its row, titled as given or by the last segment of its slug, and a rival's in the order of their commits and leaves all others alone; only with an index it overwrites the rival's |
| WikiCompiler.StepSkips | app/ai/wiki_compiler.py:354-434 | an operation that breaks, is unknown or has no valid slug changes nothing, and a log operation only the log entry |
| WikiCompiler.ChangedAreTouched | app/services/wiki_service.py:517-519 | for all operation lists a page that has changed is in the touched list, and so embedded again, unless an operation on it raised after its flush |
| WikiCompiler.RivalDoubles | alembic/versions/018_drop_skill_description.py:188 | a create that meets a rival succeeds, is counted, and leaves two rows under one slug |
| WikiCompiler.KeysUniqueIff | app/services/wiki_service.py:263-290 | for all operation lists keys are apart after the loop if and only if they were before and no first create of a slug met a rival |
| WikiCompiler.IndexKeepsKeys | app/ai/wiki_compiler.py:398-407 | with a unique index the fallback to an update would keep keys apart against every rival |
| WikiCompiler.OperationsBalanced | app/ai/wiki_compiler.py:354-434 | for any operation list, any rivals and any exceptions, early or after a flush, the scope grows by exactly the created pages and the rivals' rows, no other row appears or goes, and touched slugs exist |
| WikiCompiler.UpsertRowsFrame | app/ai/wiki_compiler.py:672-712 | re-embedding leaves rows of other pages and other specs alone |
| WikiCompiler.PickedOnceIff | app/ai/wiki_compiler.py:672-690 | at least one page is selected per distinct touched slug, and exactly one if and only if no selected slug has two rows |
| WikiCompiler.IndexFreshAfterCompile | app/ai/wiki_compiler.py:436-438 | after a compile every row under a touched slug, a rival's included, has been embedded once with the hash of its current text |
| WikiCompiler.FreshHolds | app/services/embedding_storage.py:24-32 | a fresh row was embedded from the title, summary and content its page has now |
| WikiCompiler.EditMakesStale | app/ai/wiki_compiler.py:672-712 | an edit of any one of them makes the row stale until the page is embedded again |
| WikiCompiler.Compiler.ApplyOperations | app/ai/wiki_compiler.py:354-434 | the operation loop computes the specified fold |
| WikiCompiler.Compiler.InsertPage | app/ai/wiki_compiler.py:382-407 | the insert in its savepoint, with or without an index, computes the specified step |
| WikiCompiler.Compiler.ReembedPages | app/ai/wiki_compiler.py:652-712 | one embedding batch over the selected pages; nothing changes when there is no spec or the call fails |
| AgentProtocol.NeutralToOpenAiMessages | app/ai/agent_protocol.py:110-140 | the conversion loop equals the conversion function |
| AgentProtocol.NeutralToAnthropicMessages | app/ai/agent_protocol.py:75-107 | the conversion loop equals the conversion function |
| AgentProtocol.OpenAiPair | app/ai/agent_protocol.py:110-140 | a turn and its results become the assistant message followed by exactly its tool messages |
| AgentProtocol.OpenAiConversation | app/ai/agent_protocol.py:110-140 | every well-formed history converts to a conversation in which each call is answered, in order, before anything else |
| AgentProtocol.AnthropicConversation | app/ai/agent_protocol.py:75-107 | every well-formed history converts to alternating roles with no empty block, each tool use answered by the next message |
| AgentProtocol.OpenAiRoundTrip | app/ai/agent_protocol.py:110-140 | the OpenAI form of a well-formed history determines it, raw provider content aside |
| AgentProtocol.AnthropicRoundTrip | app/ai/agent_protocol.py:95-106 | the Anthropic form determines an assistant message up to absent and empty text |
| AgentProtocol.AnthropicHistory | app/ai/agent_protocol.py:75-107 | from the Anthropic form of a well-formed history every user text, every result with its id, name and content, and every assistant turn up to absent and empty text can be read back |
| WikiAgent.ActKeepsBooks | app/ai/wiki_agent_tools.py:325-477 | one tool call, even one that raises after writing its page or meets another writer, keeps the books: the scope has grown by the recorded and the unrecorded pages, keys are apart if and only if they were and none is both, other scopes are untouched |
| WikiAgent.ActAllKeepsBooks | app/ai/wiki_agent.py:356-376 | so does a whole turn, and each dispatched call is counted once |
| WikiAgent.DrivePrompts | app/ai/wiki_agent.py:323-381 | every prompt is a well-formed history extending the previous one by one pair, and there are at most as many as allowed |
| WikiAgent.DriveKeepsBooks | app/ai/wiki_agent.py:323-381 | over a whole session the books are kept and `tool_calls` equals the calls in the history |
| WikiAgent.EveryPromptAccepted | app/ai/wiki_agent.py:323-381 | every prompt of a compile satisfies both providers' rules, and there are fewer than `MAX_STEPS` before it |
| WikiAgent.CallWrites | app/ai/wiki_agent_tools.py:385-478 | undisturbed, a create call with exactly its arguments adds one row of just these texts when the slug is valid and free, an update call rewrites one row of the slug it names in what it sends, a log call extends the log, and no other call writes |
| WikiAgent.OnlyFinishEnds | app/ai/wiki_agent_tools.py:475-478 | whatever befalls it, a finish call with its report ends the session, and no other call does |
| WikiAgent.RaisesLeave | app/ai/wiki_agent.py:366-373 | a handler that raises at once leaves the count only, one that raises after writing leaves the page unrecorded |
| WikiAgent.AnswersTruly | app/ai/wiki_agent_tools.py:325-478 | what a call is told is what has become of the ledger: the page recorded as created or updated, the row read, the entry logged, the report, or a refusal after which, unless the handler raised late, nothing has changed |
| WikiAgent.ResultsTell | app/ai/wiki_agent.py:356-381 | each tool result of a turn carries id and name of its call and what that call returned, handled after those before it |
| WikiAgent.LogKeepsText | app/services/wiki_service.py:631-663 | an entry goes behind what the log page held, trimmed, and no other page changes; a page that is empty or holds `_(empty` is begun again |
| WikiAgent.LogForgets | app/services/wiki_service.py:657-660 | an entry that contains `_(empty` is gone, with all before it, as soon as the next one is written |
| WikiAgent.AgentState.CreatePage | app/ai/wiki_agent_tools.py:385-425 | cleans the slug, refuses invalid, reserved and existing ones, otherwise inserts the stripped page and records it |
| WikiAgent.AgentState.UpdatePage | app/ai/wiki_agent_tools.py:429-463 | cleans the slug, refuses missing pages, otherwise rewrites the row found, records it, and reports one version more than it wrote |
| WikiAgent.AgentState.ReadPage | app/ai/wiki_agent_tools.py:325-341 | cleans the slug, returns the row found and records the slug, or refuses |
| WikiAgent.AgentState.Handle | app/ai/wiki_agent_tools.py:325-477 | takes the step of the tool called, early and late raises included |
| WikiAgent.AgentState.Dispatch | app/ai/wiki_agent.py:357-376 | counts the call and takes the specified step; a raising handler leaves the count and at most its page row |
| WikiAgent.AgentState.HandleCalls | app/ai/wiki_agent.py:356-376 | handles the calls of a turn in order, one result each |
| WikiAgent.AgentState.CompileSource | app/ai/wiki_agent.py:323-381 | the loop computes the specified session: prompts, history, ledger and whether it raised |
| TreeDiff.Classify | app/routers/skill_contributions.py:724-743 | one round of the classification loop adds the entry of one normalised path |
| TreeDiff.DiffStatus | app/routers/skill_contributions.py:686-745 | the status map holds exactly the entries of all normalised paths, in whatever order they are visited |
| TreeDiff.KeysNeverCollide | app/routers/skill_contributions.py:731-743 | a deleted file's key is never also the key of an added or modified one |
| TreeDiff.KeyMeaning | app/routers/skill_contributions.py:731-743 | what a key says: added, deleted or modified if and only if the normalised trees differ so, with the contribution's file behind it |
| TreeDiff.DiffPatch | app/routers/skill_contributions.py:686-745 | the status map applied to the normalised base tree gives the normalised contribution |
| TreeDiff.EmptyIffEqual | app/routers/skill_contributions.py:686-745 | the status map is empty if and only if the normalised trees are equal |
| TreeDiff.CompleteIff | app/routers/skill_contributions.py:713-720 | the normalised tree holds every listed file if and only if no listed path is the root, alone or followed only by slashes, and no two differ only in the number of slashes right after it |
| TreeDiff.DoubleSlashHides | app/routers/skill_contributions.py:713-720 | of `r/a` and `r//a` only the one listed last is compared |
| TreeDiff.RootIff | app/routers/skill_contributions.py:686-708 | a common folder is found if and only if it is the folder of the first path and every path lies in it or is named like it |
| ProfileCache.StepKeepsInv | app/ai/runtime_profile.py:271-350 | every step keeps the lock held by the one loading caller and the time stamps in order |
| ProfileCache.OneLoadAtATime | app/ai/runtime_profile.py:282-350 | over all interleavings at most one caller is past the lock |
| ProfileCache.BoundedStaleness | app/ai/runtime_profile.py:271-289 | every hit serves settings read less than 60 seconds before its caller came, for the model asked |
| ProfileCache.InvalidationForcesReload | app/ai/runtime_profile.py:156-160 | with no load that began to read before, every later hit, in every continuation, is on an entry loaded after the invalidation |
| ProfileCache.InvalidationHoldsIff | app/ai/runtime_profile.py:282-289 | from every state, hits after an invalidation serve only later reads, in every continuation, if and only if no load that began to read before is either younger than 60 seconds or able to serve a caller that is waiting, came within 60 seconds of it, and asks for a name the load may resolve to |
| ProfileCache.LateLoadServed | app/ai/runtime_profile.py:348-350 | a load under way can refill the cache after the invalidation and serve a new or a waiting caller |
| ProfileCache.SecondCallHitsIff | app/ai/runtime_profile.py:274-280 | the caller's next request hits if and only if it comes within 60 seconds and the resolved model name is the requested one |
| ProfileCache.HitIff | app/ai/runtime_profile.py:271-280 | however long the clock runs on, a caller is served from the cache if and only if the entry is less than 60 seconds old and for the model asked, or for any |
| ProfileCache.WaiterHitIff | app/ai/runtime_profile.py:282-289 | the same for a caller who has waited for the lock, judged by when it came: it leaves with the entry or holds the lock, and nobody else is touched |
| ProfileCache.LoadFills | app/ai/runtime_profile.py:282-350 | a caller the cache does not serve, with the lock free, leaves in the cache what the settings resolve to, in the settings what the probe found, and the lock free |
| ProfileCache.AbortFrees | app/ai/runtime_profile.py:282 | a load that raises changes neither cache nor settings, and the next who waits can take the lock |
| ProfileCache.ProbesIff | app/ai/runtime_profile.py:298-315 | a probe is made if and only if there is a client, the profile is local, and no length and name are stored for the request |
| ProfileCache.ResolvedFrom | app/ai/runtime_profile.py:291-350 | where kind, context length and model name of a served profile come from, in all cases |
| ProfileCache.LadderOnly | app/ai/runtime_profile.py:323-330 | the ladder decides only where it is allowed, for a named model, when nothing else tells the length; failing it leaves the default |
| ProfileCache.ProbeOnce | app/ai/runtime_profile.py:331-335 | what a probe finds is stored, so that the next load does not probe and serves the same profile, unless the endpoint goes by another name than the one asked for |
| ProfileCache.SavesOnlyFindings | app/ai/runtime_profile.py:331-335 | what a probe does not find stays stored as it was, and a load that does not probe stores nothing |
| ProfileCache.Cache.Clear | app/ai/runtime_profile.py:156-160 | takes the invalidation step |
| ProfileCache.Cache.FastPath | app/ai/runtime_profile.py:271-280 | takes the entering step and serves from the cache or queues the caller |
| ProfileCache.Cache.TakeLock | app/ai/runtime_profile.py:282-289 | takes the locking step, with the second check |
| ProfileCache.Cache.ReadProfileSetting | app/ai/runtime_profile.py:291-296 | takes the first read under the lock |
| ProfileCache.Cache.ReadContextSetting | app/ai/runtime_profile.py:299 | takes the second read |
| ProfileCache.Cache.ReadModelSetting | app/ai/runtime_profile.py:300 | takes the third read |
| ProfileCache.Cache.Load | app/ai/runtime_profile.py:301-350 | decides, probes, saves, fills the cache and releases the lock as the resolving function says |
| ProfileCache.Cache.GiveUp | app/ai/runtime_profile.py:282 | a load that raises releases the lock and leaves the cache alone |
| Gaps.GetGaps | app/routers/admin_stats.py:277-304 | the nested loops, sort and limit compute the specified ranking |
| Gaps.Absorb | app/routers/admin_stats.py:282-297 | one item finds or creates its bucket and adds count, samples and requesters |
| Gaps.FirstDistinctSamples | app/routers/admin_stats.py:293-295 | samples are distinct, at most five, the ones offered first, in that order, and complete while there is room |
| Gaps.MergedBucket | app/routers/admin_stats.py:277-298 | each bucket holds the sum, first samples and requesters of exactly the items with its key |
| Gaps.TotalConserved | app/routers/admin_stats.py:277-298 | before the limit the counts add up to the counts of all keyed items |
| Gaps.RowOrderIrrelevant | app/routers/admin_stats.py:277-298 | counts and requesters do not depend on the order of the rows |
| Gaps.SortDescSorts | app/routers/admin_stats.py:299-304 | the ranking falls, is a permutation, and keeps the order of equal counts |
| Gaps.RankedGap | app/routers/admin_stats.py:277-304 | a gap is ranked if and only if it carries its exact totals over the window |
| Gaps.LimitKeepsFirst | app/routers/admin_stats.py:299-304 | as many gaps are returned as there are, up to the limit, and they are the first of the ranking |
| Gaps.LimitDropsSmallest | app/routers/admin_stats.py:303-304 | no omitted gap has a larger count than a returned one |
| Gaps.ReorderedRows | app/routers/admin_stats.py:277-304 | reordering rows can change samples only |
| Membership.BulkReported | app/routers/projects.py:476-534 | one result per id, in order; added, skipped and errored add up to the input length |
| Membership.BulkCounted | app/routers/projects.py:476-534 | each of the three counters is the number of results of its kind |
| Membership.BulkAddsExactly | app/routers/projects.py:476-534 | existing roles are untouched and the new members are exactly the reported ones, none twice |
| Membership.ResultsFit | app/routers/projects.py:476-534 | every result is the right one by the input alone: a repeated id, an unreadable one, an unknown employee, a member with the role from before or from earlier in the batch, a refused insert, or an addition |
| Membership.ServeKeepsAdmins | app/routers/projects.py:212-590 | across any serial run of requests every workspace keeps an admin |
| Membership.ChangesIff | app/routers/projects.py:117-590 | a request changes something if and only if who sends it may and what it asks for is possible: system administrators for workspaces, they and the workspace's admins for members, never the last admin |
| Membership.RolesAfter | app/routers/projects.py:212-590 | an allowed request makes of its own membership what it asks for and leaves every other one as it was |
| Membership.BulkTakesEffect | app/routers/projects.py:452-534 | the same for bulk requests: the batch takes effect if and only if the sender may add members, else nothing changes |
| Membership.OutsidersChangeNothing | app/routers/projects.py:117-130 | whatever people who are no admins of a workspace send, in any order, its memberships stay as they are |
| Membership.RemovalGuardExact | app/routers/projects.py:553-558 | the guard refuses exactly the removals that leave no admin |
| Membership.DemotionGuardExact | app/routers/projects.py:583-588 | the guard refuses exactly the role changes that leave no admin |
| Membership.ConcurrentLossIff | app/routers/projects.py:553-590 | any number of removals and demotions checked before any is written leave the workspace without an admin if and only if every admin is the target of one |
| Membership.ConcurrentPairIff | app/routers/projects.py:553-590 | two allowed ones, each of which alone does what the serial step does, leave no admin together if and only if their targets are all the admins there are |
| Membership.ConcurrentRemovals | app/routers/projects.py:553-558 | with two admins both removals pass the guard when checked together, and none remains |
| Membership.Workspaces.CreateProject | app/routers/projects.py:212-244 | a system admin creates a workspace and becomes its admin |
| Membership.Workspaces.RemoveProject | app/routers/projects.py:275-286 | a system admin deletes a workspace with its memberships |
| Membership.Workspaces.AddMember | app/routers/projects.py:412-444 | takes the add step and says whether it was allowed |
| Membership.Workspaces.BulkAddMembers | app/routers/projects.py:452-534 | the loop computes members, results and the three counters of the specification |
| Membership.Workspaces.RemoveMember | app/routers/projects.py:537-559 | takes the removal step and says whether it was allowed |
| Membership.Workspaces.UpdateMember | app/routers/projects.py:562-590 | takes the role change step and says whether it was allowed |
| Settings.MaskEqualIff | app/services/config_service.py:182-200 | two secrets have the same mask if and only if both are long and end alike or both are short and equally long |
| Settings.SecretsAtRest | app/services/config_service.py:28-37 | the providers' keys, the mail password and the webhook secret are stored encrypted, and nothing else is |
| Settings.ReadsBack | app/services/config_service.py:126-156 | a value is read back as it was set, and one that does not decrypt is read as it stands |
| Settings.SecretsShown | app/services/config_service.py:182-200 | the view shows of a credential at most its last four characters, and of a short one only its length; other values as they are |
| Settings.SetBatchKeepsStored | app/services/config_service.py:158-173 | a batch never stores a secret that decrypts to nothing |
| Settings.UntouchedKey | app/services/config_service.py:202-215 | a batch changes only the rows it names |
| Settings.EchoHarmlessIff | app/services/config_service.py:182-215 | sending the masked view back changes no effective value if and only if every secret is empty, has four characters or is all bullets |
| Settings.StaleEcho | app/services/config_service.py:182-215 | a view of one state sent back into any later one: the exact effective value every key has then |
| Settings.StaleEchoReverts | app/services/config_service.py:202-215 | in particular a key that is no secret goes back to its old value, whatever was set in between |
| Settings.ShortSecretLost | app/services/config_service.py:182-215 | a secret of one to three characters is replaced by bullets |
| Settings.ConfigService.SetValue | app/services/config_service.py:158-173 | writes one row, encrypting a non-empty secret |
| Settings.ConfigService.WriteBatch | app/services/config_service.py:202-215 | refuses unknown keys, skips masked values, writes the rest, and reports per key |
| Settings.ConfigService.GetAllForUi | app/services/config_service.py:182-200 | every known key with its masked value, and for each secret whether one is set |

## Left out

- Transactions are single steps: races inside one request or job, such as a worker starting before the enqueuing transaction has committed, are not modelled.
- A failing enqueue after an upload is not modelled.
- The queue's own events (loss, crash, redelivery, duplicate delivery) are steps of the state machines but not methods of the source record or the migration database; page edits are steps but not methods of the latter.
- At most one live run per migration job; redelivery happens after the previous run has died.
- The object-relational mapper writes an attribute only when its value differs from the one loaded. This is modelled for a job's status at its start, the sweep count and the plan status of a regenerate run; what a worker's copy reads is then a parameter of the event. All other assignments are written unconditionally, as the code reads.
- The local AI mode of the registry.
- Other writers appear in the compiler and the agent only around a create of the same slug, not between any two operations.
- Migration.FlipSearchableIff: stated for runs in which no other job flips, because another flip deletes the rows under the new spec (`TwoFlipsEmpty`, `TwoFlipsReached`); `PromptIsEnough` and `SolidIff` say what rules it out.
- A batch reads its pages, embeds them and writes their rows in one step; an edit or a deletion in between is not modelled.
- Page types, page links, knowledge types, source ids and revisions of wiki pages, and the regeneration of index pages.
- The single-shot compiler's final log entry, which goes to the default scope.
- In the single-shot compiler slugs enter the model after `strip().lower()`; the agent's cleaning is an arbitrary function of the slug. Log lines carry no time stamp.
- Vectors, provider calls, rate limits and timeouts: calls succeed or fail, and an embedding is identified with its input text.
- The hash is an injective function of its input, the cipher an arbitrary pair of functions with decryption undoing encryption.
- The content of tool results and of JSON arguments: results are rendered by an arbitrary function, arguments are string maps.
- The conversion to Gemini contents, tool schemas, and the agent's pre-analysis prompt.
- Object storage: paths enter the tree diff after the storage prefix, a leading `content/` and leading slashes are removed.
- Newlines in captions are replaced and captions trimmed before the caption map enters the model.
- Deletion of sources and employees, the clean-up of orphaned sources, which deletes those that wait too long for an approval, per-image captioning, digests and chunk extraction.
- The note a reviewer gives with a regenerate request; it is lost when intake is paused, so nothing is claimed about it.
- The knobs derived from a profile and the probing of model endpoints beyond their results.
- Sorting of requester ids in the gap report; they are sets here.
- Permissions other than workspace administration.
