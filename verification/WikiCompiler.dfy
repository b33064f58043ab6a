/**
 The single-shot wiki compiler: an arbitrary operation list from an LLM, applied to one scope
 of the page table, and the re-embedding of every page it touched.
 */
module WikiCompiler {
  import opened Options
  import opened EmbeddingStorage
  import opened WikiStore

  /**
   Slugs are texts already stripped and lower-cased, None when the key holds no text.
   Titles, summaries and contents are None when the key is absent.
   */
  datatype Operation =
    | Create(slug: Option<string>, title: Option<string>, summary: Option<string>, content: Option<string>, newContent: Option<string>)
    | Update(slug: Option<string>, title: Option<string>, summary: Option<string>, content: Option<string>, newContent: Option<string>)
    | Log(entry: string)
    | Unknown

  /** The row of another writer that takes no lock on the slug, or a lock under another name. */
  datatype Rival = Rival(title: string, summary: string, content: string)

  /**
   What happens around one operation: nothing, a rival committing the same (slug, scope) between the
   lookup and the insert, a rival that looked before the insert and commits after it, an exception
   before any effect, or one after the page has been written. Only an insert has a savepoint to undo it.
   */
  datatype World = Calm | Raced(rival: Rival) | Chased(rival: Rival) | Broken | Late

  /** `choice` is the row the database returns to a lookup that matches several. */
  datatype Item = Item(op: Operation, world: World, choice: nat)

  /** `raced` counts the rivals' rows. */
  datatype State = State(rows: seq<WikiRow>, created: nat, updated: nat, touched: seq<string>, raced: nat, log: string)

  function Fallback(a: Option<string>, b: string): string {
    if a.Some? && a.value != "" then a.value else b
  }

  /** The part of a slug behind its last `/`. */
  function LastSegment(slug: string): string {
    if slug == "" then ""
    else
      var n := |slug| - 1;
      if slug[n] == '/' then "" else LastSegment(slug[..n]) + [slug[n]]
  }

  function CheckedSlug(slug: Option<string>): Option<string> {
    if slug.Some? && ValidSlug(slug.value) then slug else None
  }

  lemma CheckedSlugIff(slug: Option<string>, z: string)
    ensures CheckedSlug(slug) == Some(z) <==> slug == Some(z) && SlugText(z)
  {
    SlugIff(z);
    hide ValidSlug, SlugText;
  }

  function UpdateText(op: Operation): string
    requires op.Create? || op.Update?
  {
    Fallback(op.newContent, Fallback(op.content, ""))
  }

  function Overwrite(rows: seq<WikiRow>, slug: string, scope: Scope, choice: nat, op: Operation): seq<WikiRow>
    requires op.Create? || op.Update?
  {
    UpdateRow(rows, slug, scope, choice, UpdateText(op), op.summary, op.title)
  }

  function Own(rows: seq<WikiRow>, slug: string, scope: Scope, op: Operation): seq<WikiRow>
    requires op.Create?
  {
    InsertRow(rows, slug, scope, Fallback(op.title, LastSegment(slug)), Fallback(op.summary, ""), Fallback(op.content, ""))
  }

  function Theirs(rows: seq<WikiRow>, slug: string, scope: Scope, r: Rival): seq<WikiRow> {
    InsertRow(rows, slug, scope, r.title, r.summary, r.content)
  }

  /**
   A create whose lookup found nothing. Only a unique index over (slug, scope) makes the insert fail; the row to
   overwrite is then the rival's, the only one.
   */
  function Insert(indexed: bool, s: State, slug: string, scope: Scope, op: Operation, world: World): State
    requires op.Create? && !world.Broken? && !world.Late?
  {
    match world
    case Raced(rival) =>
      var theirs := Theirs(s.rows, slug, scope, rival);
      if indexed
      then s.(rows := Overwrite(theirs, slug, scope, 0, op), updated := s.updated + 1, raced := s.raced + 1)
      else s.(rows := Own(theirs, slug, scope, op), created := s.created + 1, raced := s.raced + 1)
    case Chased(rival) =>
      var ours := Own(s.rows, slug, scope, op);
      if indexed
      then s.(rows := ours, created := s.created + 1)
      else s.(rows := Theirs(ours, slug, scope, rival), created := s.created + 1, raced := s.raced + 1)
    case Calm => s.(rows := Own(s.rows, slug, scope, op), created := s.created + 1)
  }

  /** One operation, under a schema with or without the unique index. The present schema has none. */
  function Step(indexed: bool, s: State, item: Item, scope: Scope): State {
    var op := item.op;
    if item.world.Broken? then s
    else if op.Log? then s.(log := op.entry)
    else if op.Unknown? || CheckedSlug(op.slug).None? then s
    else
      var slug := op.slug.value;
      if Exists(s.rows, slug, scope) then
        var rows := Overwrite(s.rows, slug, scope, item.choice, op);
        if item.world.Late? then s.(rows := rows)
        else s.(rows := rows, updated := s.updated + 1, touched := s.touched + [slug])
      else if op.Update? || item.world.Late? then s
      else Insert(indexed, s, slug, scope, op, item.world).(touched := s.touched + [slug])
  }

  function ApplyAll(indexed: bool, s: State, items: seq<Item>, scope: Scope): State {
    if items == [] then s else Step(indexed, ApplyAll(indexed, s, items[..|items| - 1], scope), items[|items| - 1], scope)
  }

  function Start(rows: seq<WikiRow>): State { State(rows, 0, 0, [], 0, "") }

  lemma NoOperations(indexed: bool, rows: seq<WikiRow>, scope: Scope)
    ensures ApplyAll(indexed, Start(rows), [], scope) == Start(rows)
  {}

  lemma OneMore(indexed: bool, s: State, items: seq<Item>, i: nat, scope: Scope)
    requires i < |items|
    ensures ApplyAll(indexed, s, items[..i + 1], scope) == Step(indexed, ApplyAll(indexed, s, items[..i], scope), items[i], scope)
  {
    hide Step;
    assert items[..i + 1][..i] == items[..i];
  }

  // ----- what an operation list can and cannot do -----

  /** `rows` grew out of `before` by `n` ordinary pages of the scope, all under slugs in `slugs`. */
  ghost predicate Grown(before: seq<WikiRow>, rows: seq<WikiRow>, n: nat, slugs: set<string>, scope: Scope) {
    && (UniqueIds(before) ==> UniqueIds(rows))
    && Pages(rows, scope) == Pages(before, scope) + n
    && Outside(rows, scope) == Outside(before, scope)
    && (forall z, sc :: Exists(rows, z, sc) <==> Exists(before, z, sc) || (sc == scope && z in slugs))
  }

  lemma GrownInsert(before: seq<WikiRow>, rows: seq<WikiRow>, n: nat, slugs: set<string>, scope: Scope, slug: string, title: string, summary: string, content: string)
    requires Grown(before, rows, n, slugs, scope) && ValidSlug(slug)
    ensures Grown(before, InsertRow(rows, slug, scope, title, summary, content), n + 1, slugs + {slug}, scope)
  {
    InsertEffect(rows, slug, scope, title, summary, content);
    hide Exists, InsertRow, Pages, Outside, UniqueKeys, UniqueIds;
  }

  lemma GrownUpdate(before: seq<WikiRow>, rows: seq<WikiRow>, n: nat, slugs: set<string>, scope: Scope, slug: string, choice: nat, op: Operation)
    requires Grown(before, rows, n, slugs, scope) && ValidSlug(slug) && (op.Create? || op.Update?)
    requires Exists(rows, slug, scope)
    ensures Grown(before, Overwrite(rows, slug, scope, choice, op), n, slugs, scope)
    ensures Grown(before, Overwrite(rows, slug, scope, choice, op), n, slugs + {slug}, scope)
  {
    UpdateEffect(rows, slug, scope, choice, UpdateText(op), op.summary, op.title);
    hide Exists, UpdateRow, Pages, Outside, UniqueKeys, UniqueIds;
  }

  function SlugSet(slugs: seq<string>): set<string> {
    set z | z in slugs
  }

  /** The books of one compile, from the rows it found to the state it reached. */
  ghost predicate Balanced(before: seq<WikiRow>, s: State, scope: Scope) {
    && Grown(before, s.rows, s.created + s.raced, SlugSet(s.touched), scope)
    && |s.touched| == s.created + s.updated
    && (forall slug | slug in s.touched :: ValidSlug(slug) && Exists(s.rows, slug, scope))
  }

  lemma Touch(slugs: seq<string>, slug: string)
    ensures SlugSet(slugs + [slug]) == SlugSet(slugs) + {slug}
  {}

  lemma BalancedTouch(before: seq<WikiRow>, s: State, after: State, slug: string, scope: Scope)
    requires Balanced(before, s, scope) && ValidSlug(slug) && after.touched == s.touched + [slug]
    requires after.created + after.updated == s.created + s.updated + 1
    requires Grown(before, after.rows, after.created + after.raced, SlugSet(s.touched) + {slug}, scope)
    ensures Balanced(before, after, scope)
  {
    Touch(s.touched, slug);
    hide ValidSlug, Exists;
    forall z | z in after.touched ensures ValidSlug(z) && Exists(after.rows, z, scope) {
      ThereNow(before, after.rows, after.created + after.raced, SlugSet(after.touched), scope, z);
    }
  }

  lemma BalancedLate(before: seq<WikiRow>, s: State, after: State, scope: Scope)
    requires Balanced(before, s, scope) && after == s.(rows := after.rows)
    requires Grown(before, after.rows, s.created + s.raced, SlugSet(s.touched), scope)
    ensures Balanced(before, after, scope)
  {
    hide ValidSlug, Exists, Grown;
    forall z | z in after.touched ensures ValidSlug(z) && Exists(after.rows, z, scope) {
      ThereNow(before, after.rows, s.created + s.raced, SlugSet(s.touched), scope, z);
    }
  }

  lemma OwnEffect(rows: seq<WikiRow>, slug: string, scope: Scope, op: Operation)
    requires op.Create?
    ensures var after := Own(rows, slug, scope, op);
            && (UniqueKeys(after) <==> UniqueKeys(rows) && !Exists(rows, slug, scope))
            && forall z :: Exists(after, z, scope) <==> Exists(rows, z, scope) || z == slug
  {
    InsertEffect(rows, slug, scope, Fallback(op.title, LastSegment(slug)), Fallback(op.summary, ""), Fallback(op.content, ""));
    hide Exists, InsertRow, Fallback, LastSegment, UniqueKeys, UniqueIds, Pages, Outside;
  }

  lemma TheirsEffect(rows: seq<WikiRow>, slug: string, scope: Scope, r: Rival)
    ensures var after := Theirs(rows, slug, scope, r);
            && (UniqueKeys(after) <==> UniqueKeys(rows) && !Exists(rows, slug, scope))
            && forall z :: Exists(after, z, scope) <==> Exists(rows, z, scope) || z == slug
  {
    InsertEffect(rows, slug, scope, r.title, r.summary, r.content);
    hide Exists, InsertRow, UniqueKeys, UniqueIds, Pages, Outside;
  }

  lemma GrownOurs(before: seq<WikiRow>, rows: seq<WikiRow>, n: nat, slugs: set<string>, scope: Scope, slug: string, op: Operation)
    requires Grown(before, rows, n, slugs, scope) && ValidSlug(slug) && op.Create?
    ensures Grown(before, Own(rows, slug, scope, op), n + 1, slugs + {slug}, scope)
  {
    hide Grown, InsertRow, ValidSlug, Fallback, LastSegment;
    GrownInsert(before, rows, n, slugs, scope, slug, Fallback(op.title, LastSegment(slug)), Fallback(op.summary, ""), Fallback(op.content, ""));
  }

  lemma GrownTheirs(before: seq<WikiRow>, rows: seq<WikiRow>, n: nat, slugs: set<string>, scope: Scope, slug: string, r: Rival)
    requires Grown(before, rows, n, slugs, scope) && ValidSlug(slug)
    ensures Grown(before, Theirs(rows, slug, scope, r), n + 1, slugs + {slug}, scope)
  {
    hide Grown, InsertRow, ValidSlug;
    GrownInsert(before, rows, n, slugs, scope, slug, r.title, r.summary, r.content);
  }

  /** An insert adds its own page and those of the rivals, whoever comes first and whatever the index does. */
  lemma GrownOwn(before: seq<WikiRow>, s: State, n: nat, slugs: set<string>, scope: Scope, slug: string, op: Operation, world: World, indexed: bool)
    requires Grown(before, s.rows, n, slugs, scope) && ValidSlug(slug) && op.Create? && !world.Broken? && !world.Late?
    ensures var after := Insert(indexed, s, slug, scope, op, world);
            Grown(before, after.rows, n + (after.created - s.created) + (after.raced - s.raced), slugs + {slug}, scope)
  {
    hide Grown, Exists, Own, Theirs, Overwrite, ValidSlug;
    assert slugs + {slug} + {slug} == slugs + {slug};
    GrownOurs(before, s.rows, n, slugs, scope, slug, op);
    if world.Raced? {
      var theirs := Theirs(s.rows, slug, scope, world.rival);
      GrownTheirs(before, s.rows, n, slugs, scope, slug, world.rival);
      ThereNow(before, theirs, n + 1, slugs + {slug}, scope, slug);
      GrownUpdate(before, theirs, n + 1, slugs + {slug}, scope, slug, 0, op);
      GrownOurs(before, theirs, n + 1, slugs + {slug}, scope, slug, op);
    } else if world.Chased? {
      GrownTheirs(before, Own(s.rows, slug, scope, op), n + 1, slugs + {slug}, scope, slug, world.rival);
    }
  }

  lemma StepBalanced(indexed: bool, before: seq<WikiRow>, s: State, item: Item, scope: Scope)
    requires Balanced(before, s, scope)
    ensures Balanced(before, Step(indexed, s, item, scope), scope)
  {
    var op := item.op;
    hide Grown, Exists, InsertRow, UpdateRow, ValidSlug, SlugSet, Fallback, LastSegment;
    if !item.world.Broken? && (op.Create? || op.Update?) && CheckedSlug(op.slug).Some? {
      var slug := op.slug.value;
      if Exists(s.rows, slug, scope) {
        GrownUpdate(before, s.rows, s.created + s.raced, SlugSet(s.touched), scope, slug, item.choice, op);
        if item.world.Late? {
          BalancedLate(before, s, Step(indexed, s, item, scope), scope);
        } else {
          BalancedTouch(before, s, Step(indexed, s, item, scope), slug, scope);
        }
      } else if op.Create? && !item.world.Late? {
        GrownOwn(before, s, s.created + s.raced, SlugSet(s.touched), scope, slug, op, item.world, indexed);
        BalancedTouch(before, s, Step(indexed, s, item, scope), slug, scope);
      }
    }
  }

  lemma ThereNow(before: seq<WikiRow>, rows: seq<WikiRow>, n: nat, slugs: set<string>, scope: Scope, z: string)
    requires Grown(before, rows, n, slugs, scope) && z in slugs
    ensures Exists(rows, z, scope)
  {}

  /**
   For any operation list and any rivals, with or without the index: the scope grows by exactly the pages
   created plus the rivals' rows, reserved pages and other scopes keep every row as it was, and every
   touched slug is valid and present at the end.
   */
  lemma {:induction false} OperationsBalanced(indexed: bool, rows: seq<WikiRow>, items: seq<Item>, scope: Scope)
    ensures Balanced(rows, ApplyAll(indexed, Start(rows), items, scope), scope)
  {
    if items != [] {
      OperationsBalanced(indexed, rows, items[..|items| - 1], scope);
      StepBalanced(indexed, rows, ApplyAll(indexed, Start(rows), items[..|items| - 1], scope), items[|items| - 1], scope);
    }
  }

  // ----- unique keys -----

  /** The item is a create of `z` that goes through. */
  predicate Makes(item: Item, z: string) {
    item.op.Create? && !item.world.Broken? && !item.world.Late? && CheckedSlug(item.op.slug) == Some(z)
  }

  predicate MadeBefore(items: seq<Item>, z: string) {
    exists j | 0 <= j < |items| :: Makes(items[j], z)
  }

  /** Item `i` is the first create of a slug that the scope does not have, and a rival writes that slug too. */
  predicate DoubledAt(rows: seq<WikiRow>, items: seq<Item>, i: nat, scope: Scope) {
    && i < |items| && (items[i].world.Raced? || items[i].world.Chased?)
    && items[i].op.Create? && CheckedSlug(items[i].op.slug).Some?
    && !Exists(rows, items[i].op.slug.value, scope)
    && !MadeBefore(items[..i], items[i].op.slug.value)
  }

  lemma StepExists(indexed: bool, s: State, item: Item, scope: Scope, z: string)
    ensures Exists(Step(indexed, s, item, scope).rows, z, scope) <==> Exists(s.rows, z, scope) || Makes(item, z)
  {
    hide Exists, InsertRow, UpdateRow, ValidSlug, Insert;
    var op := item.op;
    if !item.world.Broken? && (op.Create? || op.Update?) && CheckedSlug(op.slug).Some? {
      var slug := op.slug.value;
      if Exists(s.rows, slug, scope) {
        UpdateEffect(s.rows, slug, scope, item.choice, UpdateText(op), op.summary, op.title);
      } else if op.Create? && !item.world.Late? {
        InsertExists(indexed, s, slug, scope, op, item.world, z);
      }
    }
  }

  lemma InsertExists(indexed: bool, s: State, slug: string, scope: Scope, op: Operation, world: World, z: string)
    requires op.Create? && !world.Broken? && !world.Late?
    ensures Exists(Insert(indexed, s, slug, scope, op, world).rows, z, scope) <==> Exists(s.rows, z, scope) || z == slug
  {
    hide Exists, Own, Theirs, UpdateRow, UniqueKeys, UniqueIds;
    OwnEffect(s.rows, slug, scope, op);
    if world.Raced? || world.Chased? {
      var theirs, ours := Theirs(s.rows, slug, scope, world.rival), Own(s.rows, slug, scope, op);
      TheirsEffect(s.rows, slug, scope, world.rival);
      OwnEffect(theirs, slug, scope, op);
      TheirsEffect(ours, slug, scope, world.rival);
      UpdateEffect(theirs, slug, scope, 0, UpdateText(op), op.summary, op.title);
    }
  }

  lemma MadeBeforeSnoc(items: seq<Item>, z: string)
    requires items != []
    ensures MadeBefore(items, z) <==> MadeBefore(items[..|items| - 1], z) || Makes(items[|items| - 1], z)
  {
    hide Makes;
  }

  /** A slug exists after the loop exactly when it did before or some create of it went through. */
  lemma {:induction false} ExistsAfter(indexed: bool, rows: seq<WikiRow>, items: seq<Item>, scope: Scope, z: string)
    ensures Exists(ApplyAll(indexed, Start(rows), items, scope).rows, z, scope) <==> Exists(rows, z, scope) || MadeBefore(items, z)
  {
    hide Exists, Step, Makes;
    if items != [] {
      var n := |items| - 1;
      ExistsAfter(indexed, rows, items[..n], scope, z);
      StepExists(indexed, ApplyAll(indexed, Start(rows), items[..n], scope), items[n], scope, z);
      MadeBeforeSnoc(items, z);
    }
  }

  lemma StepKeys(indexed: bool, s: State, item: Item, scope: Scope)
    ensures var doubles := !indexed && (item.world.Raced? || item.world.Chased?) && item.op.Create?
                           && CheckedSlug(item.op.slug).Some? && !Exists(s.rows, item.op.slug.value, scope);
            UniqueKeys(Step(indexed, s, item, scope).rows) <==> UniqueKeys(s.rows) && !doubles
  {
    hide Exists, InsertRow, UpdateRow, ValidSlug, Insert, UniqueKeys;
    var op := item.op;
    if !item.world.Broken? && (op.Create? || op.Update?) && CheckedSlug(op.slug).Some? {
      var slug := op.slug.value;
      if Exists(s.rows, slug, scope) {
        UpdateEffect(s.rows, slug, scope, item.choice, UpdateText(op), op.summary, op.title);
      } else if op.Create? && !item.world.Late? {
        InsertOwnKeys(indexed, s, slug, scope, op, item.world);
      }
    }
  }

  lemma InsertOwnKeys(indexed: bool, s: State, slug: string, scope: Scope, op: Operation, world: World)
    requires op.Create? && !world.Broken? && !world.Late? && !Exists(s.rows, slug, scope)
    ensures UniqueKeys(Insert(indexed, s, slug, scope, op, world).rows) <==> UniqueKeys(s.rows) && (indexed || world.Calm?)
  {
    hide Exists, Own, Theirs, UpdateRow, UniqueKeys, UniqueIds;
    OwnEffect(s.rows, slug, scope, op);
    if world.Raced? || world.Chased? {
      var theirs, ours := Theirs(s.rows, slug, scope, world.rival), Own(s.rows, slug, scope, op);
      TheirsEffect(s.rows, slug, scope, world.rival);
      OwnEffect(theirs, slug, scope, op);
      TheirsEffect(ours, slug, scope, world.rival);
      UpdateEffect(theirs, slug, scope, 0, UpdateText(op), op.summary, op.title);
    }
  }

  /** No first create of a slug met a rival. */
  predicate NoneDoubled(rows: seq<WikiRow>, items: seq<Item>, scope: Scope) {
    forall i | 0 <= i < |items| :: !DoubledAt(rows, items, i, scope)
  }

  lemma NoneDoubledSnoc(rows: seq<WikiRow>, items: seq<Item>, scope: Scope)
    requires items != []
    ensures var n := |items| - 1;
            NoneDoubled(rows, items, scope) <==> NoneDoubled(rows, items[..n], scope) && !DoubledAt(rows, items, n, scope)
  {
    var n := |items| - 1;
    hide Exists, MadeBefore;
    forall i | 0 <= i < n ensures DoubledAt(rows, items[..n], i, scope) <==> DoubledAt(rows, items, i, scope) {
      assert items[..n][..i] == items[..i] && items[..n][i] == items[i];
    }
  }

  /** After the loop keys are apart exactly when they were before it and no first create of a slug met a rival. */
  lemma {:induction false} KeysUniqueIff(rows: seq<WikiRow>, items: seq<Item>, scope: Scope)
    ensures UniqueKeys(ApplyAll(false, Start(rows), items, scope).rows) <==> UniqueKeys(rows) && NoneDoubled(rows, items, scope)
  {
    hide Exists, Step, MadeBefore, UniqueKeys;
    if items != [] {
      var n := |items| - 1;
      KeysUniqueIff(rows, items[..n], scope);
      NoneDoubledSnoc(rows, items, scope);
      StepKeys(false, ApplyAll(false, Start(rows), items[..n], scope), items[n], scope);
      if items[n].op.Create? && CheckedSlug(items[n].op.slug).Some? {
        ExistsAfter(false, rows, items[..n], scope, items[n].op.slug.value);
      }
    }
  }

  /** Were there a unique index, the fallback to an update would keep keys apart against every rival. */
  lemma {:induction false} IndexKeepsKeys(rows: seq<WikiRow>, items: seq<Item>, scope: Scope)
    requires UniqueKeys(rows)
    ensures UniqueKeys(ApplyAll(true, Start(rows), items, scope).rows)
  {
    if items != [] {
      IndexKeepsKeys(rows, items[..|items| - 1], scope);
      StepKeys(true, ApplyAll(true, Start(rows), items[..|items| - 1], scope), items[|items| - 1], scope);
    }
  }

  /** `text` is the first of the two that is there and not empty, or else empty. */
  predicate FirstGiven(text: string, a: Option<string>, b: Option<string>) {
    if a.Some? && a.value != "" then text == a.value
    else if b.Some? && b.value != "" then text == b.value
    else text == ""
  }

  /** `t` is the end of `slug` that holds no `/` and has one before it, or the whole slug. */
  predicate IsLastSegment(t: string, slug: string) {
    && |t| <= |slug| && slug[|slug| - |t|..] == t && '/' !in t
    && (|t| == |slug| || slug[|slug| - |t| - 1] == '/')
  }

  lemma SegmentGrows(init: string, t: string, c: char)
    requires IsLastSegment(t, init) && c != '/'
    ensures IsLastSegment(t + [c], init + [c])
  {
    var slug, u := init + [c], t + [c];
    assert slug[|slug| - |u|..] == init[|init| - |t|..] + [c];
  }

  lemma {:induction false} LastSegmentIs(slug: string)
    ensures IsLastSegment(LastSegment(slug), slug)
  {
    if slug != "" {
      var n := |slug| - 1;
      if slug[n] != '/' {
        hide IsLastSegment;
        LastSegmentIs(slug[..n]);
        SegmentGrows(slug[..n], LastSegment(slug[..n]), slug[n]);
        assert slug == slug[..n] + [slug[n]];
      }
    }
  }

  /** What a created page holds, by the fields of its operation. */
  predicate CreatedAs(r: WikiRow, op: Operation, slug: string)
    requires op.Create?
  {
    && r.slug == slug && r.version == 1
    && r.content == (if op.content.Some? then op.content.value else "")
    && r.summary == (if op.summary.Some? then op.summary.value else "")
    && (if op.title.Some? && op.title.value != "" then r.title == op.title.value else IsLastSegment(r.title, slug))
  }

  lemma OwnRow(rows: seq<WikiRow>, slug: string, scope: Scope, op: Operation)
    requires op.Create?
    ensures var after := Own(rows, slug, scope, op); |after| == |rows| + 1 && after[..|rows|] == rows && CreatedAs(after[|rows|], op, slug)
  {
    LastSegmentIs(slug);
    hide FreshId, LastSegment, IsLastSegment;
  }

  lemma UpdateTextIs(op: Operation)
    requires op.Create? || op.Update?
    ensures FirstGiven(UpdateText(op), op.newContent, op.content)
  {}

  /** An operation on a slug that exists overwrites one of its rows, the one the lookup returns, and no other. */
  lemma StepOverwrites(indexed: bool, s: State, item: Item, scope: Scope)
    requires (item.op.Create? || item.op.Update?) && !item.world.Broken? && CheckedSlug(item.op.slug).Some?
    requires Exists(s.rows, item.op.slug.value, scope)
    ensures var after := Step(indexed, s, item, scope); var op := item.op; var k := Found(s.rows, op.slug.value, scope, item.choice);
            && |after.rows| == |s.rows| && k < |s.rows| && At(s.rows[k], op.slug.value, scope) && At(after.rows[k], op.slug.value, scope)
            && after.rows[k].id == s.rows[k].id
            && FirstGiven(after.rows[k].content, op.newContent, op.content) && after.rows[k].version == s.rows[k].version + 1
            && after.rows[k].title == (if op.title.Some? then op.title.value else s.rows[k].title)
            && after.rows[k].summary == (if op.summary.Some? then op.summary.value else s.rows[k].summary)
            && (forall i | 0 <= i < |s.rows| && i != k :: after.rows[i] == s.rows[i])
            && after.created == s.created
            && (if item.world.Late? then after.updated == s.updated && after.touched == s.touched
                else after.updated == s.updated + 1 && after.touched == s.touched + [op.slug.value])
  {
    UpdateTextIs(item.op);
    hide UniqueKeys, ValidSlug, FreshId, LastSegment, Insert, UpdateText;
  }

  /** The row another writer commits. */
  predicate RivalsRow(r: WikiRow, rival: Rival, slug: string, scope: Scope) {
    At(r, slug, scope) && r.version == 1 && r.title == rival.title && r.summary == rival.summary && r.content == rival.content
  }

  /** What stands behind the rows that were there after the insert of a new slug. */
  predicate Added(rows: seq<WikiRow>, n: nat, indexed: bool, slug: string, scope: Scope, op: Operation, world: World)
    requires op.Create? && n <= |rows|
  {
    if world.Raced? && indexed then
      && |rows| == n + 1 && At(rows[n], slug, scope) && rows[n].version == 2
      && FirstGiven(rows[n].content, op.newContent, op.content)
      && rows[n].title == (if op.title.Some? then op.title.value else world.rival.title)
      && rows[n].summary == (if op.summary.Some? then op.summary.value else world.rival.summary)
    else if world.Raced? then
      && |rows| == n + 2 && RivalsRow(rows[n], world.rival, slug, scope)
      && At(rows[n + 1], slug, scope) && CreatedAs(rows[n + 1], op, slug)
    else if world.Chased? && !indexed then
      && |rows| == n + 2 && RivalsRow(rows[n + 1], world.rival, slug, scope)
      && At(rows[n], slug, scope) && CreatedAs(rows[n], op, slug)
    else |rows| == n + 1 && At(rows[n], slug, scope) && CreatedAs(rows[n], op, slug)
  }

  /** A create adds its row and a rival's, in the order they were committed; only with an index it overwrites the rival's. */
  lemma StepCreates(indexed: bool, s: State, item: Item, scope: Scope)
    requires item.op.Create? && !item.world.Broken? && !item.world.Late? && CheckedSlug(item.op.slug).Some?
    requires !Exists(s.rows, item.op.slug.value, scope)
    ensures var after := Step(indexed, s, item, scope); var slug := item.op.slug.value; var n := |s.rows|;
            && n < |after.rows| && after.rows[..n] == s.rows && Added(after.rows, n, indexed, slug, scope, item.op, item.world)
            && after.touched == s.touched + [slug]
            && (if item.world.Raced? && indexed then after.updated == s.updated + 1 && after.created == s.created
                else after.created == s.created + 1 && after.updated == s.updated)
  {
    InsertAdds(indexed, s, item.op.slug.value, scope, item.op, item.world);
    hide UniqueKeys, ValidSlug, FreshId, LastSegment, Find, Fallback, Insert, Added;
  }

  lemma InsertAdds(indexed: bool, s: State, slug: string, scope: Scope, op: Operation, world: World)
    requires op.Create? && !world.Broken? && !world.Late? && !Exists(s.rows, slug, scope)
    ensures var insert := Insert(indexed, s, slug, scope, op, world); var n := |s.rows|;
            && n < |insert.rows| && insert.rows[..n] == s.rows && Added(insert.rows, n, indexed, slug, scope, op, world)
            && (if world.Raced? && indexed then insert.updated == s.updated + 1 && insert.created == s.created
                else insert.created == s.created + 1 && insert.updated == s.updated)
  {
    UpdateTextIs(op);
    OwnRow(s.rows, slug, scope, op);
    if world.Raced? {
      var theirs := Theirs(s.rows, slug, scope, world.rival);
      OwnRow(theirs, slug, scope, op);
      FindNew(s.rows, theirs[|s.rows|], slug, scope);
      assert Found(theirs, slug, scope, 0) == |s.rows| by {
        ExistsIff(s.rows, slug, scope);
        assert forall i | 0 <= i < |s.rows| :: theirs[i] == s.rows[i];
      }
    }
    hide FreshId, LastSegment, Fallback, UpdateText, FirstGiven, CreatedAs;
  }

  /** Everything else leaves the table and the counts alone; a log operation sets the entry. */
  lemma StepSkips(indexed: bool, s: State, item: Item, scope: Scope)
    requires || item.world.Broken? || item.op.Log? || item.op.Unknown? || CheckedSlug(item.op.slug).None?
             || (!Exists(s.rows, item.op.slug.value, scope) && (item.op.Update? || item.world.Late?))
    ensures Step(indexed, s, item, scope) == if item.op.Log? && !item.world.Broken? then s.(log := item.op.entry) else s
  {
    hide Exists, ValidSlug, Overwrite, Insert;
  }

  /** The item names this slug and raises after its page is written. */
  predicate LateOn(item: Item, slug: string) {
    item.world.Late? && (item.op.Create? || item.op.Update?) && CheckedSlug(item.op.slug) == Some(slug)
  }

  lemma StepChanges(indexed: bool, s: State, item: Item, scope: Scope, i: nat)
    requires i < |s.rows|
    ensures var after := Step(indexed, s, item, scope);
            && i < |after.rows| && after.rows[i].slug == s.rows[i].slug && after.rows[i].scope == s.rows[i].scope
            && (forall z | z in s.touched :: z in after.touched)
            && (after.rows[i] == s.rows[i] || (s.rows[i].scope == scope && (s.rows[i].slug in after.touched || LateOn(item, s.rows[i].slug))))
  {
    if !item.world.Broken? && (item.op.Create? || item.op.Update?) && CheckedSlug(item.op.slug).Some? {
      if Exists(s.rows, item.op.slug.value, scope) {
        StepOverwrites(indexed, s, item, scope);
      } else if item.op.Create? && !item.world.Late? {
        StepCreates(indexed, s, item, scope);
        assert Step(indexed, s, item, scope).rows[..|s.rows|][i] == s.rows[i];
      }
    }
    hide Exists, ValidSlug, Insert, UpdateRow;
  }

  /**
   A page that was there and has changed is counted as touched, and so embedded again, unless an operation on it
   raised after writing it.
   */
  lemma {:induction false} ChangedAreTouched(indexed: bool, rows: seq<WikiRow>, items: seq<Item>, scope: Scope, i: nat)
    requires i < |rows|
    ensures var end := ApplyAll(indexed, Start(rows), items, scope);
            && i < |end.rows| && end.rows[i].slug == rows[i].slug && end.rows[i].scope == rows[i].scope
            && (end.rows[i] == rows[i] ||
                (rows[i].scope == scope && (rows[i].slug in end.touched || exists item :: item in items && LateOn(item, rows[i].slug))))
  {
    if items != [] {
      var init, item := items[..|items| - 1], items[|items| - 1];
      assert items == init + [item];
      ChangedAreTouched(indexed, rows, init, scope, i);
      StepChanges(indexed, ApplyAll(indexed, Start(rows), init, scope), item, scope, i);
    }
    hide Step, LateOn;
  }

  /** A create that meets a rival succeeds, is counted, and leaves two rows under one slug. */
  lemma RivalDoubles(s: State, item: Item, scope: Scope)
    requires item.op.Create? && (item.world.Raced? || item.world.Chased?) && CheckedSlug(item.op.slug).Some?
    requires !Exists(s.rows, item.op.slug.value, scope)
    ensures var after := Step(false, s, item, scope); var n := |s.rows|;
            && after.created == s.created + 1 && |after.rows| == n + 2
            && At(after.rows[n], item.op.slug.value, scope) && At(after.rows[n + 1], item.op.slug.value, scope)
            && !UniqueKeys(after.rows)
  {
    hide Pages, Outside, Fallback, LastSegment, FreshId, ValidSlug;
    var after, n := Step(false, s, item, scope).rows, |s.rows|;
    assert At(after[n + 1], after[n].slug, after[n].scope);
  }

  lemma FindNew(rows: seq<WikiRow>, r: WikiRow, slug: string, scope: Scope)
    requires Find(rows, slug, scope) == |rows| && At(r, slug, scope)
    ensures Find(rows + [r], slug, scope) == |rows|
  {
    var after := rows + [r];
    assert At(after[|rows|], slug, scope);
    assert forall i | 0 <= i < |rows| :: after[i] == rows[i];
  }

  // ----- re-embedding -----

  predicate Wanted(r: WikiRow, scope: Scope, slugs: seq<string>) {
    r.scope == scope && r.slug in slugs
  }

  /** `WHERE slug IN (...) AND scope`. */
  function Select(rows: seq<WikiRow>, scope: Scope, slugs: seq<string>): seq<WikiRow> {
    if rows == [] then []
    else
      var n := |rows| - 1;
      Select(rows[..n], scope, slugs) + if Wanted(rows[n], scope, slugs) then [rows[n]] else []
  }

  function UpsertRows(t: Tables, s: Spec, rs: seq<WikiRow>): Tables {
    if rs == [] then t
    else
      var n := |rs| - 1;
      UpsertRow(UpsertRows(t, s, rs[..n]), rs[n].id, s, RowFor(AsPage(rs[n])))
  }

  lemma {:induction false} SelectMembers(rows: seq<WikiRow>, scope: Scope, slugs: seq<string>)
    ensures forall r :: r in Select(rows, scope, slugs) <==> r in rows && Wanted(r, scope, slugs)
  {
    if rows != [] {
      var n := |rows| - 1;
      SelectMembers(rows[..n], scope, slugs);
      assert rows == rows[..n] + [rows[n]];
    }
  }

  lemma {:induction false} SelectIds(rows: seq<WikiRow>, scope: Scope, slugs: seq<string>)
    requires UniqueIds(rows)
    ensures UniqueIds(Select(rows, scope, slugs))
  {
    if rows != [] {
      var n := |rows| - 1;
      assert UniqueIds(rows[..n]);
      SelectIds(rows[..n], scope, slugs);
      SelectMembers(rows[..n], scope, slugs);
      var init := Select(rows[..n], scope, slugs);
      forall i | 0 <= i < |init| ensures init[i].id != rows[n].id {
        assert init[i] in rows[..n];
        var k :| 0 <= k < n && rows[k] == init[i];
      }
    }
  }

  lemma KeysSnoc(rs: seq<WikiRow>)
    requires rs != []
    ensures var n := |rs| - 1;
            UniqueKeys(rs) <==> UniqueKeys(rs[..n]) && forall i | 0 <= i < n :: !At(rs[n], rs[i].slug, rs[i].scope)
  {
    var n := |rs| - 1;
    if UniqueKeys(rs[..n]) && (forall i | 0 <= i < n :: !At(rs[n], rs[i].slug, rs[i].scope)) {
      forall i, k | 0 <= i < k < |rs| ensures !At(rs[k], rs[i].slug, rs[i].scope) {
        if k < n { assert !At(rs[..n][k], rs[..n][i].slug, rs[..n][i].scope); }
      }
    }
  }

  lemma SlugsSnoc(rs: seq<WikiRow>, scope: Scope)
    requires rs != [] && forall i | 0 <= i < |rs| :: rs[i].scope == scope
    ensures var n := |rs| - 1;
            && SlugsOf(rs) == SlugsOf(rs[..n]) + {rs[n].slug}
            && (rs[n].slug !in SlugsOf(rs[..n]) <==> forall i | 0 <= i < n :: !At(rs[n], rs[i].slug, rs[i].scope))
  {
    var n := |rs| - 1;
    var slugs := SlugsOf(rs[..n]);
    forall i | 0 <= i < n ensures rs[i].slug in slugs { assert rs[..n][i] == rs[i]; }
  }

  /** Rows of one scope are as many as their slugs exactly when no slug has two. */
  lemma {:induction false} SelectCount(rs: seq<WikiRow>, scope: Scope)
    requires forall i | 0 <= i < |rs| :: rs[i].scope == scope
    ensures |SlugsOf(rs)| <= |rs| && (|rs| == |SlugsOf(rs)| <==> UniqueKeys(rs))
  {
    if rs != [] {
      SelectCount(rs[..|rs| - 1], scope);
      KeysSnoc(rs);
      SlugsSnoc(rs, scope);
    } else {
      assert SlugsOf(rs) == {};
    }
    hide UniqueKeys, SlugsOf, At;
  }

  function SlugsOf(rs: seq<WikiRow>): set<string> {
    set i | 0 <= i < |rs| :: rs[i].slug
  }

  ghost predicate Fresh(t: Tables, s: Spec, r: WikiRow) {
    HasRow(t, r.id, s) && RowOf(t, r.id, s) == RowFor(AsPage(r))
  }

  lemma UpsertRowGet(t: Tables, p: PageId, s: Spec, r: Row, q: PageId, u: Spec)
    ensures Key(p, s) == Key(q, u) ==> HasRow(UpsertRow(t, p, s, r), q, u) && RowOf(UpsertRow(t, p, s, r), q, u) == r
    ensures Key(p, s) != Key(q, u) && HasRow(t, q, u) ==>
              HasRow(UpsertRow(t, p, s, r), q, u) && RowOf(UpsertRow(t, p, s, r), q, u) == RowOf(t, q, u)
  {}

  lemma {:induction false} UpsertRowsFresh(t: Tables, s: Spec, rs: seq<WikiRow>, i: nat)
    requires UniqueIds(rs) && i < |rs|
    ensures Fresh(UpsertRows(t, s, rs), s, rs[i])
  {
    var n := |rs| - 1;
    var r := RowFor(AsPage(rs[n]));
    hide AsPage, RowFor;
    UpsertRowGet(UpsertRows(t, s, rs[..n]), rs[n].id, s, r, rs[i].id, s);
    if i < n {
      assert UniqueIds(rs[..n]);
      UpsertRowsFresh(t, s, rs[..n], i);
      assert rs[i].id != rs[n].id;
    }
  }

  /** Rows of other pages and of other specs are left as they were. */
  lemma {:induction false} UpsertRowsFrame(t: Tables, s: Spec, rs: seq<WikiRow>, p: PageId, u: Spec)
    requires HasRow(t, p, u) && (u == s ==> forall r | r in rs :: r.id != p)
    ensures HasRow(UpsertRows(t, s, rs), p, u) && RowOf(UpsertRows(t, s, rs), p, u) == RowOf(t, p, u)
  {
    if rs != [] {
      var n := |rs| - 1;
      assert rs[n] in rs && forall r | r in rs[..n] :: r in rs;
      UpsertRowsFrame(t, s, rs[..n], p, u);
      UpsertRowGet(UpsertRows(t, s, rs[..n]), rs[n].id, s, RowFor(AsPage(rs[n])), p, u);
    }
  }

  lemma PickedRow(rows: seq<WikiRow>, scope: Scope, slugs: seq<string>, slug: string) returns (i: nat)
    requires slug in slugs && Exists(rows, slug, scope)
    ensures i < |Select(rows, scope, slugs)| && Select(rows, scope, slugs)[i] == rows[Find(rows, slug, scope)]
  {
    var r := rows[Find(rows, slug, scope)];
    SelectMembers(rows, scope, slugs);
    assert r in rows && Wanted(r, scope, slugs);
    var picked := Select(rows, scope, slugs);
    i :| 0 <= i < |picked| && picked[i] == r;
  }

  /** Duplicate slugs are looked up once; there is one page per distinct slug exactly when no selected slug has two rows. */
  lemma PickedOnceIff(rows: seq<WikiRow>, scope: Scope, slugs: seq<string>)
    requires forall z | z in slugs :: Exists(rows, z, scope)
    ensures var picked := Select(rows, scope, slugs);
            |SlugSet(slugs)| <= |picked| && (|picked| == |SlugSet(slugs)| <==> UniqueKeys(picked))
  {
    var picked := Select(rows, scope, slugs);
    SelectMembers(rows, scope, slugs);
    assert forall i | 0 <= i < |picked| :: picked[i] in picked;
    hide Exists, Select, UniqueKeys;
    forall z ensures z in SlugSet(slugs) <==> z in SlugsOf(picked) {
      if z in slugs { var i := PickedRow(rows, scope, slugs, z); }
    }
    assert SlugSet(slugs) == SlugsOf(picked);
    SelectCount(picked, scope);
  }

  /**
   After a compile whose embedding call succeeds every page under a touched slug, a rival's included, has been
   embedded once and its row carries the hash and vector of its current title, summary and content.
   */
  lemma IndexFreshAfterCompile(indexed: bool, rows: seq<WikiRow>, items: seq<Item>, scope: Scope, t: Tables, s: Spec)
    requires UniqueIds(rows)
    ensures var end := ApplyAll(indexed, Start(rows), items, scope);
            var picked := Select(end.rows, scope, end.touched);
            && UniqueIds(picked)
            && (forall slug | slug in end.touched :: Exists(end.rows, slug, scope))
            && (forall r | r in end.rows && Wanted(r, scope, end.touched) :: Fresh(UpsertRows(t, s, picked), s, r))
  {
    var end := ApplyAll(indexed, Start(rows), items, scope);
    var picked := Select(end.rows, scope, end.touched);
    OperationsBalanced(indexed, rows, items, scope);
    SelectIds(end.rows, scope, end.touched);
    SelectMembers(end.rows, scope, end.touched);
    hide UniqueIds, ValidSlug, Exists, Select, UpsertRows, ApplyAll, Fresh, Wanted;
    forall r | r in end.rows && Wanted(r, scope, end.touched) ensures Fresh(UpsertRows(t, s, picked), s, r) {
      var i :| 0 <= i < |picked| && picked[i] == r;
      UpsertRowsFresh(t, s, picked, i);
    }
  }

  /** What a fresh row was embedded from: the row's own title, summary and content, as long as they are not cut. */
  lemma FreshHolds(t: Tables, s: Spec, r: WikiRow)
    requires Fresh(t, s, r) && |r.title| + |r.summary| + |r.content| + 4 <= 8000
    ensures var x, n, m := RowOf(t, r.id, s).embedded, |r.title|, |r.title| + 2 + |r.summary|;
            && |x| == m + 2 + |r.content|
            && x[..n] == r.title && x[n + 2..m] == r.summary && x[m + 2..] == r.content
  {
    InputHolds(AsPage(r));
    hide InputText;
  }

  /** Once the text of a page has changed in one field its row is stale, until the page is embedded again. */
  lemma EditMakesStale(t: Tables, s: Spec, before: WikiRow, after: WikiRow)
    requires Fresh(t, s, before) && before.id == after.id
    requires || (before.content != after.content && before.title == after.title && before.summary == after.summary)
             || (before.title != after.title && before.summary == after.summary && before.content == after.content)
             || (before.summary != after.summary && before.title == after.title && before.content == after.content)
    ensures !Fresh(t, s, after) && Fresh(UpsertRows(t, s, [after]), s, after)
  {
    HashTellsContent(AsPage(before), AsPage(after));
    hide ContentHash, InputText;
    assert [after][..0] == [];
  }

  // ----- the compiler as it runs -----

  class Compiler {
    var rows: seq<WikiRow>
    const embeddings: EmbeddingTables

    constructor (rows: seq<WikiRow>, embeddings: EmbeddingTables)
      ensures this.rows == rows && this.embeddings == embeddings
    {
      this.rows := rows;
      this.embeddings := embeddings;
    }

    method ApplyOperations(indexed: bool, items: seq<Item>, scope: Scope)
      returns (created: nat, updated: nat, touched: seq<string>, log: string, ghost raced: nat)
      modifies this
      ensures State(rows, created, updated, touched, raced, log) == ApplyAll(indexed, Start(old(rows)), items, scope)
    {
      hide Fallback, LastSegment, ValidSlug, Overwrite, Insert, Exists, ApplyAll;
      NoOperations(indexed, rows, scope);
      created, updated, touched, log, raced := 0, 0, [], "", 0;
      var i := 0;
      while i < |items|
        invariant 0 <= i <= |items|
        invariant State(rows, created, updated, touched, raced, log) == ApplyAll(indexed, Start(old(rows)), items[..i], scope)
      {
        assert items[..i + 1][..i] == items[..i];
        var op, world, choice := items[i].op, items[i].world, items[i].choice;
        ghost var s0 := State(rows, created, updated, touched, raced, log);
        OneMore(indexed, Start(old(rows)), items, i, scope);
        i := i + 1;
        if world.Broken? { continue; }
        match op {
          case Create(s, _, _, _, _) =>
            if CheckedSlug(s).None? { continue; }
            var slug := s.value;
            if Exists(rows, slug, scope) {
              rows := Overwrite(rows, slug, scope, choice, op);
              if world.Late? { continue; }
              updated := updated + 1;
            } else {
              if world.Late? { continue; }
              var won, rivals := InsertPage(indexed, slug, scope, op, world, s0);
              if won { created := created + 1; } else { updated := updated + 1; }
              raced := raced + rivals;
            }
            touched := touched + [slug];
          case Update(s, _, _, _, _) =>
            if CheckedSlug(s).None? { continue; }
            if Exists(rows, s.value, scope) {
              rows := Overwrite(rows, s.value, scope, choice, op);
              if world.Late? { continue; }
              updated := updated + 1;
              touched := touched + [s.value];
            }
          case Log(entry) => log := entry;
          case Unknown =>
        }
      }
      assert items[..i] == items;
    }

    /**
     The insert in its savepoint, with the rivals that get through; `won` unless the index made it fall back to an
     update. `s` is the state it starts from.
     */
    method InsertPage(indexed: bool, slug: string, scope: Scope, op: Operation, world: World, ghost s: State) returns (won: bool, ghost rivals: nat)
      requires op.Create? && !world.Broken? && !world.Late? && s.rows == rows
      modifies this
      ensures Insert(indexed, s, slug, scope, op, world) ==
                s.(rows := rows, created := s.created + (if won then 1 else 0), updated := s.updated + (if won then 0 else 1),
                   raced := s.raced + rivals)
    {
      hide Fallback, LastSegment;
      won, rivals := true, 0;
      if world.Raced? {
        rows := Theirs(rows, slug, scope, world.rival);
        rivals := 1;
        if indexed {
          rows := Overwrite(rows, slug, scope, 0, op);
          won := false;
          return;
        }
      }
      rows := InsertRow(rows, slug, scope, Fallback(op.title, LastSegment(slug)), Fallback(op.summary, ""), Fallback(op.content, ""));
      if world.Chased? && !indexed {
        rows := Theirs(rows, slug, scope, world.rival);
        rivals := 1;
      }
    }

    /** One batch over the selected pages; `inputs` is what goes to the embedding provider. */
    method ReembedPages(touched: seq<string>, scope: Scope, active: Option<Spec>, embeddingWorks: bool) returns (inputs: seq<string>)
      modifies embeddings
      ensures active.Some? && embeddingWorks ==>
                embeddings.tables == UpsertRows(old(embeddings.tables), active.value, Select(rows, scope, touched)) &&
                |inputs| == |Select(rows, scope, touched)| &&
                forall i | 0 <= i < |inputs| ::
                  var r := Select(rows, scope, touched)[i]; inputs[i] == InputText(Page(Reserved(r.slug), r.title, r.summary, r.content))
      ensures active.None? || !embeddingWorks ==> embeddings.tables == old(embeddings.tables)
    {
      inputs := [];
      var picked := Select(rows, scope, touched);
      if picked == [] || active.None? { return; }
      inputs := seq(|picked|, i requires 0 <= i < |picked| => InputText(AsPage(picked[i])));
      if !embeddingWorks { return; }
      var i := 0;
      while i < |picked|
        invariant 0 <= i <= |picked|
        invariant embeddings.tables == UpsertRows(old(embeddings.tables), active.value, picked[..i])
      {
        assert picked[..i + 1][..i] == picked[..i];
        embeddings.Upsert(picked[i].id, active.value, RowFor(AsPage(picked[i])));
        i := i + 1;
      }
      assert picked[..i] == picked;
    }
  }
}
