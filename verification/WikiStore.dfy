/**
 The wiki page table: rows apart by id. Nothing in the schema keeps (slug, scope) apart; a lookup by
 that key has no order and returns any matching row.
 */
module WikiStore {
  import opened Options
  import opened EmbeddingStorage

  datatype Scope = Global | Project(id: nat) | Department(department: nat)

  datatype WikiRow = WikiRow(id: PageId, slug: string, scope: Scope, title: string, summary: string, content: string, version: nat)

  predicate Reserved(slug: string) {
    slug == "_index" || slug == "_log"
  }

  function AsPage(r: WikiRow): Page {
    Page(Reserved(r.slug), r.title, r.summary, r.content)
  }

  // ----- slugs -----

  predicate SlugEdge(c: char) {
    'a' <= c <= 'z' || '0' <= c <= '9'
  }

  predicate SlugInner(c: char) {
    SlugEdge(c) || c == '_' || c == '/' || c == '-'
  }

  /** `^[a-z0-9][a-z0-9_/-]*[a-z0-9]$`, reserved slugs excluded. */
  predicate ValidSlug(s: string) {
    && !Reserved(s)
    && |s| >= 2 && SlugEdge(s[0]) && SlugEdge(s[|s| - 1])
    && forall i | 0 <= i < |s| :: SlugInner(s[i])
  }

  /** Letters and digits at both ends, `_`, `/` and `-` between them. */
  ghost predicate SlugText(s: string) {
    var edge := {'a', 'b', 'c', 'd', 'e', 'f', 'g', 'h', 'i', 'j', 'k', 'l', 'm', 'n', 'o', 'p', 'q', 'r', 's', 't', 'u', 'v', 'w', 'x', 'y', 'z',
                 '0', '1', '2', '3', '4', '5', '6', '7', '8', '9'};
    && s != "_index" && s != "_log"
    && |s| > 1 && s[0] in edge && s[|s| - 1] in edge
    && forall i | 1 <= i < |s| - 1 :: s[i] in edge || s[i] in {'_', '/', '-'}
  }

  lemma SlugIff(s: string)
    ensures ValidSlug(s) <==> SlugText(s)
  {}

  // ----- rows -----

  predicate At(r: WikiRow, slug: string, scope: Scope) {
    r.slug == slug && r.scope == scope
  }

  /** Position of the first row for (slug, scope), or the table's length. */
  function Find(rows: seq<WikiRow>, slug: string, scope: Scope): (k: nat)
    ensures k <= |rows|
    ensures k < |rows| ==> At(rows[k], slug, scope)
    ensures forall i | 0 <= i < k :: !At(rows[i], slug, scope)
  {
    if rows == [] || At(rows[0], slug, scope) then 0 else 1 + Find(rows[1..], slug, scope)
  }

  /** The row a lookup returns: the one at `choice` if it matches, else some matching row, else none. */
  function Found(rows: seq<WikiRow>, slug: string, scope: Scope, choice: nat): (k: nat)
    ensures k <= |rows| && (k < |rows| <==> Find(rows, slug, scope) < |rows|)
    ensures k < |rows| ==> At(rows[k], slug, scope)
    ensures choice < |rows| && At(rows[choice], slug, scope) ==> k == choice
  {
    if choice < |rows| && At(rows[choice], slug, scope) then choice else Find(rows, slug, scope)
  }

  predicate Exists(rows: seq<WikiRow>, slug: string, scope: Scope) {
    Find(rows, slug, scope) < |rows|
  }

  /** The primary key. */
  ghost predicate UniqueIds(rows: seq<WikiRow>) {
    forall i, k | 0 <= i < k < |rows| :: rows[i].id != rows[k].id
  }

  /** No two rows share a slug and a scope. */
  ghost predicate UniqueKeys(rows: seq<WikiRow>) {
    forall i, k | 0 <= i < k < |rows| :: !At(rows[k], rows[i].slug, rows[i].scope)
  }

  /** New ids are larger than all ids in the table. */
  function FreshId(rows: seq<WikiRow>): (n: PageId)
    ensures forall i | 0 <= i < |rows| :: rows[i].id < n
  {
    if rows == [] then 0
    else
      var m := FreshId(rows[1..]);
      if rows[0].id < m then m else rows[0].id + 1
  }

  /** `apply_update`: content always, title and summary when given, version bumped. */
  function Revise(r: WikiRow, content: string, summary: Option<string>, title: Option<string>): WikiRow {
    r.(content := content,
       summary := if summary.Some? then summary.value else r.summary,
       title := if title.Some? then title.value else r.title,
       version := r.version + 1)
  }

  function UpdateRow(rows: seq<WikiRow>, slug: string, scope: Scope, choice: nat, content: string, summary: Option<string>, title: Option<string>): seq<WikiRow> {
    var k := Found(rows, slug, scope, choice);
    if k < |rows| then rows[k := Revise(rows[k], content, summary, title)] else rows
  }

  function InsertRow(rows: seq<WikiRow>, slug: string, scope: Scope, title: string, summary: string, content: string): seq<WikiRow> {
    rows + [WikiRow(FreshId(rows), slug, scope, title, summary, content, 1)]
  }

  /** The rows of one scope that are ordinary pages. */
  function Pages(rows: seq<WikiRow>, scope: Scope): nat {
    if rows == [] then 0
    else Pages(rows[..|rows| - 1], scope) + if InScope(rows[|rows| - 1], scope) then 1 else 0
  }

  predicate InScope(r: WikiRow, scope: Scope) {
    r.scope == scope && !Reserved(r.slug)
  }

  /** Everything else: reserved pages and other scopes, in table order. */
  function Outside(rows: seq<WikiRow>, scope: Scope): seq<WikiRow> {
    if rows == [] then []
    else Outside(rows[..|rows| - 1], scope) + if InScope(rows[|rows| - 1], scope) then [] else [rows[|rows| - 1]]
  }

  lemma InsertKeys(rows: seq<WikiRow>, slug: string, scope: Scope, title: string, summary: string, content: string)
    ensures var after := InsertRow(rows, slug, scope, title, summary, content);
            && (UniqueIds(rows) ==> UniqueIds(after))
            && (UniqueKeys(after) <==> UniqueKeys(rows) && !Exists(rows, slug, scope))
  {
    var after := InsertRow(rows, slug, scope, title, summary, content);
    var n := |rows|;
    assert forall i | 0 <= i < n :: after[i] == rows[i];
    ExistsIff(rows, slug, scope);
    if UniqueKeys(after) {
      forall i | 0 <= i < n ensures !At(rows[i], slug, scope) { assert !At(after[n], after[i].slug, after[i].scope); }
      forall i, k | 0 <= i < k < n ensures !At(rows[k], rows[i].slug, rows[i].scope) {
        assert !At(after[k], after[i].slug, after[i].scope);
      }
    }
  }

  /** An insert adds its row whatever is there; keys stay apart exactly when the key was free. */
  lemma InsertEffect(rows: seq<WikiRow>, slug: string, scope: Scope, title: string, summary: string, content: string)
    ensures var after := InsertRow(rows, slug, scope, title, summary, content);
            && (UniqueIds(rows) ==> UniqueIds(after))
            && (UniqueKeys(after) <==> UniqueKeys(rows) && !Exists(rows, slug, scope))
            && (forall z, sc :: Exists(after, z, sc) <==> Exists(rows, z, sc) || (z == slug && sc == scope))
            && (!Reserved(slug) ==> Pages(after, scope) == Pages(rows, scope) + 1 && Outside(after, scope) == Outside(rows, scope))
            && (Reserved(slug) ==> Pages(after, scope) == Pages(rows, scope))
  {
    var after := InsertRow(rows, slug, scope, title, summary, content);
    assert after[..|after| - 1] == rows;
    InsertKeys(rows, slug, scope, title, summary, content);
    hide UniqueIds, UniqueKeys, Exists;
    forall z, sc ensures Exists(after, z, sc) <==> Exists(rows, z, sc) || (z == slug && sc == scope) {
      InsertExists(rows, slug, scope, title, summary, content, z, sc);
    }
  }

  lemma InsertExists(rows: seq<WikiRow>, slug: string, scope: Scope, title: string, summary: string, content: string, z: string, sc: Scope)
    ensures Exists(InsertRow(rows, slug, scope, title, summary, content), z, sc) <==> Exists(rows, z, sc) || (z == slug && sc == scope)
  {
    var after, k := InsertRow(rows, slug, scope, title, summary, content), Find(rows, z, sc);
    assert forall i | 0 <= i < |rows| :: after[i] == rows[i];
    if k < |rows| { assert At(after[k], z, sc); }
    if z == slug && sc == scope { assert At(after[|rows|], z, sc); }
  }

  lemma ExistsIff(rows: seq<WikiRow>, slug: string, scope: Scope)
    ensures Exists(rows, slug, scope) <==> exists i | 0 <= i < |rows| :: At(rows[i], slug, scope)
  {}

  lemma {:induction false} ReplaceCounts(rows: seq<WikiRow>, k: nat, r: WikiRow, scope: Scope)
    requires k < |rows| && r.slug == rows[k].slug && r.scope == rows[k].scope
    ensures Pages(rows[k := r], scope) == Pages(rows, scope)
    ensures InScope(r, scope) ==> Outside(rows[k := r], scope) == Outside(rows, scope)
  {
    var n := |rows| - 1;
    if k == n {
      assert rows[k := r][..n] == rows[..n];
    } else {
      assert rows[k := r][..n] == rows[..n][k := r];
      ReplaceCounts(rows[..n], k, r, scope);
    }
  }

  /** Rows that differ in neither id nor key are equally unique. */
  lemma SameKeys(rows: seq<WikiRow>, after: seq<WikiRow>)
    requires |after| == |rows|
    requires forall i | 0 <= i < |rows| ::
               after[i].slug == rows[i].slug && after[i].scope == rows[i].scope && after[i].id == rows[i].id
    ensures UniqueIds(after) <==> UniqueIds(rows)
    ensures UniqueKeys(after) <==> UniqueKeys(rows)
    ensures forall z, sc :: Exists(after, z, sc) <==> Exists(rows, z, sc)
  {
    forall z, sc ensures Exists(after, z, sc) <==> Exists(rows, z, sc) {
      ExistsIff(after, z, sc);
      ExistsIff(rows, z, sc);
      assert forall i | 0 <= i < |rows| :: At(after[i], z, sc) <==> At(rows[i], z, sc);
    }
  }

  /** Whichever row it finds, an update changes no key, no count and nothing outside the scope's ordinary pages. */
  lemma UpdateEffect(rows: seq<WikiRow>, slug: string, scope: Scope, choice: nat, content: string, summary: Option<string>, title: Option<string>)
    ensures var after := UpdateRow(rows, slug, scope, choice, content, summary, title);
            && (UniqueIds(after) <==> UniqueIds(rows)) && (UniqueKeys(after) <==> UniqueKeys(rows))
            && (forall z, sc :: Exists(after, z, sc) <==> Exists(rows, z, sc))
            && (forall sc :: Pages(after, sc) == Pages(rows, sc))
            && (!Reserved(slug) ==> Outside(after, scope) == Outside(rows, scope))
  {
    var k := Found(rows, slug, scope, choice);
    var after := UpdateRow(rows, slug, scope, choice, content, summary, title);
    SameKeys(rows, after);
    hide UniqueIds, UniqueKeys, Exists;
    if k < |rows| {
      forall sc ensures Pages(after, sc) == Pages(rows, sc) {
        ReplaceCounts(rows, k, after[k], sc);
      }
      ReplaceCounts(rows, k, after[k], scope);
    }
  }
}
