/**
 Page embeddings: one table per vector dimension, one row per (page, model spec).
 Vectors themselves play no part here; a row is its content hash.
 */
module EmbeddingStorage {
  type PageId = nat

  /** The catalog: a closed whitelist, so a spec id determines its dimension. */
  datatype Spec =
    | Gemini001 | Gemini2 | OpenAiSmall | OpenAiLarge
    | Custom768 | Custom1024 | Custom1536 | Custom3072

  datatype Dimension = Dim768 | Dim1024 | Dim1536 | Dim3072

  function DimensionOf(s: Spec): Dimension {
    match s
    case Custom768 => Dim768
    case Custom1024 => Dim1024
    case OpenAiSmall | Custom1536 => Dim1536
    case Gemini001 | Gemini2 | OpenAiLarge | Custom3072 => Dim3072
  }

  const INPUT_LIMIT: nat := 8000

  datatype Page = Page(reserved: bool, title: string, summary: string, content: string)

  /** A digest of an abstract hash function: equal digests only for equal texts. */
  datatype Digest = Sha256(blob: string)

  function Blob(p: Page): string {
    p.title + "\n\n" + p.summary + "\n\n" + p.content
  }

  function ContentHash(p: Page): Digest {
    Sha256(Blob(p))
  }

  function InputText(p: Page): string {
    var b := Blob(p);
    if |b| <= INPUT_LIMIT then b else b[..INPUT_LIMIT]
  }

  datatype Key = Key(page: PageId, spec: Spec)

  /** The stored hash, and the text the stored vector was computed from. */
  datatype Row = Row(hash: Digest, embedded: string)

  type Table = map<Key, Row>

  function RowFor(p: Page): Row {
    Row(ContentHash(p), InputText(p))
  }

  /** The four `wiki_page_embeddings_<dim>` tables. */
  datatype Tables = Tables(t768: Table, t1024: Table, t1536: Table, t3072: Table) {
    function At(d: Dimension): Table {
      match d
      case Dim768 => t768
      case Dim1024 => t1024
      case Dim1536 => t1536
      case Dim3072 => t3072
    }

    function With(d: Dimension, t: Table): (r: Tables)
      ensures forall e: Dimension :: r.At(e) == if e == d then t else At(e)
    {
      match d
      case Dim768 => this.(t768 := t)
      case Dim1024 => this.(t1024 := t)
      case Dim1536 => this.(t1536 := t)
      case Dim3072 => this.(t3072 := t)
    }
  }

  predicate HasRow(t: Tables, p: PageId, s: Spec) {
    Key(p, s) in t.At(DimensionOf(s))
  }

  function RowOf(t: Tables, p: PageId, s: Spec): Row
    requires HasRow(t, p, s)
  {
    t.At(DimensionOf(s))[Key(p, s)]
  }

  /** Every row sits in the table of its spec's dimension. */
  ghost predicate Filed(t: Tables) {
    forall d: Dimension, k | k in t.At(d) :: d == DimensionOf(k.spec)
  }

  function UpsertRow(t: Tables, p: PageId, s: Spec, r: Row): Tables {
    t.With(DimensionOf(s), t.At(DimensionOf(s))[Key(p, s) := r])
  }

  function KeepSpec(t: Table, s: Spec): Table {
    map k | k in t && k.spec == s :: t[k]
  }

  function DropPage(t: Table, p: PageId): Table {
    map k | k in t && k.page != p :: t[k]
  }

  /** Foreign-key cascade of a page deletion. */
  function CascadePage(t: Tables, p: PageId): (r: Tables)
    ensures forall d: Dimension :: r.At(d) == DropPage(t.At(d), p)
  {
    Tables(DropPage(t.t768, p), DropPage(t.t1024, p), DropPage(t.t1536, p), DropPage(t.t3072, p))
  }

  function CleanupStale(t: Tables, keep: Spec): (r: Tables)
    ensures forall d: Dimension :: r.At(d) == KeepSpec(t.At(d), keep)
  {
    Tables(KeepSpec(t.t768, keep), KeepSpec(t.t1024, keep), KeepSpec(t.t1536, keep), KeepSpec(t.t3072, keep))
  }

  /** The length of the vectors a model of the catalog gives. */
  function VectorLength(s: Spec): nat {
    match s
    case Gemini001 => 3072
    case Gemini2 => 3072
    case OpenAiSmall => 1536
    case OpenAiLarge => 3072
    case Custom768 => 768
    case Custom1024 => 1024
    case Custom1536 => 1536
    case Custom3072 => 3072
  }

  function TableWidth(d: Dimension): nat {
    match d
    case Dim768 => 768
    case Dim1024 => 1024
    case Dim1536 => 1536
    case Dim3072 => 3072
  }

  /** A row goes into the one table whose width is the length of its model's vectors. */
  lemma VectorsFit(t: Tables, p: PageId, s: Spec, r: Row, d: Dimension)
    ensures var after := UpsertRow(t, p, s, r);
            if TableWidth(d) == VectorLength(s) then after.At(d) == t.At(d)[Key(p, s) := r] else after.At(d) == t.At(d)
  {}

  const DIMENSIONS: seq<Dimension> := [Dim768, Dim1024, Dim1536, Dim3072]

  function RowCount(t: Tables): nat {
    |t.t768| + |t.t1024| + |t.t1536| + |t.t3072|
  }

  function CleanTables(t: Tables, keep: Spec, n: nat): Tables
    requires n <= |DIMENSIONS|
  {
    if n == 0 then t
    else
      var u := CleanTables(t, keep, n - 1);
      u.With(DIMENSIONS[n - 1], KeepSpec(u.At(DIMENSIONS[n - 1]), keep))
  }

  lemma CleanTablesIsCleanup(t: Tables, keep: Spec)
    ensures CleanTables(t, keep, |DIMENSIONS|) == CleanupStale(t, keep)
  {
    hide KeepSpec;
    assert CleanTables(t, keep, 1) == t.(t768 := KeepSpec(t.t768, keep));
    assert CleanTables(t, keep, 2) == CleanTables(t, keep, 1).(t1024 := KeepSpec(t.t1024, keep));
    assert CleanTables(t, keep, 3) == CleanTables(t, keep, 2).(t1536 := KeepSpec(t.t1536, keep));
  }

  class EmbeddingTables {
    var tables: Tables

    constructor ()
      ensures tables == Tables(map[], map[], map[], map[])
    {
      tables := Tables(map[], map[], map[], map[]);
    }

    method Upsert(p: PageId, s: Spec, r: Row)
      modifies this
      ensures tables == UpsertRow(old(tables), p, s, r)
    {
      tables := tables.With(DimensionOf(s), tables.At(DimensionOf(s))[Key(p, s) := r]);
    }

    /** Deletes table by table; the total is exactly the number of rows that disappeared. */
    method Cleanup(keep: Spec) returns (total: nat)
      modifies this
      ensures tables == CleanupStale(old(tables), keep)
      ensures total == RowCount(old(tables)) - RowCount(tables)
    {
      hide KeepSpec, CleanupStale, RowCount;
      total := 0;
      var i := 0;
      while i < |DIMENSIONS|
        invariant 0 <= i <= |DIMENSIONS|
        invariant tables == CleanTables(old(tables), keep, i)
        invariant total == RowCount(old(tables)) - RowCount(tables)
      {
        var d := DIMENSIONS[i];
        var kept := KeepSpec(tables.At(d), keep);
        KeepSpecShrinks(tables.At(d), keep);
        CountAfter(tables, d, kept);
        total := total + (|tables.At(d)| - |kept|);
        tables := tables.With(d, kept);
        i := i + 1;
      }
      CleanTablesIsCleanup(old(tables), keep);
    }
  }

  lemma CountAfter(t: Tables, d: Dimension, u: Table)
    ensures RowCount(t.With(d, u)) == RowCount(t) - |t.At(d)| + |u|
  {}

  lemma KeepSpecShrinks(t: Table, s: Spec)
    ensures |KeepSpec(t, s)| <= |t|
  {
    var k := KeepSpec(t, s);
    SubsetSize(k.Keys, t.Keys);
    assert |k| == |k.Keys| && |t| == |t.Keys|;
  }

  lemma {:induction false} SubsetSize<T>(a: set<T>, b: set<T>)
    requires a <= b
    ensures |a| <= |b|
  {
    if x :| x in a { SubsetSize(a - {x}, b - {x}); }
  }

  /**
   The stored hash is enough to trust the stored vector: a row whose hash matches a page was
   computed from that page's embedding input, although the input is cut and the hash is not.
   */
  lemma HashTellsInput(written: Page, current: Page)
    requires RowFor(written).hash == ContentHash(current)
    ensures RowFor(written).embedded == InputText(current)
  {}

  // ----- what the hash and the embedding input say of a page -----

  /** Character `i` of the text a page is embedded by: title, blank line, summary, blank line, content. */
  function CharAt(p: Page, i: nat): char
    requires i < |p.title| + |p.summary| + |p.content| + 4
  {
    var t, u := |p.title|, |p.title| + 2 + |p.summary|;
    if i < t then p.title[i]
    else if i < t + 2 then '\n'
    else if i < u then p.summary[i - t - 2]
    else if i < u + 2 then '\n'
    else p.content[i - u - 2]
  }

  lemma BlobAt(p: Page, i: nat)
    requires i < |p.title| + |p.summary| + |p.content| + 4
    ensures |Blob(p)| == |p.title| + |p.summary| + |p.content| + 4 && Blob(p)[i] == CharAt(p, i)
  {}

  /** The input is that text, whole or cut after 8000 characters. */
  lemma InputIs(p: Page)
    ensures var all := |p.title| + |p.summary| + |p.content| + 4;
            && |InputText(p)| == (if all <= 8000 then all else 8000)
            && forall i | 0 <= i < |InputText(p)| :: InputText(p)[i] == CharAt(p, i)
  {
    forall i: nat | i < |InputText(p)| ensures i < |p.title| + |p.summary| + |p.content| + 4 && InputText(p)[i] == CharAt(p, i) {
      BlobAt(p, 0);
      BlobAt(p, i);
    }
    BlobAt(p, 0);
    hide Blob, CharAt;
  }

  /** An input that is not cut begins with the title, holds the summary behind a blank line, and ends with the content. */
  lemma InputHolds(p: Page)
    requires |p.title| + |p.summary| + |p.content| + 4 <= 8000
    ensures var x, t, u := InputText(p), |p.title|, |p.title| + 2 + |p.summary|;
            && |x| == u + 2 + |p.content|
            && x[..t] == p.title && x[t..t + 2] == "\n\n" && x[t + 2..u] == p.summary
            && x[u..u + 2] == "\n\n" && x[u + 2..] == p.content
  {
    InputIs(p);
    hide InputText;
  }

  lemma SameBlob(p: Page, q: Page)
    requires ContentHash(p) == ContentHash(q)
    ensures |p.title| + |p.summary| + |p.content| == |q.title| + |q.summary| + |q.content|
    ensures forall i: nat | i < |p.title| + |p.summary| + |p.content| + 4 :: CharAt(p, i) == CharAt(q, i)
  {
    BlobAt(p, 0);
    BlobAt(q, 0);
    forall i: nat | i < |p.title| + |p.summary| + |p.content| + 4 ensures CharAt(p, i) == CharAt(q, i) {
      BlobAt(p, i);
      BlobAt(q, i);
    }
    hide Blob, CharAt;
  }

  /** Of two pages that agree on two of title, summary and content the hashes agree exactly if they agree on the third. */
  lemma HashTellsContent(p: Page, q: Page)
    ensures p.title == q.title && p.summary == q.summary ==> (ContentHash(p) == ContentHash(q) <==> p.content == q.content)
    ensures p.title == q.title && p.content == q.content ==> (ContentHash(p) == ContentHash(q) <==> p.summary == q.summary)
    ensures p.summary == q.summary && p.content == q.content ==> (ContentHash(p) == ContentHash(q) <==> p.title == q.title)
  {
    if ContentHash(p) == ContentHash(q) {
      SameBlob(p, q);
      var t, u := |p.title|, |p.title| + 2 + |p.summary|;
      if p.title == q.title && p.summary == q.summary {
        forall i | 0 <= i < |p.content| ensures p.content[i] == q.content[i] { assert CharAt(p, u + 2 + i) == CharAt(q, u + 2 + i); }
      }
      if p.title == q.title && p.content == q.content {
        forall i | 0 <= i < |p.summary| ensures p.summary[i] == q.summary[i] { assert CharAt(p, t + 2 + i) == CharAt(q, t + 2 + i); }
      }
      if p.summary == q.summary && p.content == q.content {
        forall i | 0 <= i < t ensures p.title[i] == q.title[i] { assert CharAt(p, i) == CharAt(q, i); }
      }
    }
    hide ContentHash, Blob;
  }
}
