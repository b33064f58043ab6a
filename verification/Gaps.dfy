/** The knowledge-gap roll-up: daily rows of zero-result queries merged by normalised text. */
module Gaps {
  import opened Options

  const SAMPLE_CAP: nat := 5

  datatype Item = Item(normalized: Option<string>, count: int, samples: seq<string>, requesters: seq<string>) {
    predicate Keyed(key: string) { normalized == Some(key) && key != "" }
  }

  /** A daily row: no JSON value, or its items. */
  datatype Row = NoValue | Items(items: seq<Item>)

  datatype Bucket = Bucket(count: int, samples: seq<string>, requesters: set<string>)

  /** A dictionary with its keys in insertion order. */
  datatype Merged = Merged(order: seq<string>, buckets: map<string, Bucket>)

  datatype Gap = Gap(normalized: string, count: int, samples: seq<string>, requesters: set<string>)

  // ----- merging, as the loops do it -----

  function AddSamples(have: seq<string>, more: seq<string>): seq<string> {
    if more == [] then have
    else
      var now, s := AddSamples(have, more[..|more| - 1]), more[|more| - 1];
      if s !in now && |now| < SAMPLE_CAP then now + [s] else now
  }

  function ToSet(s: seq<string>): set<string> { set x | x in s }

  function BucketAt(m: Merged, key: string): Bucket {
    if key in m.buckets then m.buckets[key] else Bucket(0, [], {})
  }

  function MergeItem(m: Merged, item: Item): Merged {
    if item.normalized == None || item.normalized == Some("") then m
    else
      var key, b := item.normalized.value, BucketAt(m, item.normalized.value);
      Merged(if key in m.buckets then m.order else m.order + [key],
             m.buckets[key := Bucket(b.count + item.count, AddSamples(b.samples, item.samples), b.requesters + ToSet(item.requesters))])
  }

  function MergeItems(m: Merged, items: seq<Item>): Merged {
    if items == [] then m else MergeItem(MergeItems(m, items[..|items| - 1]), items[|items| - 1])
  }

  function ItemsOf(row: Row): seq<Item> { if row.NoValue? then [] else row.items }

  function MergeRows(rows: seq<Row>): Merged {
    if rows == [] then Merged([], map[]) else MergeItems(MergeRows(rows[..|rows| - 1]), ItemsOf(rows[|rows| - 1]))
  }

  // ----- what the merge should mean -----

  function Flatten(rows: seq<Row>): seq<Item> {
    if rows == [] then []
    else
      Flatten(rows[..|rows| - 1]) + match rows[|rows| - 1] case NoValue => [] case Items(items) => items
  }

  function CountOf(items: seq<Item>, key: string): int {
    if items == [] then 0
    else CountOf(items[..|items| - 1], key) + if items[|items| - 1].Keyed(key) then items[|items| - 1].count else 0
  }

  function RequestersOf(items: seq<Item>, key: string): set<string> {
    if items == [] then {}
    else
      RequestersOf(items[..|items| - 1], key)
      + if items[|items| - 1].Keyed(key) then ToSet(items[|items| - 1].requesters) else {}
  }

  function SamplesOf(items: seq<Item>, key: string): seq<string> {
    if items == [] then []
    else SamplesOf(items[..|items| - 1], key) + if items[|items| - 1].Keyed(key) then items[|items| - 1].samples else []
  }

  predicate Mentioned(items: seq<Item>, key: string) {
    exists i | 0 <= i < |items| :: items[i].Keyed(key)
  }

  /** The sum of all counts that carry a key. */
  function GrandTotal(items: seq<Item>): int {
    if items == [] then 0
    else
      GrandTotal(items[..|items| - 1])
      + if items[|items| - 1].normalized.Some? && items[|items| - 1].normalized != Some("") then items[|items| - 1].count else 0
  }

  lemma {:induction false} AddSamplesJoin(have: seq<string>, a: seq<string>, b: seq<string>)
    ensures AddSamples(AddSamples(have, a), b) == AddSamples(have, a + b)
  {
    if b == [] {
      assert a + b == a;
    } else {
      AddSamplesJoin(have, a, b[..|b| - 1]);
      assert (a + b)[..|a + b| - 1] == a + b[..|b| - 1];
    }
  }

  ghost predicate Distinct(s: seq<string>) {
    forall i, k | 0 <= i < k < |s| :: s[i] != s[k]
  }

  /** Where a text first occurs. */
  function FirstAt(xs: seq<string>, x: string): (i: nat)
    ensures i <= |xs| && (i < |xs| <==> x in xs) && (i < |xs| ==> xs[i] == x)
  {
    if xs == [] || xs[0] == x then 0
    else
      assert x in xs <==> x in xs[1..];
      1 + FirstAt(xs[1..], x)
  }

  lemma {:induction false} FirstAtSnoc(init: seq<string>, last: string, x: string)
    ensures FirstAt(init + [last], x) == if x in init then FirstAt(init, x) else if x == last then |init| else |init| + 1
  {
    if init != [] && init[0] != x {
      assert (init + [last])[1..] == init[1..] + [last];
      assert x in init <==> x in init[1..];
      FirstAtSnoc(init[1..], last, x);
    }
  }

  /** `r` lists texts of `xs` by their first occurrence, and those it leaves out occur after all of them. */
  ghost predicate FirstOnes(r: seq<string>, xs: seq<string>) {
    && (forall s | s in r :: s in xs)
    && (forall i, k | 0 <= i < k < |r| :: FirstAt(xs, r[i]) < FirstAt(xs, r[k]))
    && (forall s, i | s in xs && s !in r && 0 <= i < |r| :: FirstAt(xs, r[i]) < FirstAt(xs, s))
  }

  lemma FirstOnesSnoc(r: seq<string>, init: seq<string>, s: string)
    requires FirstOnes(r, init) && (|r| < SAMPLE_CAP ==> forall x | x in init :: x in r)
    ensures FirstOnes(if s !in r && |r| < SAMPLE_CAP then r + [s] else r, init + [s])
  {
    forall x ensures FirstAt(init + [s], x) == if x in init then FirstAt(init, x) else if x == s then |init| else |init| + 1 {
      FirstAtSnoc(init, s, x);
    }
    hide FirstAt;
  }

  /** Distinct, at most five, the first ones offered, and nothing left out while there was room. */
  lemma {:induction false} FirstDistinctSamples(xs: seq<string>)
    ensures var r := AddSamples([], xs);
            && Distinct(r) && |r| <= 5
            && FirstOnes(r, xs)
            && (|r| < 5 ==> forall s | s in xs :: s in r)
  {
    if xs != [] {
      var init, s := xs[..|xs| - 1], xs[|xs| - 1];
      FirstDistinctSamples(init);
      FirstOnesSnoc(AddSamples([], init), init, s);
      assert xs == init + [s];
    }
    hide FirstAt, FirstOnes;
  }

  lemma MergeItemAt(m: Merged, item: Item, key: string)
    ensures var b, after := BucketAt(m, key), MergeItem(m, item);
            && (key in after.buckets <==> key in m.buckets || item.Keyed(key))
            && BucketAt(after, key) ==
               (if item.Keyed(key)
                then Bucket(b.count + item.count, AddSamples(b.samples, item.samples), b.requesters + ToSet(item.requesters))
                else b)
  {
    hide AddSamples, ToSet;
  }

  /** Each bucket holds the sum, the first samples and the requesters of exactly the items with its key. */
  lemma {:induction false} MergeMeaning(items: seq<Item>, key: string)
    ensures var m := MergeItems(Merged([], map[]), items);
            && (key in m.buckets <==> Mentioned(items, key))
            && BucketAt(m, key) == Bucket(CountOf(items, key), AddSamples([], SamplesOf(items, key)), RequestersOf(items, key))
  {
    if items == [] {
    } else {
      var init, item := items[..|items| - 1], items[|items| - 1];
      MergeMeaning(init, key);
      AddSamplesJoin([], SamplesOf(init, key), item.samples);
      MentionedSnoc(init, item, key);
      assert items == init + [item];
      MergeItemAt(MergeItems(Merged([], map[]), init), item, key);
      assert SamplesOf(init, key) + [] == SamplesOf(init, key);
    }
    hide AddSamples, Mentioned, MergeItem, ToSet, BucketAt;
    assert items == [] ==> BucketAt(Merged([], map[]), key) == Bucket(0, [], {}) by { NoBucket(key); }
  }

  lemma NoBucket(key: string)
    ensures BucketAt(Merged([], map[]), key) == Bucket(0, [], {}) && AddSamples([], []) == [] && !Mentioned([], key)
  {}

  lemma MentionedSnoc(init: seq<Item>, item: Item, key: string)
    ensures Mentioned(init + [item], key) <==> Mentioned(init, key) || item.Keyed(key)
  {
    var items := init + [item];
    if i :| 0 <= i < |init| && init[i].Keyed(key) { assert items[i].Keyed(key); }
    if item.Keyed(key) { assert items[|init|].Keyed(key); }
  }

  lemma {:induction false} MergeJoin(m: Merged, a: seq<Item>, b: seq<Item>)
    ensures MergeItems(MergeItems(m, a), b) == MergeItems(m, a + b)
  {
    if b == [] {
      assert a + b == a;
    } else {
      MergeJoin(m, a, b[..|b| - 1]);
      assert (a + b)[..|a + b| - 1] == a + b[..|b| - 1];
    }
  }

  lemma {:induction false} MergeRowsIsFlat(rows: seq<Row>)
    ensures MergeRows(rows) == MergeItems(Merged([], map[]), Flatten(rows))
  {
    if rows != [] {
      MergeRowsIsFlat(rows[..|rows| - 1]);
      MergeJoin(Merged([], map[]), Flatten(rows[..|rows| - 1]), ItemsOf(rows[|rows| - 1]));
    }
  }

  /** The merge over all rows, key by key. */
  lemma MergedBucket(rows: seq<Row>, key: string)
    ensures var m, items := MergeRows(rows), Flatten(rows);
            && (key in m.buckets <==> Mentioned(items, key))
            && BucketAt(m, key) == Bucket(CountOf(items, key), AddSamples([], SamplesOf(items, key)), RequestersOf(items, key))
  {
    MergeRowsIsFlat(rows);
    MergeMeaning(Flatten(rows), key);
  }

  // ----- conservation -----

  function Total(m: Merged, keys: seq<string>): int {
    if keys == [] then 0 else Total(m, keys[..|keys| - 1]) + BucketAt(m, keys[|keys| - 1]).count
  }

  /** The order lists each key once. */
  ghost predicate InOrder(m: Merged) {
    Distinct(m.order) && forall k :: k in m.order <==> k in m.buckets
  }

  lemma {:induction false} TotalBump(m: Merged, after: Merged, keys: seq<string>, key: string, d: int)
    requires Distinct(keys) && BucketAt(after, key).count == BucketAt(m, key).count + d
    requires forall k | k != key :: BucketAt(after, k) == BucketAt(m, k)
    ensures Total(after, keys) == Total(m, keys) + if key in keys then d else 0
  {
    if keys != [] {
      var init, k := keys[..|keys| - 1], keys[|keys| - 1];
      assert keys == init + [k];
      TotalBump(m, after, init, key, d);
    }
  }

  lemma MergeItemTotal(m: Merged, item: Item)
    requires InOrder(m)
    ensures InOrder(MergeItem(m, item))
    ensures Total(MergeItem(m, item), MergeItem(m, item).order) ==
            Total(m, m.order) + if item.normalized.Some? && item.normalized != Some("") then item.count else 0
  {
    var after := MergeItem(m, item);
    if item.normalized.Some? && item.normalized != Some("") {
      var key := item.normalized.value;
      TotalBump(m, after, m.order, key, item.count);
      if key !in m.buckets { assert after.order[..|after.order| - 1] == m.order; }
      hide AddSamples;
    }
  }

  /** Before the limit no count is lost or counted twice. */
  lemma {:induction false} TotalConserved(items: seq<Item>)
    ensures var m := MergeItems(Merged([], map[]), items); InOrder(m) && Total(m, m.order) == GrandTotal(items)
  {
    if items != [] {
      TotalConserved(items[..|items| - 1]);
      MergeItemTotal(MergeItems(Merged([], map[]), items[..|items| - 1]), items[|items| - 1]);
      hide InOrder, MergeItem, Total;
    }
  }

  // ----- row order -----

  function Without(s: seq<Row>, i: nat): seq<Row>
    requires i < |s|
  {
    s[..i] + s[i + 1..]
  }

  lemma {:induction false} CountJoin(a: seq<Item>, b: seq<Item>, key: string)
    ensures CountOf(a + b, key) == CountOf(a, key) + CountOf(b, key)
    ensures RequestersOf(a + b, key) == RequestersOf(a, key) + RequestersOf(b, key)
  {
    if b == [] {
      assert a + b == a;
    } else {
      CountJoin(a, b[..|b| - 1], key);
      assert (a + b)[..|a + b| - 1] == a + b[..|b| - 1];
    }
  }

  lemma {:induction false} FlattenJoin(a: seq<Row>, b: seq<Row>)
    ensures Flatten(a + b) == Flatten(a) + Flatten(b)
  {
    if b == [] {
      assert a + b == a;
    } else {
      var init, last := b[..|b| - 1], ItemsOf(b[|b| - 1]);
      FlattenJoin(a, init);
      assert (a + b)[..|a + b| - 1] == a + init;
      assert Flatten(a + b) == Flatten(a + init) + last;
      hide Flatten, ItemsOf;
      assert Flatten(a) + Flatten(init) + last == Flatten(a) + (Flatten(init) + last);
    }
  }

  lemma FlattenOne(r: Row)
    ensures Flatten([r]) == ItemsOf(r)
  {
    assert [r][..0] == [];
  }

  /** Taking a row out of the middle takes out exactly its own counts and requesters. */
  lemma CountWithout(rows: seq<Row>, i: nat, key: string)
    requires i < |rows|
    ensures CountOf(Flatten(rows), key) == CountOf(Flatten(Without(rows, i)), key) + CountOf(ItemsOf(rows[i]), key)
    ensures RequestersOf(Flatten(rows), key) == RequestersOf(Flatten(Without(rows, i)), key) + RequestersOf(ItemsOf(rows[i]), key)
  {
    var a, r, b := rows[..i], rows[i], rows[i + 1..];
    assert rows == a + [r] + b;
    FlattenJoin(a + [r], b);
    FlattenJoin(a, [r]);
    FlattenOne(r);
    FlattenJoin(a, b);
    var fa, fr, fb := Flatten(a), ItemsOf(r), Flatten(b);
    hide Flatten, CountOf, RequestersOf;
    CountJoin(fa + fr, fb, key);
    CountJoin(fa, fr, key);
    CountJoin(fa, fb, key);
  }

  lemma MultisetWithout(s: seq<Row>, i: nat)
    requires i < |s|
    ensures multiset(Without(s, i)) == multiset(s) - multiset{s[i]}
  {
    assert s == s[..i] + [s[i]] + s[i + 1..];
  }

  lemma MatchLast(a: seq<Row>, b: seq<Row>) returns (i: nat)
    requires a != [] && multiset(a) == multiset(b)
    ensures i < |b| && b[i] == a[|a| - 1] && multiset(a[..|a| - 1]) == multiset(Without(b, i))
  {
    var n := |a| - 1;
    assert Without(a, n) == a[..n];
    hide Without;
    assert a[n] in multiset(b);
    i :| 0 <= i < |b| && b[i] == a[n];
    MultisetWithout(a, n);
    MultisetWithout(b, i);
  }

  /** Counts and requesters do not depend on the order of the rows. */
  lemma {:induction false} RowOrderIrrelevant(a: seq<Row>, b: seq<Row>, key: string)
    requires multiset(a) == multiset(b)
    ensures CountOf(Flatten(a), key) == CountOf(Flatten(b), key)
    ensures RequestersOf(Flatten(a), key) == RequestersOf(Flatten(b), key)
  {
    if a == [] {
      assert |multiset(a)| == |a| && |multiset(b)| == |b|;
      assert a == b;
    } else {
      var n := |a| - 1;
      var i := MatchLast(a, b);
      RowOrderIrrelevant(a[..n], Without(b, i), key);
      CountWithout(b, i, key);
      CountWithout(a, n, key);
      assert Without(a, n) == a[..n];
    }
    hide Flatten, CountOf, RequestersOf;
  }

  // ----- sorting and the limit -----

  function GapsOf(m: Merged, keys: seq<string>): (r: seq<Gap>)
    ensures |r| == |keys|
    ensures forall i | 0 <= i < |r| ::
              r[i] == Gap(keys[i], BucketAt(m, keys[i]).count, BucketAt(m, keys[i]).samples, BucketAt(m, keys[i]).requesters)
  {
    seq(|keys|, i requires 0 <= i < |keys| =>
      var b := BucketAt(m, keys[i]); Gap(keys[i], b.count, b.samples, b.requesters))
  }

  /** Behind everything that counts at least as much. */
  function Insert(s: seq<Gap>, g: Gap): seq<Gap> {
    if s == [] || s[|s| - 1].count >= g.count then s + [g] else Insert(s[..|s| - 1], g) + [s[|s| - 1]]
  }

  /** Stable sort by falling count. */
  function SortDesc(s: seq<Gap>): seq<Gap> {
    if s == [] then [] else Insert(SortDesc(s[..|s| - 1]), s[|s| - 1])
  }

  ghost predicate Falling(s: seq<Gap>) {
    forall i, k | 0 <= i < k < |s| :: s[i].count >= s[k].count
  }

  function WithCount(s: seq<Gap>, c: int): seq<Gap> {
    if s == [] then [] else WithCount(s[..|s| - 1], c) + if s[|s| - 1].count == c then [s[|s| - 1]] else []
  }

  lemma WithCountSnoc(s: seq<Gap>, g: Gap, c: int)
    ensures WithCount(s + [g], c) == WithCount(s, c) + if g.count == c then [g] else []
  {
    assert (s + [g])[..|s|] == s;
  }

  lemma {:induction false} InsertKeeps(s: seq<Gap>, g: Gap)
    ensures multiset(Insert(s, g)) == multiset(s) + multiset{g}
  {
    if s != [] && s[|s| - 1].count < g.count {
      InsertKeeps(s[..|s| - 1], g);
      assert s == s[..|s| - 1] + [s[|s| - 1]];
    }
  }

  lemma {:induction false} InsertFalls(s: seq<Gap>, g: Gap)
    requires Falling(s)
    ensures Falling(Insert(s, g))
  {
    if s != [] && s[|s| - 1].count < g.count {
      var init, last := s[..|s| - 1], s[|s| - 1];
      InsertFalls(init, g);
      InsertKeeps(init, g);
      var t := Insert(init, g);
      forall i | 0 <= i < |t| ensures t[i].count >= last.count {
        assert t[i] in multiset(init) + multiset{g};
        assert t[i] in init || t[i] == g;
      }
    }
  }

  lemma {:induction false} InsertStable(s: seq<Gap>, g: Gap, c: int)
    requires Falling(s)
    ensures WithCount(Insert(s, g), c) == WithCount(s, c) + if g.count == c then [g] else []
  {
    hide WithCount;
    if s == [] || s[|s| - 1].count >= g.count {
      WithCountSnoc(s, g, c);
    } else {
      var init, last := s[..|s| - 1], s[|s| - 1];
      InsertStable(init, g, c);
      assert s == init + [last];
      WithCountSnoc(Insert(init, g), last, c);
      WithCountSnoc(init, last, c);
      if g.count != c { assert WithCount(init, c) + [] == WithCount(init, c); }
    }
  }

  /** Sorted, a permutation, and equal counts keep their order. */
  lemma {:induction false} SortDescSorts(s: seq<Gap>)
    ensures Falling(SortDesc(s)) && multiset(SortDesc(s)) == multiset(s)
    ensures forall c :: WithCount(SortDesc(s), c) == WithCount(s, c)
  {
    hide WithCount, Insert, Falling;
    if s == [] {
      NoneFall();
    } else {
      var init, g := s[..|s| - 1], s[|s| - 1];
      SortDescSorts(init);
      InsertFalls(SortDesc(init), g);
      InsertKeeps(SortDesc(init), g);
      assert s == init + [g];
      forall c ensures WithCount(SortDesc(s), c) == WithCount(s, c) {
        InsertStable(SortDesc(init), g, c);
        WithCountSnoc(init, g, c);
      }
    }
  }

  lemma NoneFall()
    ensures Falling([])
  {}

  function Take(s: seq<Gap>, limit: nat): seq<Gap> { if limit < |s| then s[..limit] else s }

  /** All gaps of the window, most frequent first. */
  function Ranking(rows: seq<Row>): seq<Gap> {
    SortDesc(GapsOf(MergeRows(rows), MergeRows(rows).order))
  }

  method GetGaps(rows: seq<Row>, limit: nat) returns (items: seq<Gap>)
    ensures items == Take(Ranking(rows), limit)
  {
    var merged := Merged([], map[]);
    for i := 0 to |rows|
      invariant merged == MergeRows(rows[..i])
    {
      assert rows[..i + 1][..i] == rows[..i];
      if rows[i].Items? {
        var all := rows[i].items;
        ghost var before := merged;
        for k := 0 to |all|
          invariant merged == MergeItems(before, all[..k])
        {
          assert all[..k + 1][..k] == all[..k];
          merged := Absorb(merged, all[k]);
        }
        assert all[..|all|] == all;
      }
    }
    assert rows[..|rows|] == rows;
    items := Take(SortDesc(GapsOf(merged, merged.order)), limit);
  }

  /** The body of the item loop: the bucket is found or created, then count, samples and requesters are added. */
  method Absorb(m: Merged, item: Item) returns (merged: Merged)
    ensures merged == MergeItem(m, item)
  {
    merged := m;
    if item.normalized == None || item.normalized == Some("") { return; }
    var key := item.normalized.value;
    if key !in merged.buckets { merged := Merged(merged.order + [key], merged.buckets[key := Bucket(0, [], {})]); }
    var b := merged.buckets[key];
    var samples := b.samples;
    for i := 0 to |item.samples|
      invariant samples == AddSamples(b.samples, item.samples[..i])
    {
      assert item.samples[..i + 1][..i] == item.samples[..i];
      if item.samples[i] !in samples && |samples| < SAMPLE_CAP { samples := samples + [item.samples[i]]; }
    }
    assert item.samples[..|item.samples|] == item.samples;
    var requesters := b.requesters;
    for i := 0 to |item.requesters|
      invariant requesters == b.requesters + ToSet(item.requesters[..i])
    {
      requesters := requesters + {item.requesters[i]};
    }
    assert item.requesters[..|item.requesters|] == item.requesters;
    merged := merged.(buckets := merged.buckets[key := Bucket(b.count + item.count, samples, requesters)]);
  }

  lemma SortedMembers(s: seq<Gap>, g: Gap)
    ensures g in SortDesc(s) <==> g in s
  {
    SortDescSorts(s);
    hide SortDesc;
    assert g in SortDesc(s) <==> g in multiset(SortDesc(s));
    assert g in s <==> g in multiset(s);
  }

  lemma ListedGap(m: Merged, g: Gap)
    requires InOrder(m)
    ensures g in GapsOf(m, m.order) <==>
              g.normalized in m.buckets && Bucket(g.count, g.samples, g.requesters) == BucketAt(m, g.normalized)
  {
    var all := GapsOf(m, m.order);
    if g.normalized in m.buckets {
      var i :| 0 <= i < |m.order| && m.order[i] == g.normalized;
      assert all[i].normalized == g.normalized;
    }
  }

  /** Every listed gap carries its exact sum, first samples and requesters over the whole window. */
  lemma RankedGap(rows: seq<Row>, g: Gap)
    ensures g in Ranking(rows) <==>
              var items := Flatten(rows);
              && Mentioned(items, g.normalized) && g.count == CountOf(items, g.normalized)
              && g.samples == AddSamples([], SamplesOf(items, g.normalized)) && g.requesters == RequestersOf(items, g.normalized)
  {
    var m := MergeRows(rows);
    MergeRowsIsFlat(rows);
    TotalConserved(Flatten(rows));
    MergedBucket(rows, g.normalized);
    SortedMembers(GapsOf(m, m.order), g);
    ListedGap(m, g);
    hide SortDesc, MergeRows, MergeItems, Mentioned, AddSamples, CountOf, SamplesOf, RequestersOf, Flatten, InOrder, GapsOf, BucketAt, Total;
  }

  /** The answer is as many gaps as there are, up to the limit: the first of the ranking. */
  lemma LimitKeepsFirst(rows: seq<Row>, limit: nat, i: nat)
    ensures var all, items := Ranking(rows), Take(Ranking(rows), limit);
            && |items| == (if |all| <= limit then |all| else limit)
            && (i < |items| ==> items[i] == all[i])
  {
    hide Ranking;
  }

  /** No omitted gap has a larger count than a returned one. */
  lemma LimitDropsSmallest(rows: seq<Row>, limit: nat, kept: nat, dropped: nat)
    requires kept < limit <= dropped < |Ranking(rows)|
    ensures kept < |Take(Ranking(rows), limit)| && Take(Ranking(rows), limit)[kept].count >= Ranking(rows)[dropped].count
  {
    SortDescSorts(GapsOf(MergeRows(rows), MergeRows(rows).order));
  }

  /** Reordering the rows changes which gaps are listed only in their samples. */
  lemma ReorderedRows(a: seq<Row>, b: seq<Row>, g: Gap)
    requires multiset(a) == multiset(b) && g in Ranking(a)
    ensures exists h | h in Ranking(b) :: h.normalized == g.normalized && h.count == g.count && h.requesters == g.requesters
  {
    RankedGap(a, g);
    RowOrderIrrelevant(a, b, g.normalized);
    MentionedAnyOrder(a, b, g.normalized);
    var items := Flatten(b);
    var h := Gap(g.normalized, CountOf(items, g.normalized), AddSamples([], SamplesOf(items, g.normalized)), RequestersOf(items, g.normalized));
    RankedGap(b, h);
    hide Ranking, Mentioned, CountOf, RequestersOf, AddSamples, SamplesOf, Flatten;
  }

  lemma {:induction false} InFlatten(rows: seq<Row>, item: Item)
    ensures item in Flatten(rows) <==> exists r | r in rows :: item in ItemsOf(r)
  {
    if rows != [] {
      var init, last := rows[..|rows| - 1], rows[|rows| - 1];
      InFlatten(init, item);
      assert rows == init + [last] && Flatten(rows) == Flatten(init) + ItemsOf(last);
    }
  }

  lemma MentionedAnyOrder(a: seq<Row>, b: seq<Row>, key: string)
    requires multiset(a) == multiset(b) && Mentioned(Flatten(a), key)
    ensures Mentioned(Flatten(b), key)
  {
    var i :| 0 <= i < |Flatten(a)| && Flatten(a)[i].Keyed(key);
    var item := Flatten(a)[i];
    InFlatten(a, item);
    InFlatten(b, item);
    var r :| r in a && item in ItemsOf(r);
    assert r in multiset(a);
    assert r in b;
    assert item in Flatten(b);
  }
}
