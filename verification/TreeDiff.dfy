/**
 The file status of a skill contribution against the latest version of the skill, comparing the two
 trees modulo a root folder that either of them may have.
 */
module TreeDiff {
  import opened Options

  datatype File = File(size: nat, etag: string)

  datatype Change = Added | Deleted | Modified

  /** Files by path, with the order in which the paths were listed. */
  datatype Tree = Tree(paths: seq<string>, files: map<string, File>) {
    /** Listed paths have had their leading slashes removed. */
    ghost predicate Valid() {
      && (forall i, k | 0 <= i < k < |paths| :: paths[i] != paths[k])
      && (forall p :: p in paths <==> p in files)
      && (forall p | p in paths :: NoLeadingSlash(p))
    }
  }

  predicate NoLeadingSlash(s: string) { s != "" ==> s[0] != '/' }

  function StripSlashes(s: string): (r: string)
    ensures NoLeadingSlash(r)
    ensures NoLeadingSlash(s) ==> r == s
  {
    if s != "" && s[0] == '/' then StripSlashes(s[1..]) else s
  }

  /** The text before the first slash, if there is one. */
  function FirstSegment(s: string): Option<string> {
    if s == "" then None
    else if s[0] == '/' then Some("")
    else
      match FirstSegment(s[1..])
      case None => None
      case Some(r) => Some([s[0]] + r)
  }

  predicate Under(p: string, root: string) {
    root + "/" <= p || p == root
  }

  /** The folder of the first path, if every path lies in it or is named like it; otherwise none. */
  function Root(paths: seq<string>): string {
    if paths == [] then ""
    else
      match FirstSegment(paths[0])
      case None => ""
      case Some(root) => if forall p | p in paths :: Under(p, root) then root else ""
  }

  lemma {:induction false} FirstSegmentIs(s: string)
    ensures match FirstSegment(s)
            case None => '/' !in s
            case Some(r) => '/' !in r && r + "/" <= s
  {
    if s != "" && s[0] != '/' {
      FirstSegmentIs(s[1..]);
      assert s == [s[0]] + s[1..];
    }
  }

  lemma FirstSlashAt(s: string, r: string)
    requires '/' !in r && r + "/" <= s
    ensures |r| < |s| && s[..|r|] == r && s[|r|] == '/'
    ensures forall i | 0 <= i < |r| :: s[i] != '/'
  {
    assert s[..|r|] == (r + "/")[..|r|] == r && s[|r|] == (r + "/")[|r|];
    assert forall i | 0 <= i < |r| :: s[i] == r[i] && r[i] in r;
  }

  /** A root is found exactly if it is a folder without a slash that holds the first path, and every path lies in it or is named like it. */
  lemma RootIff(paths: seq<string>, r: string)
    requires r != ""
    ensures Root(paths) == r <==>
              && paths != [] && '/' !in r && r + "/" <= paths[0]
              && forall p | p in paths :: r + "/" <= p || p == r
  {
    if paths != [] {
      FirstSegmentIs(paths[0]);
      match FirstSegment(paths[0])
      case None =>
        if '/' !in r && r + "/" <= paths[0] { FirstSlashAt(paths[0], r); }
      case Some(root) =>
        FirstSlashAt(paths[0], root);
        if '/' !in r && r + "/" <= paths[0] { FirstSlashAt(paths[0], r); }
    }
    hide FirstSegment;
  }

  function GetNorm(p: string, root: string): string {
    if root != "" && Under(p, root) then StripSlashes(p[|root|..]) else p
  }

  /** Normalised path to listed path; the last of several wins. */
  function NormMap(paths: seq<string>, root: string): map<string, string> {
    if paths == [] then map[]
    else
      var last := paths[|paths| - 1];
      NormMap(paths[..|paths| - 1], root)[GetNorm(last, root) := last]
  }

  function Norms(t: Tree): map<string, string> { NormMap(t.paths, Root(t.paths)) }

  // ----- classification -----

  function PathAt(t: Tree, norm: string): string {
    if norm in Norms(t) then Norms(t)[norm] else ""
  }

  /** The file compared for a normalised path; the root itself and nameless paths have none. */
  function FileAt(t: Tree, norm: string): Option<File> {
    if norm != "" && PathAt(t, norm) != "" && PathAt(t, norm) in t.files then Some(t.files[PathAt(t, norm)]) else None
  }

  /** Where a deleted file is shown: inside the contribution's root folder. */
  function Target(root: string, norm: string): string {
    if root != "" then root + "/" + norm else norm
  }

  /** The entry a normalised path contributes to the status map, if any. */
  function Entry(contrib: Tree, base: Tree, norm: string): Option<(string, Change)> {
    var f, g := FileAt(contrib, norm), FileAt(base, norm);
    if f.Some? && g.None? then Some((PathAt(contrib, norm), Added))
    else if g.Some? && f.None? then Some((Target(Root(contrib.paths), norm), Deleted))
    else if f != g then Some((PathAt(contrib, norm), Modified))
    else None
  }

  lemma {:induction false} NormMapAt(paths: seq<string>, root: string, n: string)
    requires n in NormMap(paths, root)
    ensures NormMap(paths, root)[n] in paths && GetNorm(NormMap(paths, root)[n], root) == n
  {
    var init, last := paths[..|paths| - 1], paths[|paths| - 1];
    if n != GetNorm(last, root) { NormMapAt(init, root, n); }
  }

  lemma {:induction false} NormMapHas(paths: seq<string>, root: string, p: string)
    requires p in paths
    ensures GetNorm(p, root) in NormMap(paths, root)
  {
    var init, last := paths[..|paths| - 1], paths[|paths| - 1];
    assert paths == init + [last];
    if p != last { NormMapHas(init, root, p); }
  }

  /** A listed normalised path comes from a file and leads back to it. */
  lemma NormAt(t: Tree, n: string)
    requires t.Valid() && n in Norms(t)
    ensures PathAt(t, n) in t.files && GetNorm(PathAt(t, n), Root(t.paths)) == n && NoLeadingSlash(n)
    ensures n != "" ==> FileAt(t, n) == Some(t.files[PathAt(t, n)])
  {
    NormMapAt(t.paths, Root(t.paths), n);
    hide Root, NormMap;
  }

  /** Folder-prefixed targets lead back to the normalised path. */
  lemma TargetNorm(root: string, norm: string)
    requires NoLeadingSlash(norm)
    ensures GetNorm(Target(root, norm), root) == norm
  {
    if root != "" {
      var p := root + "/" + norm;
      assert p[..|root| + 1] == root + "/";
      assert p[|root|..] == "/" + norm;
      assert ("/" + norm)[1..] == norm;
    }
  }

  lemma FileNorm(t: Tree, n: string)
    requires t.Valid() && FileAt(t, n).Some?
    ensures n in Norms(t) && GetNorm(PathAt(t, n), Root(t.paths)) == n && NoLeadingSlash(n)
  {
    NormAt(t, n);
  }

  /** An entry's key normalises back to the path that made the entry. */
  lemma EntryKey(contrib: Tree, base: Tree, n: string)
    requires contrib.Valid() && base.Valid() && Entry(contrib, base, n).Some?
    ensures GetNorm(Entry(contrib, base, n).value.0, Root(contrib.paths)) == n
    ensures n in AllNorms(contrib, base)
  {
    hide Norms, Root, GetNorm, Tree.Valid, FileAt, PathAt, NoLeadingSlash, Target;
    if FileAt(contrib, n).Some? {
      FileNorm(contrib, n);
    } else {
      FileNorm(base, n);
      TargetNorm(Root(contrib.paths), n);
    }
  }

  /** So a deleted file's key is never also the key of an added or modified one. */
  lemma KeysNeverCollide(contrib: Tree, base: Tree, m: string, n: string)
    requires contrib.Valid() && base.Valid() && Entry(contrib, base, m).Some? && Entry(contrib, base, n).Some?
    requires Entry(contrib, base, m).value.0 == Entry(contrib, base, n).value.0
    ensures m == n
  {
    EntryKey(contrib, base, m);
    EntryKey(contrib, base, n);
    hide Entry, GetNorm, Root, Tree.Valid;
  }

  function AllNorms(contrib: Tree, base: Tree): set<string> {
    Norms(contrib).Keys + Norms(base).Keys
  }

  predicate Recorded(e: Option<(string, Change)>, status: map<string, Change>) {
    e.Some? ==> e.value.0 in status && status[e.value.0] == e.value.1
  }

  predicate Justified(contrib: Tree, base: Tree, norms: set<string>, k: string, v: Change) {
    var n := GetNorm(k, Root(contrib.paths));
    n in norms && Entry(contrib, base, n) == Some((k, v))
  }

  /** `status` holds exactly the entries of the normalised paths `norms`. */
  ghost predicate IsStatusMap(contrib: Tree, base: Tree, norms: set<string>, status: map<string, Change>) {
    && (forall n | n in norms :: Recorded(Entry(contrib, base, n), status))
    && (forall k | k in status :: Justified(contrib, base, norms, k, status[k]))
  }

  function Put(status: map<string, Change>, e: Option<(string, Change)>): map<string, Change> {
    if e.Some? then status[e.value.0 := e.value.1] else status
  }

  /** The three cases of the loop, in terms of the normalised paths and the files behind them. */
  lemma EntryCases(contrib: Tree, base: Tree, norm: string)
    requires contrib.Valid() && base.Valid() && norm in AllNorms(contrib, base)
    ensures var c, b := Norms(contrib), Norms(base);
            && (norm in c ==> c[norm] in contrib.files) && (norm in b ==> b[norm] in base.files)
            && Entry(contrib, base, norm) ==
                 if norm == "" then None
                 else if norm !in b then Some((c[norm], Added))
                 else if norm !in c then Some((Target(Root(contrib.paths), norm), Deleted))
                 else if contrib.files[c[norm]] != base.files[b[norm]] then Some((c[norm], Modified))
                 else None
  {
    if norm in Norms(contrib) { NormAt(contrib, norm); }
    if norm in Norms(base) { NormAt(base, norm); }
    hide Norms, Root, GetNorm, Tree.Valid;
  }

  /** One round of the classification loop. */
  method Classify(contrib: Tree, base: Tree, norm: string, before: map<string, Change>) returns (status: map<string, Change>)
    requires contrib.Valid() && base.Valid() && norm in AllNorms(contrib, base)
    ensures status == Put(before, Entry(contrib, base, norm))
  {
    hide Norms, Root, GetNorm, Tree.Valid, Entry, FileAt, PathAt;
    EntryCases(contrib, base, norm);
    status := before;
    if norm == "" { return; }
    var c, b, contribRoot := Norms(contrib), Norms(base), Root(contrib.paths);
    if norm in c && norm !in b {
      status := status[c[norm] := Added];
    } else if norm in b && norm !in c {
      status := status[if contribRoot != "" then contribRoot + "/" + norm else norm := Deleted];
    } else {
      var f, g := contrib.files[c[norm]], base.files[b[norm]];
      if f.size != g.size || f.etag != g.etag { status := status[c[norm] := Modified]; }
    }
  }

  /** The status map: no entry overwrites another, in whatever order the normalised paths are visited. */
  method DiffStatus(contrib: Tree, base: Tree) returns (status: map<string, Change>)
    requires contrib.Valid() && base.Valid()
    ensures IsDiff(contrib, base, status)
  {
    status := map[];
    var rest := AllNorms(contrib, base);
    ghost var all, done: set<string> := rest, {};
    hide AllNorms, Tree.Valid, Entry, Recorded, Justified;
    while rest != {}
      invariant done + rest == all
      invariant IsStatusMap(contrib, base, done, status)
      decreases |rest|
    {
      var norm :| norm in rest;
      var next := Classify(contrib, base, norm, status);
      Extend(contrib, base, done, norm, status);
      status := next;
      rest := rest - {norm};
      done := done + {norm};
    }
    assert done == all;
  }

  /** The entry of one more path displaces no earlier one. */
  lemma Extend(contrib: Tree, base: Tree, done: set<string>, norm: string, status: map<string, Change>)
    requires contrib.Valid() && base.Valid() && IsStatusMap(contrib, base, done, status)
    ensures IsStatusMap(contrib, base, done + {norm}, Put(status, Entry(contrib, base, norm)))
  {
    var e, now, root := Entry(contrib, base, norm), done + {norm}, Root(contrib.paths);
    var after := Put(status, e);
    if e.Some? { EntryKey(contrib, base, norm); }
    hide Tree.Valid, Root, GetNorm, Entry, Recorded, Put;
    forall n | n in now ensures Recorded(Entry(contrib, base, n), after) {
      var d := Entry(contrib, base, n);
      if d.Some? { EntryKey(contrib, base, n); }
      RecordedEither(d, e, status, n in done);
    }
    forall k | k in after ensures Justified(contrib, base, now, k, after[k]) {
      PutKey(status, e, k);
      if k in status && after[k] == status[k] { assert Justified(contrib, base, done, k, status[k]); }
    }
  }

  lemma RecordedEither(d: Option<(string, Change)>, e: Option<(string, Change)>, status: map<string, Change>, known: bool)
    requires (known && Recorded(d, status)) || d == e
    requires d.Some? && e.Some? && d.value.0 == e.value.0 ==> d == e
    ensures Recorded(d, Put(status, e))
  {}

  lemma PutKey(status: map<string, Change>, e: Option<(string, Change)>, k: string)
    requires k in Put(status, e)
    ensures (k in status && Put(status, e)[k] == status[k]) || e == Some((k, Put(status, e)[k]))
  {}

  // ----- diff and patch -----

  /** A tree by normalised path. */
  function NormTree(t: Tree): map<string, File> {
    map n | n in Norms(t) && FileAt(t, n).Some? :: FileAt(t, n).value
  }

  /** `status` is a status map of the two trees. */
  ghost predicate IsDiff(contrib: Tree, base: Tree, status: map<string, Change>) {
    contrib.Valid() && base.Valid() && IsStatusMap(contrib, base, AllNorms(contrib, base), status)
  }

  lemma NormTreeAt(t: Tree, n: string)
    requires t.Valid()
    ensures n in NormTree(t) <==> FileAt(t, n).Some?
    ensures n in NormTree(t) ==> NormTree(t)[n] == FileAt(t, n).value && PathAt(t, n) in t.files && t.files[PathAt(t, n)] == NormTree(t)[n]
  {
    if FileAt(t, n).Some? { FileNorm(t, n); }
    hide Root, GetNorm, Tree.Valid;
  }

  /** What a key of the status map says. */
  lemma KeyMeaning(contrib: Tree, base: Tree, status: map<string, Change>, k: string)
    requires IsDiff(contrib, base, status) && k in status
    ensures var c, b, n := NormTree(contrib), NormTree(base), GetNorm(k, Root(contrib.paths));
            && (status[k] == Added <==> n in c && n !in b)
            && (status[k] == Deleted <==> n in b && n !in c)
            && (status[k] == Modified <==> n in c && n in b && c[n] != b[n])
            && (status[k] != Deleted ==> k in contrib.files && contrib.files[k] == c[n])
            && Entry(contrib, base, n) == Some((k, status[k]))
  {
    var n := GetNorm(k, Root(contrib.paths));
    assert Justified(contrib, base, AllNorms(contrib, base), k, status[k]);
    NormTreeAt(contrib, n);
    NormTreeAt(base, n);
    hide Norms, Root, GetNorm, Tree.Valid, FileAt, PathAt, NormTree, IsStatusMap, AllNorms;
  }

  /** Every difference has its key. */
  lemma DifferenceHasKey(contrib: Tree, base: Tree, status: map<string, Change>, n: string) returns (k: string)
    requires IsDiff(contrib, base, status)
    requires var c, b := NormTree(contrib), NormTree(base); (n in c || n in b) && !(n in c && n in b && c[n] == b[n])
    ensures k in status && GetNorm(k, Root(contrib.paths)) == n
  {
    NormTreeAt(contrib, n);
    NormTreeAt(base, n);
    EntryKey(contrib, base, n);
    k := Entry(contrib, base, n).value.0;
    assert Recorded(Entry(contrib, base, n), status);
  }

  /** The normalised paths of the deleted keys. */
  function Removed(status: map<string, Change>, root: string): set<string> {
    set k | k in status && status[k] == Deleted :: GetNorm(k, root)
  }

  /** The contribution's files at the added and modified keys. */
  ghost function Taken(contrib: Tree, base: Tree, status: map<string, Change>): map<string, File>
    requires IsDiff(contrib, base, status)
  {
    var root := Root(contrib.paths);
    TakenOk(contrib, base, status);
    map k | k in status && status[k] != Deleted :: GetNorm(k, root) := contrib.files[k]
  }

  lemma TakenOk(contrib: Tree, base: Tree, status: map<string, Change>)
    requires IsDiff(contrib, base, status)
    ensures forall k | k in status && status[k] != Deleted :: k in contrib.files
    ensures var root := Root(contrib.paths);
            forall k, l | k in status && l in status && GetNorm(k, root) == GetNorm(l, root) :: k == l
  {
    forall k | k in status
      ensures status[k] != Deleted ==> k in contrib.files
      ensures Entry(contrib, base, GetNorm(k, Root(contrib.paths))) == Some((k, status[k]))
    {
      KeyMeaning(contrib, base, status, k);
    }
    hide Norms, Root, GetNorm, Tree.Valid, Entry, IsDiff, NormTree;
  }

  /** The base tree with the status map applied to it. */
  ghost function Patch(contrib: Tree, base: Tree, status: map<string, Change>): map<string, File>
    requires IsDiff(contrib, base, status)
  {
    (NormTree(base) - Removed(status, Root(contrib.paths))) + Taken(contrib, base, status)
  }

  lemma PatchAt(contrib: Tree, base: Tree, status: map<string, Change>, n: string)
    requires IsDiff(contrib, base, status)
    ensures var p, c := Patch(contrib, base, status), NormTree(contrib); (n in p <==> n in c) && (n in p && n in c ==> p[n] == c[n])
  {
    var c, b, root := NormTree(contrib), NormTree(base), Root(contrib.paths);
    TakenOk(contrib, base, status);
    var taken, removed := Taken(contrib, base, status), Removed(status, root);
    if (n in c || n in b) && !(n in c && n in b && c[n] == b[n]) {
      var k := DifferenceHasKey(contrib, base, status, n);
      KeyMeaning(contrib, base, status, k);
      assert status[k] != Deleted ==> GetNorm(k, root) in taken;
      assert status[k] == Deleted ==> GetNorm(k, root) in removed;
      hide IsDiff, Entry, NormTree, Root, GetNorm;
    }
    if n in taken || n in removed {
      var k :| k in status && GetNorm(k, root) == n;
      KeyMeaning(contrib, base, status, k);
    }
    hide IsDiff, Entry, NormTree, Root, GetNorm;
  }

  /** Patching the normalised base with the status map gives the normalised contribution. */
  lemma DiffPatch(contrib: Tree, base: Tree, status: map<string, Change>)
    requires IsDiff(contrib, base, status)
    ensures Patch(contrib, base, status) == NormTree(contrib)
  {
    var c, p := NormTree(contrib), Patch(contrib, base, status);
    hide IsDiff, NormTree, Patch;
    forall n ensures (n in p <==> n in c) && (n in p && n in c ==> p[n] == c[n]) {
      PatchAt(contrib, base, status, n);
    }
  }

  /** No status means no difference, and the other way round. */
  lemma EmptyIffEqual(contrib: Tree, base: Tree, status: map<string, Change>)
    requires IsDiff(contrib, base, status)
    ensures status == map[] <==> NormTree(contrib) == NormTree(base)
  {
    var c, b := NormTree(contrib), NormTree(base);
    hide IsDiff, NormTree, Root, GetNorm, Entry;
    if c != b {
      var n :| (n in c || n in b) && !(n in c && n in b && c[n] == b[n]);
      var k := DifferenceHasKey(contrib, base, status, n);
    } else if status != map[] {
      var k :| k in status;
      KeyMeaning(contrib, base, status, k);
    }
  }

  // ----- what normalising may hide -----

  function Slashes(n: nat): (r: string)
    ensures |r| == n
  {
    if n == 0 then "" else "/" + Slashes(n - 1)
  }

  /** The root itself, alone or followed only by slashes. */
  ghost predicate Bare(p: string, root: string) {
    exists i: nat :: p == root + Slashes(i)
  }

  ghost predicate SlashesApart(p: string, q: string, root: string, i: nat, k: nat, rest: string) {
    p == root + Slashes(i + 1) + rest && q == root + Slashes(k + 1) + rest
  }

  /** Two paths that differ only in the number of slashes right after the root. */
  ghost predicate Twins(p: string, q: string, root: string) {
    p != q && exists i: nat, k: nat, rest :: SlashesApart(p, q, root, i, k, rest)
  }

  /** The file listed at `p` is the one compared under its normalised path. */
  ghost predicate Kept(t: Tree, p: string)
    requires p in t.files
  {
    var n := GetNorm(p, Root(t.paths));
    n in NormTree(t) && PathAt(t, n) == p && NormTree(t)[n] == t.files[p]
  }

  lemma {:induction false} StripSplit(s: string) returns (n: nat)
    ensures s == Slashes(n) + StripSlashes(s)
  {
    if s != "" && s[0] == '/' {
      n := StripSplit(s[1..]);
      n := n + 1;
      assert s == "/" + s[1..];
    } else {
      n := 0;
    }
  }

  lemma {:induction false} StripMore(n: nat, s: string)
    ensures StripSlashes(Slashes(n) + s) == StripSlashes(s)
  {
    if n == 0 {
      assert Slashes(0) + s == s;
    } else {
      StripMore(n - 1, s);
      assert (Slashes(n) + s)[1..] == Slashes(n - 1) + s;
    }
  }

  /** Every listed path lies under a root that is not empty. */
  lemma AllUnder(t: Tree, p: string)
    requires p in t.paths && Root(t.paths) != ""
    ensures Under(p, Root(t.paths)) && p == Root(t.paths) + p[|Root(t.paths)|..]
  {}

  /** A listed path is the root, some slashes (none only for the root itself), and its normalised path. */
  lemma NormSplit(t: Tree, p: string) returns (n: nat)
    requires t.Valid() && p in t.paths
    ensures var root := Root(t.paths); p == root + (Slashes(n) + GetNorm(p, root))
    ensures var root := Root(t.paths); n == 0 ==> root == "" || GetNorm(p, root) == ""
  {
    var root := Root(t.paths);
    if root == "" {
      n := 0;
    } else {
      AllUnder(t, p);
      n := StripSplit(p[|root|..]);
    }
  }

  lemma NormNameless(t: Tree, p: string)
    requires t.Valid() && p in t.paths
    ensures GetNorm(p, Root(t.paths)) == "" <==> Bare(p, Root(t.paths))
  {
    var root := Root(t.paths);
    var n := NormSplit(t, p);
    if GetNorm(p, root) == "" { assert Slashes(n) + "" == Slashes(n); }
    if Bare(p, root) {
      var i: nat :| p == root + Slashes(i);
      if root == "" {
        assert p == Slashes(i);
      } else {
        AllUnder(t, p);
        assert p[|root|..] == Slashes(i) + "";
        StripMore(i, "");
      }
    }
  }

  lemma SameNorm(t: Tree, p: string, q: string)
    requires t.Valid() && p in t.paths && q in t.paths && p != q
    requires GetNorm(p, Root(t.paths)) == GetNorm(q, Root(t.paths)) != ""
    ensures Twins(p, q, Root(t.paths))
  {
    var root, norm := Root(t.paths), GetNorm(p, Root(t.paths));
    var i := NormSplit(t, p);
    var k := NormSplit(t, q);
    hide Root, GetNorm, Slashes;
    if root == "" {
      StripFree(t, p);
      StripFree(t, q);
    } else {
      assert p == root + Slashes(i) + norm && q == root + Slashes(k) + norm;
      assert SlashesApart(p, q, root, i - 1, k - 1, norm);
    }
  }

  lemma StripFree(t: Tree, p: string)
    requires Root(t.paths) == ""
    ensures p == GetNorm(p, Root(t.paths))
  {}

  lemma TwinNorm(t: Tree, p: string, i: nat, rest: string)
    requires t.Valid() && p in t.paths && p == Root(t.paths) + Slashes(i + 1) + rest
    ensures GetNorm(p, Root(t.paths)) == StripSlashes(rest)
  {
    var root := Root(t.paths);
    assert p[|root|] == Slashes(i + 1)[0] == '/';
    if root == "" {
      assert false;
    } else {
      AllUnder(t, p);
      assert p[|root|..] == Slashes(i + 1) + rest;
      StripMore(i + 1, rest);
    }
  }

  lemma TwinsNorm(t: Tree, p: string, q: string)
    requires t.Valid() && p in t.paths && q in t.paths && Twins(p, q, Root(t.paths))
    ensures GetNorm(p, Root(t.paths)) == GetNorm(q, Root(t.paths))
  {
    hide Root, GetNorm, StripSlashes, Slashes, Tree.Valid;
    var i: nat, k: nat, rest :| SlashesApart(p, q, Root(t.paths), i, k, rest);
    TwinNorm(t, p, i, rest);
    TwinNorm(t, q, k, rest);
  }

  lemma KeptIff(t: Tree, p: string)
    requires t.Valid() && p in t.paths
    ensures var n := GetNorm(p, Root(t.paths));
            Kept(t, p) <==> n != "" && PathAt(t, n) == p
  {
    var n := GetNorm(p, Root(t.paths));
    NormMapHas(t.paths, Root(t.paths), p);
    NormTreeAt(t, n);
    NormAt(t, n);
    hide Root, GetNorm;
  }

  /**
   The normalised tree holds every listed file exactly if no listed path is the bare root and no two
   listed paths differ only in the number of slashes after it. Other empty segments hide nothing.
   */
  lemma CompleteIff(t: Tree)
    requires t.Valid()
    ensures (forall p | p in t.paths :: Kept(t, p)) <==>
              (forall p | p in t.paths :: !Bare(p, Root(t.paths))) &&
              (forall p, q | p in t.paths && q in t.paths :: !Twins(p, q, Root(t.paths)))
  {
    var root := Root(t.paths);
    forall p | p in t.paths ensures Kept(t, p) ==> !Bare(p, root) {
      KeptIff(t, p);
      NormNameless(t, p);
    }
    forall p, q | p in t.paths && q in t.paths ensures Kept(t, p) && Kept(t, q) ==> !Twins(p, q, root) {
      KeptIff(t, p);
      KeptIff(t, q);
      if Twins(p, q, root) { TwinsNorm(t, p, q); }
    }
    hide Root, GetNorm, Kept, Bare, Twins;
    if forall p, q | p in t.paths && q in t.paths :: !Twins(p, q, root) {
      forall p | p in t.paths && !Bare(p, root) ensures Kept(t, p) { Alone(t, p); }
    }
  }

  lemma Alone(t: Tree, p: string)
    requires t.Valid() && p in t.paths && !Bare(p, Root(t.paths))
    requires forall q | q in t.paths :: !Twins(q, p, Root(t.paths))
    ensures Kept(t, p)
  {
    var root, n := Root(t.paths), GetNorm(p, Root(t.paths));
    NormNameless(t, p);
    NormMapHas(t.paths, root, p);
    NormAt(t, n);
    KeptIff(t, p);
    var q := PathAt(t, n);
    hide Root, GetNorm, Kept, Bare, Twins;
    if q != p { SameNorm(t, q, p); }
  }

  /** An empty segment can hide a file: of `r/a` and `r//a` only the one listed last is compared. */
  lemma DoubleSlashHides(f: File, g: File)
    ensures var t := Tree(["r/a", "r//a"], map["r/a" := f, "r//a" := g]);
            t.Valid() && NormTree(t) == map["a" := g]
  {
    var t := Tree(["r/a", "r//a"], map["r/a" := f, "r//a" := g]);
    assert t.paths[0] == "r/a" && t.paths[1] == "r//a";
    assert FirstSegment("r/a") == Some("r") by {
      assert "r/a"[1..] == "/a";
      assert ['r'] + "" == "r";
    }
    assert "r" + "/" == "r/";
    assert "r/" <= "r/a" && "r/" <= "r//a";
    assert Root(t.paths) == "r";
    assert "r/a"[1..] == "/a" && "/a"[1..] == "a" && "r//a"[1..] == "//a" && "//a"[1..] == "/a";
    assert GetNorm("r/a", "r") == "a" && GetNorm("r//a", "r") == "a";
    assert t.paths[..1] == ["r/a"] && t.paths[..1][..0] == [];
    assert NormMap([], "r") == map[];
    assert NormMap(["r/a"], "r") == map["a" := "r/a"];
    assert NormMap(t.paths, "r") == map["a" := "r/a"]["a" := "r//a"];
  }
}
