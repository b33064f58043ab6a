/**
 Stripping image markers an LLM invented: markers whose id is not among the source's own
 image ids are erased, everything else is kept.
 */
module MarkerStripping {
  import opened Options
  import opened ImageMarkers

  function Lower(s: string): string {
    seq(|s|, i requires 0 <= i < |s| => if 'A' <= s[i] <= 'F' then ((s[i] as int) + 32) as char else s[i])
  }

  predicate Allowed(m: Marker, ids: set<string>) {
    Lower(m.id) in ids
  }

  function Erase(d: Doc, ids: set<string>): Doc {
    match d
    case End(_) => d
    case More(t, m, r) => if Allowed(m, ids) then More(t, m, Erase(r, ids)) else Join(t, Erase(r, ids))
  }

  /** `_IMAGE_MARKER_RE.sub` over the whole text. */
  function Strip(s: string, ids: set<string>): string {
    Render(Erase(Parse(s, Exactly36), ids))
  }

  predicate Contains(s: string, needle: string) {
    exists i | 0 <= i <= |s| :: needle <= s[i..]
  }

  /** What both compilers run: texts without `image://` are returned unread. */
  function StripContent(s: string, ids: set<string>): string {
    if Contains(s, "image://") then Strip(s, ids) else s
  }

  // ----- an account of stripping that does not mention the scan -----

  /** Some disallowed marker, starting anywhere, lies over position `i`. */
  predicate Covered(s: string, ids: set<string>, i: nat) {
    exists j | 0 <= j <= i && j <= |s| :: Hits(s, ids, j, i)
  }

  predicate Hits(s: string, ids: set<string>, j: nat, i: nat)
    requires j <= |s|
  {
    match MatchHere(s[j..], Exactly36)
    case None => false
    case Some(m) => !Allowed(m, ids) && i < j + |m.Text()|
  }

  /** The characters from `i` on that no disallowed marker covers, in order. */
  function Uncovered(s: string, ids: set<string>, i: nat): string
    requires i <= |s|
    decreases |s| - i
  {
    if i == |s| then ""
    else (if Covered(s, ids, i) then "" else [s[i]]) + Uncovered(s, ids, i + 1)
  }

  /** No marker that starts before `i` reaches past it: where the scan can stand. */
  ghost predicate Boundary(s: string, i: nat)
    requires i <= |s|
  {
    forall j | 0 <= j < i && MatchHere(s[j..], Exactly36).Some? ::
      j + |MatchHere(s[j..], Exactly36).value.Text()| <= i
  }

  lemma BoundaryAfterMatch(s: string, i: nat, m: Marker)
    requires i <= |s| && Boundary(s, i) && MatchHere(s[i..], Exactly36) == Some(m)
    ensures i < i + |m.Text()| <= |s| && Boundary(s, i + |m.Text()|)
  {
    hide MatchHere;
    MatchIsPrefix(s[i..], Exactly36, m);
    forall j | 0 <= j < i + |m.Text()| && MatchHere(s[j..], Exactly36).Some?
      ensures j + |MatchHere(s[j..], Exactly36).value.Text()| <= i + |m.Text()|
    {
      if i <= j { OverlapShareEnd(s, Exactly36, i, j, m, MatchHere(s[j..], Exactly36).value); }
    }
  }

  lemma CoveredInMatch(s: string, ids: set<string>, i: nat, m: Marker, k: nat)
    requires i <= |s| && Boundary(s, i) && MatchHere(s[i..], Exactly36) == Some(m)
    requires i <= k < i + |m.Text()|
    ensures Covered(s, ids, k) <==> !Allowed(m, ids)
  {
    hide MatchHere;
    if !Allowed(m, ids) { assert Hits(s, ids, i, k); }
    if Covered(s, ids, k) {
      var j: nat :| 0 <= j <= k && j <= |s| && Hits(s, ids, j, k);
      if i <= j { OverlapShareEnd(s, Exactly36, i, j, m, MatchHere(s[j..], Exactly36).value); }
    }
  }

  lemma UncoveredStep(s: string, ids: set<string>, i: nat)
    requires i < |s|
    ensures Uncovered(s, ids, i) == (if Covered(s, ids, i) then "" else [s[i]]) + Uncovered(s, ids, i + 1)
  {}

  lemma UncoveredEnd(s: string, ids: set<string>)
    ensures Uncovered(s, ids, |s|) == ""
  {}

  lemma {:induction false} UncoveredSpan(s: string, ids: set<string>, i: nat, e: nat, erased: bool)
    requires i <= e <= |s| && forall k | i <= k < e :: Covered(s, ids, k) == erased
    ensures Uncovered(s, ids, i) == (if erased then "" else s[i..e]) + Uncovered(s, ids, e)
    decreases e - i
  {
    hide Covered, Uncovered;
    if i < e {
      UncoveredStep(s, ids, i);
      UncoveredSpan(s, ids, i + 1, e, erased);
      var rest := Uncovered(s, ids, e);
      if !erased { assert s[i..e] + rest == [s[i]] + (s[i + 1..e] + rest); }
    }
  }

  lemma {:induction false} StripFrom(s: string, ids: set<string>, i: nat)
    requires i <= |s| && Boundary(s, i)
    ensures Strip(s[i..], ids) == Uncovered(s, ids, i)
    decreases |s| - i
  {
    hide MatchHere;
    if i < |s| {
      match MatchHere(s[i..], Exactly36)
      case Some(m) =>
        BoundaryAfterMatch(s, i, m);
        var e := i + |m.Text()|;
        MatchIsPrefix(s[i..], Exactly36, m);
        assert s[i..][|m.Text()|..] == s[e..] && s[i..e] == m.Text();
        StripFrom(s, ids, e);
        forall k | i <= k < e ensures Covered(s, ids, k) == !Allowed(m, ids) { CoveredInMatch(s, ids, i, m, k); }
        UncoveredSpan(s, ids, i, e, !Allowed(m, ids));
        StripStep(s[i..], ids, m);
      case None =>
        assert s[i..][1..] == s[i + 1..];
        assert Boundary(s, i + 1);
        StripFrom(s, ids, i + 1);
        EraseJoin([s[i]], Parse(s[i + 1..], Exactly36), ids);
        RenderJoin([s[i]], Erase(Parse(s[i + 1..], Exactly36), ids));
        assert !Covered(s, ids, i);
    }
  }

  lemma StripStep(s: string, ids: set<string>, m: Marker)
    requires MatchHere(s, Exactly36) == Some(m) && |m.Text()| <= |s|
    ensures Strip(s, ids) == (if Allowed(m, ids) then m.Text() else "") + Strip(s[|m.Text()|..], ids)
  {
    hide MatchHere;
    MatchIsPrefix(s, Exactly36, m);
    var r := Parse(s[|m.Text()|..], Exactly36);
    assert Parse(s, Exactly36) == More("", m, r);
    RenderJoin("", Erase(r, ids));
  }

  lemma EraseJoin(t: string, d: Doc, ids: set<string>)
    ensures Erase(Join(t, d), ids) == Join(t, Erase(d, ids))
  {
    if d.More? && !Allowed(d.marker, ids) {
      assert t + (d.text + Erase(d.rest, ids).text) == (t + d.text) + Erase(d.rest, ids).text;
    }
  }

  /** The scan erases exactly the union of all disallowed markers, wherever they start. */
  lemma StripErasesExactly(s: string, ids: set<string>)
    ensures Strip(s, ids) == Uncovered(s, ids, 0)
  {
    hide MatchHere;
    assert s[0..] == s;
    StripFrom(s, ids, 0);
  }

  // ----- the fast path -----

  lemma MatchNeedsImage(s: string, j: nat)
    requires j <= |s| && MatchHere(s[j..], Exactly36).Some?
    ensures Contains(s, "image://")
  {
    hide MatchHere;
    var m := MatchHere(s[j..], Exactly36).value;
    MatchIsPrefix(s[j..], Exactly36, m);
    var i := j + 2 + |m.caption| + 2;
    assert m.Text() == ("![" + m.caption + "](") + ("image://" + (m.id + ")"));
    assert m.Text()[2 + |m.caption| + 2..] == "image://" + (m.id + ")");
    assert s[i..] == s[j..][2 + |m.caption| + 2..];
    assert "image://" <= s[i..];
  }

  /** Skipping texts without `image://` never changes the result. */
  lemma FastPathExact(s: string, ids: set<string>)
    ensures StripContent(s, ids) == Strip(s, ids)
  {
    hide MatchHere;
    if !Contains(s, "image://") {
      forall i: nat | i < |s| ensures !Covered(s, ids, i) {
        if Covered(s, ids, i) {
          var j: nat :| 0 <= j <= i && j <= |s| && Hits(s, ids, j, i);
          MatchNeedsImage(s, j);
        }
      }
      StripErasesExactly(s, ids);
      UncoveredSpan(s, ids, 0, |s|, false);
    }
  }

  // ----- when is one pass enough -----

  ghost predicate NoDisallowed(s: string, ids: set<string>) {
    forall j | 0 <= j <= |s| && MatchHere(s[j..], Exactly36).Some? ::
      Allowed(MatchHere(s[j..], Exactly36).value, ids)
  }

  lemma {:induction false} UncoveredShrinks(s: string, ids: set<string>, i: nat, k: nat)
    requires i <= k < |s| && Covered(s, ids, k)
    ensures |Uncovered(s, ids, i)| < |s| - i
    decreases k - i
  {
    hide Covered, Uncovered;
    UncoveredStep(s, ids, i);
    if i < k { UncoveredShrinks(s, ids, i + 1, k); } else { UncoveredFits(s, ids, i + 1); }
  }

  lemma {:induction false} UncoveredFits(s: string, ids: set<string>, i: nat)
    requires i <= |s|
    ensures |Uncovered(s, ids, i)| <= |s| - i
    decreases |s| - i
  {
    hide Covered, Uncovered;
    if i < |s| {
      UncoveredStep(s, ids, i);
      UncoveredFits(s, ids, i + 1);
    } else {
      UncoveredEnd(s, ids);
    }
  }

  /** Stripping leaves a text alone exactly when it holds no disallowed marker. */
  lemma StripFixedIff(s: string, ids: set<string>)
    ensures Strip(s, ids) == s <==> NoDisallowed(s, ids)
  {
    hide MatchHere;
    StripErasesExactly(s, ids);
    if NoDisallowed(s, ids) {
      UncoveredSpan(s, ids, 0, |s|, false);
    } else {
      var j :| 0 <= j <= |s| && MatchHere(s[j..], Exactly36).Some? && !Allowed(MatchHere(s[j..], Exactly36).value, ids);
      MatchIsPrefix(s[j..], Exactly36, MatchHere(s[j..], Exactly36).value);
      assert Hits(s, ids, j, j);
      assert Covered(s, ids, j);
      UncoveredShrinks(s, ids, 0, j);
    }
  }

  /** The plain runs between kept markers, after the disallowed ones are gone, hide no disallowed marker. */
  ghost predicate NoFusion(d: Doc, ids: set<string>) {
    NoDisallowed(d.text, ids) && (d.More? ==> NoFusion(d.rest, ids))
  }

  ghost predicate KeptOnly(d: Doc, ids: set<string>) {
    d.More? ==> d.marker.Valid(Exactly36) && Allowed(d.marker, ids) && KeptOnly(d.rest, ids)
  }

  lemma {:induction false} EraseKeeps(d: Doc, ids: set<string>)
    requires QuietDoc(d, Exactly36)
    ensures KeptOnly(Erase(d, ids), ids)
  {
    if d.More? { EraseKeeps(d.rest, ids); }
  }

  lemma PartOf(x: string, y: string, z: string, ids: set<string>)
    requires NoDisallowed(x + y + z, ids)
    ensures NoDisallowed(y, ids)
  {
    hide MatchHere;
    forall j | 0 <= j <= |y| && MatchHere(y[j..], Exactly36).Some?
      ensures Allowed(MatchHere(y[j..], Exactly36).value, ids)
    {
      var s := x + y + z;
      var m := MatchHere(y[j..], Exactly36).value;
      MatchIsPrefix(y[j..], Exactly36, m);
      assert s[|x| + j..] == y[j..] + z;
      PrefixIsMatch(s[|x| + j..], Exactly36, m);
    }
  }

  lemma {:induction false} CleanPartsOf(d: Doc, ids: set<string>)
    requires NoDisallowed(Render(d), ids)
    ensures NoFusion(d, ids)
  {
    hide MatchHere;
    assert "" + d.text + Render(d)[|d.text|..] == Render(d);
    PartOf("", d.text, Render(d)[|d.text|..], ids);
    if d.More? {
      assert (d.text + d.marker.Text()) + Render(d.rest) + "" == Render(d);
      PartOf(d.text + d.marker.Text(), Render(d.rest), "", ids);
      CleanPartsOf(d.rest, ids);
    }
  }

  lemma {:induction false} CleanWhole(d: Doc, ids: set<string>)
    requires KeptOnly(d, ids) && NoFusion(d, ids)
    ensures NoDisallowed(Render(d), ids)
  {
    hide MatchHere;
    if d.More? {
      var s := Render(d);
      var k := |d.text|;
      var e := k + |d.marker.Text()|;
      CleanWhole(d.rest, ids);
      assert s[k..] == d.marker.Text() + Render(d.rest);
      PrefixIsMatch(s[k..], Exactly36, d.marker);
      forall j | 0 <= j <= |s| && MatchHere(s[j..], Exactly36).Some?
        ensures Allowed(MatchHere(s[j..], Exactly36).value, ids)
      {
        var m := MatchHere(s[j..], Exactly36).value;
        MatchIsPrefix(s[j..], Exactly36, m);
        if e <= j {
          assert s[j..] == Render(d.rest)[j - e..];
        } else if k <= j {
          OverlapShareEnd(s, Exactly36, k, j, d.marker, m);
        } else if k < j + |m.Text()| {
          OverlapShareEnd(s, Exactly36, j, k, m, d.marker);
        } else {
          assert m.Text() <= d.text[j..] by { assert s[j..][..k - j] == d.text[j..]; }
          PrefixIsMatch(d.text[j..], Exactly36, m);
        }
      }
    }
  }

  lemma FinalIff(s: string, ids: set<string>)
    ensures Strip(Strip(s, ids), ids) == Strip(s, ids) <==> NoFusion(Erase(Parse(s, Exactly36), ids), ids)
    ensures Strip(Strip(s, ids), ids) == Strip(s, ids) <==> NoDisallowed(Strip(s, ids), ids)
  {
    hide MatchHere;
    var d := Erase(Parse(s, Exactly36), ids);
    StripFixedIff(Render(d), ids);
    ParseQuiet(s, Exactly36);
    EraseKeeps(Parse(s, Exactly36), ids);
    if NoFusion(d, ids) { CleanWhole(d, ids); }
    if NoDisallowed(Render(d), ids) { CleanPartsOf(d, ids); }
  }

  /** The plain runs from here to the next allowed marker. */
  function Following(d: Doc, ids: set<string>): string {
    d.text + if d.More? && !Allowed(d.marker, ids) then Following(d.rest, ids) else ""
  }

  /**
   `t` ends in the first `at` characters of a disallowed marker, cut behind its `!` or behind its caption's
   bracket, and `after` begins with the others.
   */
  ghost predicate Splits(t: string, after: string, ids: set<string>, m: Marker, at: nat) {
    && m.Valid(Exactly36) && !Allowed(m, ids)
    && (at == 1 || 3 + |m.caption| <= at < |m.Text()|)
    && at <= |t| && t[|t| - at..] == m.Text()[..at] && m.Text()[at..] <= after
  }

  /** Some marker to be erased stands between the two parts of another. */
  ghost predicate Fuses(d: Doc, ids: set<string>) {
    d.More? && (Fuses(d.rest, ids) ||
                (!Allowed(d.marker, ids) && exists m, at: nat :: Splits(d.text, Following(d.rest, ids), ids, m, at)))
  }

  lemma {:induction false} FollowingErased(d: Doc, ids: set<string>)
    ensures Erase(d, ids).text == Following(d, ids)
  {
    if d.More? { FollowingErased(d.rest, ids); }
  }

  /** In a text cut into a quiet run and the rest, a marker over the cut is split behind its `!` or its caption. */
  lemma Cut(t: string, f: string, ids: set<string>, j: nat)
    requires NoMatches(t) && AllClosed(t) && j < |t|
    requires MatchHere((t + f)[j..], Exactly36).Some? && !Allowed(MatchHere((t + f)[j..], Exactly36).value, ids)
    ensures Splits(t, f, ids, MatchHere((t + f)[j..], Exactly36).value, |t| - j)
  {
    hide MatchHere;
    var m, at := MatchHere((t + f)[j..], Exactly36).value, |t| - j;
    var u := m.Text();
    MatchIsPrefix((t + f)[j..], Exactly36, m);
    assert (t + f)[j..] == t[j..] + f;
    if |u| <= at {
      assert u <= t[j..];
      PrefixIsMatch(t[j..], Exactly36, m);
    } else {
      PrefixIff(u[..at], u[at..], t[j..] + f);
      assert u == u[..at] + u[at..];
      assert (t[j..] + f)[at..] == f && t[j..] == u[..at];
      if at >= 2 { ClosedBefore(m, at); }
    }
  }

  lemma ClosedBefore(m: Marker, at: nat)
    requires m.Valid(Exactly36) && 2 <= at < |m.Text()| && !OpenTail(m.Text()[..at])
    ensures 3 + |m.caption| <= at
  {
    var u := m.Text();
    assert "![" <= u[..at];
    var i :| 0 <= i < |u[..at][2..]| && u[..at][2..][i] == ']';
    assert u[..at][2..][i] == u[i + 2];
    assert u == "![" + m.caption + ("](image://" + (m.id + ")"));
  }

  lemma JoinedClean(t: string, f: string, ids: set<string>)
    requires NoMatches(t) && AllClosed(t)
    ensures NoDisallowed(t + f, ids) <==> NoDisallowed(f, ids) && !(exists m, at: nat :: Splits(t, f, ids, m, at))
  {
    hide MatchHere, NoMatches, AllClosed;
    if NoDisallowed(t + f, ids) {
      assert t + f + "" == t + f;
      PartOf(t, f, "", ids);
      forall m, at: nat | Splits(t, f, ids, m, at) ensures false {
        var j := |t| - at;
        assert (t + f)[j..] == m.Text()[..at] + f;
        PrefixIff(m.Text()[..at], m.Text()[at..], (t + f)[j..]);
        assert m.Text() == m.Text()[..at] + m.Text()[at..];
        PrefixIsMatch((t + f)[j..], Exactly36, m);
      }
    } else {
      var j :| 0 <= j <= |t + f| && MatchHere((t + f)[j..], Exactly36).Some?
        && !Allowed(MatchHere((t + f)[j..], Exactly36).value, ids);
      if j < |t| { Cut(t, f, ids, j); } else { assert (t + f)[j..] == f[j - |t|..]; }
    }
  }

  lemma {:induction false} FusesIff(d: Doc, ids: set<string>)
    requires QuietDoc(d, Exactly36)
    ensures Fuses(d, ids) <==> !NoFusion(Erase(d, ids), ids)
  {
    hide MatchHere, Quiet, NoMatches, AllClosed, NoDisallowed, Splits;
    QuietRun(d.text, d.More?);
    NoMatchesClean(d.text, ids);
    if d.More? {
      FusesIff(d.rest, ids);
      FollowingErased(d.rest, ids);
      if !Allowed(d.marker, ids) { JoinedClean(d.text, Following(d.rest, ids), ids); }
    }
  }

  /**
   One pass is final, and then leaves no disallowed marker at all, exactly if in the text no plain run
   ending in the beginning of a disallowed marker is followed, across markers to be erased only, by the
   rest of it. The beginning is a lone `!`, or the caption in its brackets with any part of what follows.
   */
  lemma StripIdempotentIff(s: string, ids: set<string>)
    ensures Strip(Strip(s, ids), ids) == Strip(s, ids) <==> !Fuses(Parse(s, Exactly36), ids)
    ensures Strip(Strip(s, ids), ids) == Strip(s, ids) <==> NoDisallowed(Strip(s, ids), ids)
  {
    hide MatchHere;
    ParseQuiet(s, Exactly36);
    FusesIff(Parse(s, Exactly36), ids);
    FinalIff(s, ids);
  }

  // ----- markers on their own line never fuse -----

  predicate NewlineAfter(d: Doc) {
    if d.text != "" then d.text[0] == '\n' else d.End?
  }

  /** Every erased marker has a newline or the text's edge on at least one side. */
  predicate OwnLines(d: Doc, ids: set<string>, atStart: bool) {
    d.More? ==>
      && (Allowed(d.marker, ids) || NewlineAfter(d.rest) || (if d.text != "" then d.text[|d.text| - 1] == '\n' else atStart))
      && OwnLines(d.rest, ids, false)
  }

  ghost predicate NoMatches(s: string) {
    forall j | 0 <= j <= |s| :: MatchHere(s[j..], Exactly36).None?
  }

  ghost predicate AllClosed(s: string) {
    forall j | 0 <= j <= |s| :: !OpenTail(s[j..])
  }

  lemma {:induction false} QuietRun(t: string, before: bool)
    requires Quiet(t, before, Exactly36)
    ensures NoMatches(t) && (before ==> AllClosed(t))
  {
    if t != "" {
      QuietRun(t[1..], before);
      forall j | 0 <= j <= |t| ensures MatchHere(t[j..], Exactly36).None? && (before ==> !OpenTail(t[j..])) {
        if j == 0 { assert t[0..] == t; } else { assert t[j..] == t[1..][j - 1..]; }
      }
    }
  }

  /** Gluing two harmless runs at a newline makes no marker. */
  lemma Glue(x: string, y: string)
    requires NoMatches(x) && AllClosed(x) && NoMatches(y)
    requires x == "" || y == "" || x[|x| - 1] == '\n' || y[0] == '\n'
    ensures NoMatches(x + y)
    ensures AllClosed(y) ==> AllClosed(x + y)
  {
    hide MatchHere;
    forall j | 0 <= j <= |x + y|
      ensures MatchHere((x + y)[j..], Exactly36).None?
      ensures AllClosed(y) ==> !OpenTail((x + y)[j..])
    {
      if |x| <= j {
        assert (x + y)[j..] == y[j - |x|..];
      } else {
        assert (x + y)[j..] == x[j..] + y;
        GlueAt(x[j..], y);
      }
    }
  }

  lemma GlueAt(x: string, y: string)
    requires x != "" && MatchHere(x, Exactly36).None? && !OpenTail(x)
    requires y == "" || x[|x| - 1] == '\n' || y[0] == '\n'
    ensures MatchHere(x + y, Exactly36).None? && !OpenTail(x + y)
  {
    var s := x + y;
    if y == "" {
      assert s == x;
    } else if |x| == 1 {
      assert s[0] == x[0] && s[1] == y[0];
    } else {
      assert "![" <= s ==> "![" <= x;
      assert s[2..] == x[2..] + y;
      if MatchHere(s, Exactly36).Some? {
        var m := MatchHere(s, Exactly36).value;
        MatchIsPrefix(s, Exactly36, m);
        if |m.Text()| <= |x| {
          PrefixIsMatch(x, Exactly36, m);
        } else {
          CloseInside(x, y, m);
        }
      }
    }
  }

  lemma CloseInside(x: string, y: string, m: Marker)
    requires |x| >= 2 && m.Valid(Exactly36) && m.Text() <= x + y && |x| < |m.Text()| && ']' in x[2..]
    ensures y != "" && x[|x| - 1] != '\n' && y[0] != '\n'
  {
    var i :| 0 <= i < |x[2..]| && x[2..][i] == ']';
    assert m.Text()[i + 2] == (x + y)[i + 2] == ']';
    var z := "](image://" + m.id + ")";
    assert m.Text() == ("![" + m.caption) + z;
    assert 2 + |m.caption| <= i + 2 <= |x| - 1;
    NoNewline(m, |x| - 1);
    NoNewline(m, |x|);
    assert m.Text()[|x| - 1] == (x + y)[|x| - 1] && m.Text()[|x|] == (x + y)[|x|];
  }

  lemma NoNewline(m: Marker, o: nat)
    requires IsIdRun(m.id) && 2 + |m.caption| <= o < |m.Text()|
    ensures m.Text()[o] != '\n'
  {}

  lemma NoMatchesClean(x: string, ids: set<string>)
    requires NoMatches(x)
    ensures NoDisallowed(x, ids)
  {}

  lemma {:induction false} OwnLinesNoFusion(x: string, d: Doc, ids: set<string>)
    requires QuietDoc(d, Exactly36) && OwnLines(d, ids, x == "")
    requires NoMatches(x) && AllClosed(x)
    requires x == "" || x[|x| - 1] == '\n' || NewlineAfter(d)
    ensures NoFusion(Join(x, Erase(d, ids)), ids)
    decreases d
  {
    hide NoMatches, AllClosed, NoDisallowed, Quiet;
    QuietRun(d.text, d.More?);
    Glue(x, d.text);
    var y := x + d.text;
    NoMatchesClean(y, ids);
    if d.More? {
      if Allowed(d.marker, ids) {
        EmptyRun();
        OwnLinesWeaken(d.rest, ids);
        OwnLinesNoFusion("", d.rest, ids);
        assert Join("", Erase(d.rest, ids)) == Erase(d.rest, ids);
      } else {
        if y == "" { OwnLinesWeaken(d.rest, ids); }
        OwnLinesNoFusion(y, d.rest, ids);
        assert x + (d.text + Erase(d.rest, ids).text) == y + Erase(d.rest, ids).text;
      }
    }
  }

  lemma EmptyRun()
    ensures NoMatches("") && AllClosed("")
  {}

  lemma OwnLinesWeaken(d: Doc, ids: set<string>)
    requires OwnLines(d, ids, false)
    ensures OwnLines(d, ids, true)
  {}

  /** Markers kept on their own line: one pass removes every disallowed marker, a second does nothing. */
  lemma OwnLinesIdempotent(s: string, ids: set<string>)
    requires OwnLines(Parse(s, Exactly36), ids, true)
    ensures NoDisallowed(Strip(s, ids), ids)
    ensures Strip(Strip(s, ids), ids) == Strip(s, ids)
  {
    hide MatchHere;
    ParseQuiet(s, Exactly36);
    EmptyRun();
    OwnLinesNoFusion("", Parse(s, Exactly36), ids);
    var d := Erase(Parse(s, Exactly36), ids);
    assert Join("", d) == d;
    FinalIff(s, ids);
  }

  lemma FusionDocument(id1: string, tail: string)
    requires Marker("", id1).Valid(Exactly36) && '!' !in tail
    ensures Parse("![a]" + Marker("", id1).Text() + tail, Exactly36) == More("![a]", Marker("", id1), End(tail))
  {
    var d := More("![a]", Marker("", id1), End(tail));
    NoBangQuiet(tail, false);
    NoBangQuiet("[a]", true);
    assert "![a]"[1..] == "[a]" && "![a]"[2..] == "a]" && "a]"[1..] == "]";
    assert MatchHere("![a]", Exactly36).None?;
    assert Quiet("![a]", true, Exactly36);
    hide MatchHere;
    ParseRender(d, Exactly36);
  }

  lemma StripWhole(m: Marker, ids: set<string>)
    requires m.Valid(Exactly36) && !Allowed(m, ids)
    ensures Strip(m.Text(), ids) == ""
  {
    hide MatchHere;
    PrefixIsMatch(m.Text(), Exactly36, m);
    StripStep(m.Text(), ids, m);
    assert m.Text()[|m.Text()|..] == "";
  }

  /** In general it fails: erasing one invented marker can fuse its neighbours into another. */
  lemma FusionExample(id1: string, id2: string, ids: set<string>)
    requires Marker("", id1).Valid(Exactly36) && Marker("", id2).Valid(Exactly36)
    requires !Allowed(Marker("", id1), ids) && !Allowed(Marker("", id2), ids)
    ensures var s := "![a]" + Marker("", id1).Text() + "(image://" + id2 + ")";
            Strip(s, ids) == Marker("a", id2).Text() && Strip(Strip(s, ids), ids) == ""
  {
    hide MatchHere, Parse;
    var tail := "(image://" + id2 + ")";
    var s := "![a]" + Marker("", id1).Text() + "(image://" + id2 + ")";
    assert s == "![a]" + Marker("", id1).Text() + tail;
    FusionDocument(id1, tail);
    assert Erase(Parse(s, Exactly36), ids) == End("![a]" + tail);
    assert "![a]" + tail == Marker("a", id2).Text();
    StripWhole(Marker("a", id2), ids);
  }

  lemma {:induction false} NoBangQuiet(t: string, before: bool)
    requires '!' !in t
    ensures Quiet(t, before, Exactly36)
  {
    if t != "" {
      assert t[0] in t && forall c | c in t[1..] :: c in t;
      NoBangQuiet(t[1..], before);
    }
  }

  // ----- whose markers are kept -----

  /** `id` is `own` but for hexadecimal letters written in upper case. */
  predicate SameId(id: string, own: string) {
    |id| == |own| && forall i | 0 <= i < |id| ::
      id[i] == own[i] || ('A' <= id[i] <= 'F' && own[i] as int == id[i] as int + 32)
  }

  /** Ids as the source's images have them. */
  ghost predicate LowerCase(ids: set<string>) {
    forall own, i | own in ids && 0 <= i < |own| :: !('A' <= own[i] <= 'F')
  }

  lemma LowerIs(id: string, own: string)
    requires forall i | 0 <= i < |own| :: !('A' <= own[i] <= 'F')
    ensures Lower(id) == own <==> SameId(id, own)
  {
    if Lower(id) == own {
      forall i | 0 <= i < |id| ensures id[i] == own[i] || ('A' <= id[i] <= 'F' && own[i] as int == id[i] as int + 32) {
        assert own[i] == Lower(id)[i];
      }
    }
    if SameId(id, own) {
      assert |Lower(id)| == |own| && forall i | 0 <= i < |id| :: Lower(id)[i] == own[i];
    }
  }

  /** A marker is kept exactly if its id is one of the source's, whatever the case of its letters. */
  lemma AllowedIff(m: Marker, ids: set<string>)
    requires LowerCase(ids)
    ensures Allowed(m, ids) <==> exists own :: own in ids && SameId(m.id, own)
  {
    hide Lower, SameId;
    if Allowed(m, ids) {
      LowerIs(m.id, Lower(m.id));
    }
    if own :| own in ids && SameId(m.id, own) { LowerIs(m.id, own); }
  }

  lemma Whole(s: string)
    ensures s[0..] == s && s[|s|..] == ""
  {}

  /** A text in which every marker, wherever it starts, bears an id of the source is returned as it is, and nothing is counted. */
  lemma OwnMarkersStay(s: string, ids: set<string>)
    requires LowerCase(ids)
    requires forall j, m: Marker | 0 <= j <= |s| && m.Valid(Exactly36) && m.Text() <= s[j..] :: exists own :: own in ids && SameId(m.id, own)
    ensures StripContent(s, ids) == s && DroppedIn(Some(s), ids) == 0
  {
    hide MatchHere, SameId, LowerCase;
    forall j | 0 <= j <= |s| && MatchHere(s[j..], Exactly36).Some? ensures Allowed(MatchHere(s[j..], Exactly36).value, ids) {
      var m := MatchHere(s[j..], Exactly36).value;
      MatchIsPrefix(s[j..], Exactly36, m);
      AllowedIff(m, ids);
    }
    StripFixedIff(s, ids);
    FastPathExact(s, ids);
    DroppedZeroIff(s, ids);
  }

  /** A bare marker of one of the source's images stays, in either case of its letters. */
  lemma OwnMarkerStays(m: Marker, own: string, ids: set<string>)
    requires LowerCase(ids) && own in ids && SameId(m.id, own) && m.Valid(Exactly36)
    ensures Strip(m.Text(), ids) == m.Text() && StripContent(m.Text(), ids) == m.Text() && DroppedIn(Some(m.Text()), ids) == 0
  {
    hide MatchHere, SameId, LowerCase;
    AllowedIff(m, ids);
    PrefixIsMatch(m.Text(), Exactly36, m);
    StripStep(m.Text(), ids, m);
    Whole(m.Text());
    StripNothing(ids);
    assert m.Text() + "" == m.Text();
    FastPathExact(m.Text(), ids);
    DroppedZeroIff(m.Text(), ids);
  }

  /** One with any other id goes, and is counted once. */
  lemma InventedMarkerGoes(m: Marker, ids: set<string>)
    requires LowerCase(ids) && m.Valid(Exactly36) && !exists own :: own in ids && SameId(m.id, own)
    ensures Strip(m.Text(), ids) == "" && StripContent(m.Text(), ids) == "" && DroppedIn(Some(m.Text()), ids) == 1
  {
    hide MatchHere, SameId, LowerCase, Marker.Text;
    var s := m.Text();
    AllowedIff(m, ids);
    StripWhole(m, ids);
    FastPathExact(s, ids);
    PrefixIsMatch(s, Exactly36, m);
    MatchIsPrefix(s, Exactly36, m);
    Whole(s);
    BoundaryStart(s);
    EndsStart(s, ids);
    EndsOverMatch(s, ids, 0, m);
    EndsPast(s, ids);
  }

  // ----- the operation list of the single-shot compiler -----

  /** The two text fields of a compiler operation; None where the key is absent or not a text. */
  datatype OpTexts = OpTexts(content: Option<string>, newContent: Option<string>)

  /** A field is present afterwards exactly if it was, and its text has been rewritten. */
  predicate Rewritten(f: Option<string>, g: Option<string>, ids: set<string>) {
    match f
    case None => g.None?
    case Some(s) => g == Some(StripContent(s, ids))
  }

  /** Some disallowed marker ends right before position `e`. */
  predicate EndsAt(s: string, ids: set<string>, e: nat) {
    exists j | 0 <= j <= |s| :: EndsFrom(s, ids, j, e)
  }

  predicate EndsFrom(s: string, ids: set<string>, j: nat, e: nat)
    requires j <= |s|
  {
    match MatchHere(s[j..], Exactly36)
    case None => false
    case Some(m) => !Allowed(m, ids) && j + |m.Text()| == e
  }

  /** The number of places from `e` on where a disallowed marker ends. */
  function Ends(s: string, ids: set<string>, e: nat): nat
    decreases |s| + 1 - e
  {
    if e > |s| then 0 else (if EndsAt(s, ids, e) then 1 else 0) + Ends(s, ids, e + 1)
  }

  function DroppedIn(f: Option<string>, ids: set<string>): nat {
    match f
    case None => 0
    case Some(s) => Ends(s, ids, 0)
  }

  /** The places of a field where a disallowed marker ends. */
  ghost function EndPlaces(f: Option<string>, ids: set<string>): set<nat> {
    set e: nat | f.Some? && e <= |f.value| && EndsAt(f.value, ids, e)
  }

  /** The places of all fields, by operation, field and position. */
  ghost function Places(ops: seq<OpTexts>, ids: set<string>): set<(nat, bool, nat)> {
    set k: nat, b: bool, e: nat | k < |ops| && e in EndPlaces(if b then ops[k].newContent else ops[k].content, ids) :: (k, b, e)
  }

  lemma {:induction false} EndsCount(s: string, ids: set<string>, from: nat)
    ensures Ends(s, ids, from) == |set e: nat | from <= e <= |s| && EndsAt(s, ids, e)|
    decreases |s| + 1 - from
  {
    hide EndsAt;
    var ends := set e: nat | from <= e <= |s| && EndsAt(s, ids, e);
    if from > |s| {
      assert ends == {};
    } else {
      EndsCount(s, ids, from + 1);
      var rest := set e: nat | from + 1 <= e <= |s| && EndsAt(s, ids, e);
      assert ends == rest + (if EndsAt(s, ids, from) then {from} else {});
    }
  }

  lemma DroppedInCounts(f: Option<string>, ids: set<string>)
    ensures DroppedIn(f, ids) == |EndPlaces(f, ids)|
  {
    hide EndsAt;
    if f.Some? {
      EndsCount(f.value, ids, 0);
      assert EndPlaces(f, ids) == set e: nat | 0 <= e <= |f.value| && EndsAt(f.value, ids, e);
    } else {
      assert EndPlaces(f, ids) == {};
    }
  }

  ghost function Tagged(k: nat, b: bool, ends: set<nat>): set<(nat, bool, nat)> {
    set e | e in ends :: (k, b, e)
  }

  lemma {:induction false} TagKeepsSize(k: nat, b: bool, ends: set<nat>)
    ensures |Tagged(k, b, ends)| == |ends|
  {
    if ends == {} {
      assert Tagged(k, b, ends) == {};
    } else {
      var e :| e in ends;
      TagKeepsSize(k, b, ends - {e});
      assert Tagged(k, b, ends) == Tagged(k, b, ends - {e}) + {(k, b, e)};
    }
  }

  lemma NoPlaces(ids: set<string>)
    ensures |Places([], ids)| == 0
  {
    assert Places([], ids) == {};
  }

  lemma PlacesWith(ops: seq<OpTexts>, op: OpTexts, ids: set<string>)
    ensures Places(ops + [op], ids) ==
            Places(ops, ids) + Tagged(|ops|, false, EndPlaces(op.content, ids)) + Tagged(|ops|, true, EndPlaces(op.newContent, ids))
  {
    hide EndPlaces;
  }

  lemma PlacesApart(ops: seq<OpTexts>, op: OpTexts, ids: set<string>)
    ensures var one, two := Tagged(|ops|, false, EndPlaces(op.content, ids)), Tagged(|ops|, true, EndPlaces(op.newContent, ids));
            Places(ops, ids) !! one && (Places(ops, ids) + one) !! two
  {
    hide EndPlaces;
  }

  lemma PlacesSnoc(ops: seq<OpTexts>, op: OpTexts, ids: set<string>)
    ensures |Places(ops + [op], ids)| == |Places(ops, ids)| + |EndPlaces(op.content, ids)| + |EndPlaces(op.newContent, ids)|
  {
    hide EndPlaces, Places, Tagged;
    TagKeepsSize(|ops|, false, EndPlaces(op.content, ids));
    TagKeepsSize(|ops|, true, EndPlaces(op.newContent, ids));
    PlacesWith(ops, op, ids);
    PlacesApart(ops, op, ids);
  }

  lemma {:induction false} EndsNone(s: string, ids: set<string>, from: nat, till: nat)
    requires from <= till <= |s| + 1 && forall e: nat | from <= e < till :: !EndsAt(s, ids, e)
    ensures Ends(s, ids, from) == Ends(s, ids, till)
    decreases till - from
  {
    hide EndsAt;
    if from < till { EndsNone(s, ids, from + 1, till); }
  }

  lemma EndsStep(s: string, ids: set<string>, e: nat)
    requires e <= |s|
    ensures Ends(s, ids, e) == (if EndsAt(s, ids, e) then 1 else 0) + Ends(s, ids, e + 1)
  {
    hide EndsAt;
  }

  lemma EndsInMatch(s: string, ids: set<string>, i: nat, m: Marker, e: nat)
    requires i <= |s| && Boundary(s, i) && MatchHere(s[i..], Exactly36) == Some(m)
    requires i < e <= i + |m.Text()|
    ensures EndsAt(s, ids, e) <==> e == i + |m.Text()| && !Allowed(m, ids)
  {
    hide MatchHere, Lower;
    if EndsAt(s, ids, e) {
      var j: nat :| 0 <= j <= |s| && EndsFrom(s, ids, j, e);
      if i <= j { OverlapShareEnd(s, Exactly36, i, j, m, MatchHere(s[j..], Exactly36).value); }
    } else {
      assert !EndsFrom(s, ids, i, e);
    }
  }

  /** Over a match exactly one end is passed, and only if the marker is disallowed. */
  lemma EndsOverMatch(s: string, ids: set<string>, i: nat, m: Marker)
    requires i <= |s| && Boundary(s, i) && MatchHere(s[i..], Exactly36) == Some(m) && i < i + |m.Text()| <= |s|
    ensures Ends(s, ids, i + 1) == (if Allowed(m, ids) then 0 else 1) + Ends(s, ids, i + |m.Text()| + 1)
  {
    hide *;
    var last := i + |m.Text()|;
    forall e: nat | i < e <= last ensures EndsAt(s, ids, e) <==> e == last && !Allowed(m, ids) {
      EndsInMatch(s, ids, i, m, e);
    }
    EndsOverSpan(s, ids, i, last, !Allowed(m, ids));
  }

  lemma EndsOverSpan(s: string, ids: set<string>, i: nat, last: nat, hit: bool)
    requires i < last <= |s| && EndsAt(s, ids, last) == hit
    requires forall e: nat | i < e < last :: !EndsAt(s, ids, e)
    ensures Ends(s, ids, i + 1) == (if hit then 1 else 0) + Ends(s, ids, last + 1)
  {
    hide EndsAt, Ends;
    EndsNone(s, ids, i + 1, last);
    EndsStep(s, ids, last);
  }

  /** Where no marker starts none ends one character on. */
  lemma EndsOverChar(s: string, ids: set<string>, i: nat)
    requires i < |s| && Boundary(s, i) && MatchHere(s[i..], Exactly36).None?
    ensures Ends(s, ids, i + 1) == Ends(s, ids, i + 2)
  {
    hide MatchHere;
  }

  lemma EndsNowhere(s: string, ids: set<string>)
    requires !Contains(s, "image://")
    ensures Ends(s, ids, 0) == 0
  {
    hide MatchHere;
    forall e: nat | e <= |s| ensures !EndsAt(s, ids, e) {
      if EndsAt(s, ids, e) {
        var j: nat :| 0 <= j <= |s| && EndsFrom(s, ids, j, e);
        MatchNeedsImage(s, j);
      }
    }
    hide EndsAt;
    EndsNone(s, ids, 0, |s| + 1);
  }

  lemma EndsStart(s: string, ids: set<string>)
    ensures Ends(s, ids, 0) == Ends(s, ids, 1)
  {
    hide MatchHere;
  }

  lemma StripChar(s: string, ids: set<string>)
    requires s != "" && MatchHere(s, Exactly36).None?
    ensures Strip(s, ids) == [s[0]] + Strip(s[1..], ids)
  {
    hide MatchHere;
    EraseJoin([s[0]], Parse(s[1..], Exactly36), ids);
    RenderJoin([s[0]], Erase(Parse(s[1..], Exactly36), ids));
  }

  /**
   The compiler's own rewriter: one pass of `re.sub` with a callback that counts. It returns what the
   agent's rewriter returns, and its count is the number of places where a disallowed marker ends.
   */
  method SanitizeField(f: Option<string>, ids: set<string>) returns (g: Option<string>, dropped: nat)
    ensures Rewritten(f, g, ids) && dropped == |EndPlaces(f, ids)|
  {
    hide MatchHere, Parse, Erase, Strip, Ends, Contains, Boundary, Lower;
    g, dropped := f, 0;
    DroppedInCounts(f, ids);
    if f.None? { return; }
    var s := f.value;
    if !Contains(s, "image://") {
      EndsNowhere(s, ids);
      return;
    }
    var out, i := "", 0;
    EndsStart(s, ids);
    assert s[0..] == s;
    BoundaryStart(s);
    while i < |s|
      invariant 0 <= i <= |s| && Boundary(s, i)
      invariant out + Strip(s[i..], ids) == Strip(s, ids)
      invariant dropped + Ends(s, ids, i + 1) == Ends(s, ids, 0)
    {
      var found := MatchHere(s[i..], Exactly36);
      if found.Some? {
        var m := found.value;
        BoundaryAfterMatch(s, i, m);
        EndsOverMatch(s, ids, i, m);
        StripStep(s[i..], ids, m);
        assert s[i..][|m.Text()|..] == s[i + |m.Text()|..];
        if Lower(m.id) in ids { out := out + m.Text(); } else { dropped := dropped + 1; }
        i := i + |m.Text()|;
      } else {
        EndsOverChar(s, ids, i);
        BoundaryAfterChar(s, i);
        StripChar(s[i..], ids);
        assert s[i..][1..] == s[i + 1..];
        out := out + [s[i]];
        i := i + 1;
      }
    }
    assert s[i..] == "";
    StripNothing(ids);
    EndsPast(s, ids);
    assert out + "" == out;
    g := Some(out);
  }

  lemma BoundaryStart(s: string)
    ensures Boundary(s, 0)
  {}

  lemma BoundaryAfterChar(s: string, i: nat)
    requires i < |s| && Boundary(s, i) && MatchHere(s[i..], Exactly36).None?
    ensures Boundary(s, i + 1)
  {
    hide MatchHere;
  }

  lemma StripNothing(ids: set<string>)
    ensures Strip("", ids) == ""
  {}

  lemma EndsPast(s: string, ids: set<string>)
    ensures Ends(s, ids, |s| + 1) == 0
  {}

  /** Rewrites every operation in place and counts every place where it dropped a marker, once. */
  method SanitizeImageMarkers(ops: array<OpTexts>, ids: set<string>) returns (dropped: nat)
    modifies ops
    ensures forall k | 0 <= k < ops.Length ::
              Rewritten(old(ops[k]).content, ops[k].content, ids) && Rewritten(old(ops[k]).newContent, ops[k].newContent, ids)
    ensures dropped == |Places(old(ops[..]), ids)|
  {
    hide Rewritten, EndPlaces, Places;
    dropped := 0;
    var i := 0;
    NoPlaces(ids);
    while i < ops.Length
      invariant 0 <= i <= ops.Length
      invariant forall k | 0 <= k < i ::
                  Rewritten(old(ops[k]).content, ops[k].content, ids) && Rewritten(old(ops[k]).newContent, ops[k].newContent, ids)
      invariant forall k | i <= k < ops.Length :: ops[k] == old(ops[k])
      invariant dropped == |Places(old(ops[..])[..i], ids)|
    {
      ghost var was := old(ops[..]);
      assert was[..i + 1] == was[..i] + [was[i]];
      PlacesSnoc(was[..i], was[i], ids);
      var content, n1 := SanitizeField(ops[i].content, ids);
      var newContent, n2 := SanitizeField(ops[i].newContent, ids);
      ops[i] := OpTexts(content, newContent);
      dropped := dropped + n1 + n2;
      i := i + 1;
    }
    assert old(ops[..])[..i] == old(ops[..]);
  }

  /** The drop count is honest: zero exactly when no text changed. */
  lemma DroppedZeroIff(s: string, ids: set<string>)
    ensures DroppedIn(Some(s), ids) == 0 <==> StripContent(s, ids) == s
  {
    hide MatchHere;
    FastPathExact(s, ids);
    StripFixedIff(s, ids);
    if NoDisallowed(s, ids) {
      assert forall e: nat | e <= |s| :: !EndsAt(s, ids, e);
      EndsNone(s, ids, 0, |s| + 1);
    } else {
      var j :| 0 <= j <= |s| && MatchHere(s[j..], Exactly36).Some? && !Allowed(MatchHere(s[j..], Exactly36).value, ids);
      var m := MatchHere(s[j..], Exactly36).value;
      MatchIsPrefix(s[j..], Exactly36, m);
      assert EndsFrom(s, ids, j, j + |m.Text()|);
      EndsSome(s, ids, 0, j + |m.Text()|);
    }
  }

  lemma {:induction false} EndsSome(s: string, ids: set<string>, from: nat, e: nat)
    requires from <= e <= |s| && EndsAt(s, ids, e)
    ensures Ends(s, ids, from) > 0
    decreases e - from
  {
    hide EndsAt;
    if from < e { EndsSome(s, ids, from + 1, e); }
  }
}
