/**
 Image markers, `![caption](image://id)`, as the worker and both wiki compilers read them.

 Two regular expressions differ only in how long the id may be, so one scanner serves both.
 A text is read into a `Doc`: plain text runs separated by the markers the scan found.
 Caption baking and marker stripping are then maps over that document.
 */
module ImageMarkers {
  import opened Options

  const ID_WIDTH: nat := 36

  /** AnyRun is `[0-9a-fA-F-]+`, Exactly36 is `[0-9a-fA-F-]{36}`. */
  datatype Width = AnyRun | Exactly36 {
    predicate Accepts(n: nat) {
      if AnyRun? then 1 <= n else n == ID_WIDTH
    }
  }

  datatype Marker = Marker(caption: string, id: string) {
    function Text(): string {
      "![" + (caption + ("](image://" + (id + ")")))
    }

    predicate Valid(w: Width) {
      ']' !in caption && IsIdRun(id) && w.Accepts(|id|)
    }
  }

  predicate IsIdChar(c: char) {
    '0' <= c <= '9' || 'a' <= c <= 'f' || 'A' <= c <= 'F' || c == '-'
  }

  predicate IsIdRun(s: string) {
    forall i | 0 <= i < |s| :: IsIdChar(s[i])
  }

  // ----- the scanner -----

  /** Index of the first `]`, or the length when there is none. */
  function FirstClose(s: string): (k: nat)
    ensures k <= |s| && ']' !in s[..k]
    ensures k < |s| ==> s[k] == ']'
  {
    if s == "" || s[0] == ']' then 0
    else
      var k := FirstClose(s[1..]);
      assert s[..k + 1] == [s[0]] + s[1..][..k];
      k + 1
  }

  /** Length of the leading run of id characters. */
  function IdRun(s: string): (n: nat)
    ensures n <= |s| && IsIdRun(s[..n])
    ensures n < |s| ==> !IsIdChar(s[n])
  {
    if s == "" || !IsIdChar(s[0]) then 0
    else
      var n := IdRun(s[1..]);
      assert s[..n + 1] == [s[0]] + s[1..][..n];
      n + 1
  }

  /** The regular expression, tried at the start of `s`. */
  function MatchHere(s: string, w: Width): Option<Marker> {
    if !("![" <= s) then None
    else
      var body := s[2..];
      var k := FirstClose(body);
      if !("](image://" <= body[k..]) then None
      else
        var tail := body[k + 10..];
        var n := IdRun(tail);
        if w.Accepts(n) && n < |tail| && tail[n] == ')' then Some(Marker(body[..k], tail[..n])) else None
  }

  datatype Doc = End(text: string) | More(text: string, marker: Marker, rest: Doc)

  function Join(t: string, d: Doc): Doc {
    d.(text := t + d.text)
  }

  function Render(d: Doc): string {
    match d
    case End(t) => t
    case More(t, m, r) => t + m.Text() + Render(r)
  }

  /** The leftmost, non-overlapping scan of `re.sub`: after a match it resumes behind it. */
  function Parse(s: string, w: Width): Doc {
    if s == "" then End("")
    else
      match MatchHere(s, w)
      case Some(m) => MatchIsPrefix(s, w, m); More("", m, Parse(s[|m.Text()|..], w))
      case None => Join([s[0]], Parse(s[1..], w))
  }

  // ----- what a match is, without the scanner -----

  lemma PrefixIff(p: string, q: string, s: string)
    ensures p + q <= s <==> p <= s && q <= s[|p|..]
  {
    if p <= s { assert s == p + s[|p|..]; }
    if p + q <= s {
      assert p == (p + q)[..|p|] == s[..|p|];
      assert q == (p + q)[|p|..] == s[|p|..][..|q|];
    }
  }

  /** The scanner's own account of a match. */
  lemma MatchParts(s: string, w: Width, m: Marker)
    requires MatchHere(s, w) == Some(m)
    ensures "![" <= s && m.Valid(w)
    ensures var body := s[2..]; var k := |m.caption|;
            && k + 10 <= |body| && m.caption <= body && "](image://" <= body[k..]
            && m.id <= body[k + 10..] && |m.id| < |body[k + 10..]| && body[k + 10..][|m.id|] == ')'
  {
    hide FirstClose, IdRun;
  }

  lemma MatchIsPrefix(s: string, w: Width, m: Marker)
    requires MatchHere(s, w) == Some(m)
    ensures m.Valid(w) && m.Text() <= s && |m.Text()| > 0
  {
    hide MatchHere, FirstClose, IdRun;
    MatchParts(s, w, m);
    var body, k := s[2..], |m.caption|;
    var tail := body[k + 10..];
    assert body[k..][10..] == tail;
    assert ")" <= tail[|m.id|..];
    PrefixIff(m.id, ")", tail);
    PrefixIff("](image://", m.id + ")", body[k..]);
    PrefixIff(m.caption, "](image://" + (m.id + ")"), body);
    PrefixIff("![", m.caption + ("](image://" + (m.id + ")")), s);
  }

  lemma MatchBy(s: string, w: Width, k: nat, n: nat)
    requires "![" <= s && FirstClose(s[2..]) == k && "](image://" <= s[2..][k..]
    requires IdRun(s[2..][k + 10..]) == n < |s[2..][k + 10..]| && s[2..][k + 10..][n] == ')' && w.Accepts(n)
    ensures MatchHere(s, w) == Some(Marker(s[2..][..k], s[2..][k + 10..][..n]))
  {}

  lemma PrefixIsMatch(s: string, w: Width, m: Marker)
    requires m.Valid(w) && m.Text() <= s
    ensures MatchHere(s, w) == Some(m)
  {
    hide MatchHere, FirstClose, IdRun;
    var body := s[2..];
    var k := |m.caption|;
    PrefixIff("![", m.caption + ("](image://" + (m.id + ")")), s);
    PrefixIff(m.caption, "](image://" + (m.id + ")"), body);
    PrefixIff("](image://", m.id + ")", body[k..]);
    var tail := body[k + 10..];
    assert body[k..][10..] == tail;
    PrefixIff(m.id, ")", tail);
    assert m.caption == body[..k] && body[k] == body[k..][0] == ']';
    assert m.id == tail[..|m.id|] && tail[|m.id|] == tail[|m.id|..][0] == ')';
    FirstCloseAfter(body, k);
    IdRunBefore(tail, |m.id|);
    MatchBy(s, w, k, |m.id|);
  }

  lemma {:induction false} FirstCloseAfter(s: string, k: nat)
    requires k < |s| && s[k] == ']' && ']' !in s[..k]
    ensures FirstClose(s) == k
  {
    if k > 0 {
      assert s[..k][0] == s[0] && s[..k][1..] == s[1..][..k - 1];
      FirstCloseAfter(s[1..], k - 1);
    }
  }

  lemma {:induction false} IdRunBefore(s: string, n: nat)
    requires n < |s| && IsIdRun(s[..n]) && !IsIdChar(s[n])
    ensures IdRun(s) == n
  {
    if n > 0 {
      assert s[..n][0] == s[0] && s[..n][1..] == s[1..][..n - 1];
      IdRunBefore(s[1..], n - 1);
    }
  }

  /** The regular expression as it is written, in one line: a caption without `]`, and hexadecimal digits and hyphens. */
  ghost predicate Begins(s: string, w: Width, caption: string, id: string) {
    && "![" + caption + "](image://" + id + ")" <= s
    && ']' !in caption
    && (forall c | c in id :: c in {'0', '1', '2', '3', '4', '5', '6', '7', '8', '9'}
                           || c in {'a', 'b', 'c', 'd', 'e', 'f'} || c in {'A', 'B', 'C', 'D', 'E', 'F'} || c == '-')
    && match w
       case AnyRun => id != ""
       case Exactly36 => |id| == 36
  }

  lemma ValidIff(w: Width, m: Marker)
    ensures m.Valid(w) <==> Begins(m.Text(), w, m.caption, m.id)
  {
    assert m.Text() == "![" + m.caption + "](image://" + m.id + ")";
    assert forall i | 0 <= i < |m.id| :: m.id[i] in m.id;
  }

  /** The scanner finds a marker at the start of a text exactly when the text begins with one. */
  lemma MatchIff(s: string, w: Width, m: Marker)
    ensures MatchHere(s, w) == Some(m) <==> Begins(s, w, m.caption, m.id)
  {
    ValidIff(w, m);
    assert m.Text() == "![" + m.caption + "](image://" + m.id + ")";
    hide MatchHere;
    if MatchHere(s, w) == Some(m) { MatchIsPrefix(s, w, m); }
    if m.Valid(w) && m.Text() <= s { PrefixIsMatch(s, w, m); }
  }

  /** Two occurrences that overlap are one marker seen from two `![`: same id, same end. */
  lemma OverlapShareEnd(s: string, w: Width, a: nat, b: nat, m: Marker, n: Marker)
    requires a <= b <= |s| && b < a + |m.Text()|
    requires MatchHere(s[a..], w) == Some(m) && MatchHere(s[b..], w) == Some(n)
    ensures n.id == m.id && b + |n.Text()| == a + |m.Text()|
  {
    hide MatchHere;
    MatchIsPrefix(s[a..], w, m);
    assert s[b..] == s[a..][b - a..];
    if a < b { InnerMatch(s[a..], w, b - a, m, n); }
  }

  lemma InnerMatch(s: string, w: Width, o: nat, m: Marker, n: Marker)
    requires 0 < o < |m.Text()| && m.Valid(w) && m.Text() <= s
    requires MatchHere(s[o..], w) == Some(n)
    ensures o <= |m.caption| && n == Marker(m.caption[o..], m.id)
  {
    hide MatchHere;
    MatchIsPrefix(s[o..], w, n);
    var t := m.Text();
    var u := n.Text();
    assert u[0] == s[o..][0] == s[o] == t[o];
    NoBang(m, o);
    assert u[1] == s[o..][1] == s[o + 1];
    assert o + 1 < |t| && t[o + 1] == s[o + 1] == '[';
    InnerText(m, o);
    var inner := Marker(m.caption[o..], m.id);
    assert inner.Text() <= s[o..];
    PrefixIsMatch(s[o..], w, inner);
  }

  lemma InnerText(m: Marker, o: nat)
    requires 2 <= o < 2 + |m.caption| && m.Text()[o] == '!' && m.Text()[o + 1] == '['
    ensures o <= |m.caption| && m.Text()[o..] == Marker(m.caption[o..], m.id).Text()
  {
    var z := "](image://" + (m.id + ")");
    assert m.Text() == "![" + m.caption + z;
    assert z[0] == ']';
    assert m.caption[o - 2..] == "![" + m.caption[o..];
    assert m.Text()[o..] == m.caption[o - 2..] + z;
  }

  lemma NoBang(m: Marker, o: nat)
    requires IsIdRun(m.id) && 0 < o < |m.Text()| && m.Text()[o] == '!'
    ensures 2 <= o < 2 + |m.caption|
  {}

  // ----- normal form: reading back what was rendered -----

  /** An opened `![` that nothing in `t` closes: a marker put behind it would be swallowed. */
  predicate OpenTail(t: string) {
    "![" <= t && ']' !in t[2..]
  }

  predicate StartsNothing(t: string, beforeMarker: bool, w: Width) {
    MatchHere(t, w).None? && !(beforeMarker && OpenTail(t))
  }

  predicate Quiet(t: string, beforeMarker: bool, w: Width) {
    t == "" || (StartsNothing(t, beforeMarker, w) && Quiet(t[1..], beforeMarker, w))
  }

  /** The documents a scan can produce. Captions play no part beyond having no `]`. */
  predicate QuietDoc(d: Doc, w: Width) {
    match d
    case End(t) => Quiet(t, false, w)
    case More(t, m, r) => Quiet(t, true, w) && m.Valid(w) && QuietDoc(r, w)
  }

  lemma {:induction false} RenderParse(s: string, w: Width)
    ensures Render(Parse(s, w)) == s
    decreases |s|
  {
    hide MatchHere;
    if s != "" {
      match MatchHere(s, w)
      case Some(m) =>
        MatchIsPrefix(s, w, m);
        RenderParse(s[|m.Text()|..], w);
        assert "" + m.Text() + s[|m.Text()|..] == s;
      case None =>
        RenderParse(s[1..], w);
        RenderJoin([s[0]], Parse(s[1..], w));
    }
  }

  lemma RenderJoin(t: string, d: Doc)
    ensures Render(Join(t, d)) == t + Render(d)
  {
    match d
    case End(_) =>
    case More(u, m, r) => assert t + u + m.Text() + Render(r) == t + (u + m.Text() + Render(r));
  }

  /** Text that starts nothing before one marker starts nothing before any marker. */
  lemma NoStraddle(t: string, m: Marker, z: string, w: Width)
    requires t != "" && StartsNothing(t, true, w) && m.Valid(w)
    ensures MatchHere(t + m.Text() + z, w).None?
  {
    hide MatchHere;
    var s := t + m.Text() + z;
    if MatchHere(s, w).Some? {
      var n := MatchHere(s, w).value;
      MatchIsPrefix(s, w, n);
      var u := n.Text();
      if |u| <= |t| {
        assert u <= t;
        PrefixIsMatch(t, w, n);
      } else {
        assert u[|t|] == s[|t|] == '!';
        CutInCaption(n, t);
      }
    }
  }

  /** A marker cut at an inner `!` leaves its bracket open. */
  lemma CutInCaption(n: Marker, t: string)
    requires IsIdRun(n.id) && ']' !in n.caption
    requires t != "" && |t| < |n.Text()| && t <= n.Text() && n.Text()[|t|] == '!'
    ensures OpenTail(t)
  {
    NoBang(n, |t|);
    assert t == n.Text()[..|t|];
    assert t[2..] == n.caption[..|t| - 2];
  }

  lemma {:induction false} ParseQuiet(s: string, w: Width)
    ensures QuietDoc(Parse(s, w), w)
    decreases |s|
  {
    if s != "" {
      match MatchHere(s, w)
      case Some(m) =>
        MatchIsPrefix(s, w, m);
        ParseQuiet(s[|m.Text()|..], w);
      case None =>
        ParseQuiet(s[1..], w);
        RenderParse(s, w);
        var d := Parse(s, w);
        assert d.text[1..] == Parse(s[1..], w).text;
        if d.More? {
          NoStart(s, d.text, d.marker, Render(d.rest), w);
        }
    }
  }

  lemma NoStart(s: string, t: string, m: Marker, z: string, w: Width)
    requires s == t + m.Text() + z && t != "" && m.Valid(w) && MatchHere(s, w).None?
    ensures StartsNothing(t, true, w)
  {
    hide MatchHere;
    if MatchHere(t, w).Some? {
      MatchIsPrefix(t, w, MatchHere(t, w).value);
      PrefixIsMatch(s, w, MatchHere(t, w).value);
    } else if OpenTail(t) {
      var n := Marker(t[2..] + "![" + m.caption, m.id);
      assert t == "![" + t[2..];
      assert n.Text() == t + m.Text();
      PrefixIsMatch(s, w, n);
    }
  }

  /** Reading back a rendered document gives the document, as long as its plain text is quiet. */
  lemma {:induction false} ParseRender(d: Doc, w: Width)
    requires QuietDoc(d, w)
    ensures Parse(Render(d), w) == d
    decreases |Render(d)|
  {
    hide MatchHere;
    var s := Render(d);
    if d.text == "" {
      if d.More? {
        assert s == d.marker.Text() + Render(d.rest);
        PrefixIsMatch(s, w, d.marker);
        assert s[|d.marker.Text()|..] == Render(d.rest);
        ParseRender(d.rest, w);
      }
    } else {
      if d.More? { NoStraddle(d.text, d.marker, Render(d.rest), w); }
      var e := d.(text := d.text[1..]);
      assert s[1..] == Render(e);
      ParseRender(e, w);
      assert [s[0]] + e.text == d.text;
    }
  }
}
