/**
 Caption baking: the last step of `caption_images_task` rewrites every image marker of a
 source's full text with the caption stored for its id.
 */
module CaptionBaking {
  import opened ImageMarkers

  type Captions = map<string, string>

  function CaptionFor(c: Captions, id: string): string {
    if id in c then c[id] else ""
  }

  function Recaption(c: Captions, d: Doc): Doc {
    match d
    case End(t) => d
    case More(t, m, r) => More(t, Marker(CaptionFor(c, m.id), m.id), Recaption(c, r))
  }

  function Substitute(c: Captions, s: string): string {
    Render(Recaption(c, Parse(s, AnyRun)))
  }

  /** The guard: no text or no image rows, no rewriting. */
  function Bake(c: Captions, s: string): string {
    if s == "" || c == map[] then s else Substitute(c, s)
  }

  /** No caption that a marker can pick up closes the bracket it is written into. */
  ghost predicate Closed(c: Captions) {
    forall id | id in c && IsIdRun(id) && id != "" :: ']' !in c[id]
  }

  // ----- what one pass leaves -----

  lemma {:induction false} RecaptionQuiet(c: Captions, d: Doc)
    requires Closed(c) && QuietDoc(d, AnyRun)
    ensures QuietDoc(Recaption(c, d), AnyRun)
  {
    if d.More? { RecaptionQuiet(c, d.rest); }
  }

  /** A baked text parses to the same plain runs and ids in the same order, recaptioned. */
  lemma BakedDocument(c: Captions, s: string)
    requires Closed(c) && c != map[]
    ensures Parse(Bake(c, s), AnyRun) == Recaption(c, Parse(s, AnyRun))
  {
    hide MatchHere;
    ParseQuiet(s, AnyRun);
    RecaptionQuiet(c, Parse(s, AnyRun));
    ParseRender(Recaption(c, Parse(s, AnyRun)), AnyRun);
  }

  function Ids(d: Doc): seq<string> {
    match d
    case End(_) => []
    case More(_, m, r) => [m.id] + Ids(r)
  }

  function PlainRuns(d: Doc): seq<string> {
    match d
    case End(t) => [t]
    case More(t, _, r) => [t] + PlainRuns(r)
  }

  lemma {:induction false} RecaptionKeeps(c: Captions, d: Doc)
    ensures Ids(Recaption(c, d)) == Ids(d) && PlainRuns(Recaption(c, d)) == PlainRuns(d)
  {
    if d.More? { RecaptionKeeps(c, d.rest); }
  }

  /** Image ids and all text outside markers survive any bake, byte for byte and in order. */
  lemma BakeKeepsIdsAndText(c: Captions, s: string)
    requires Closed(c)
    ensures Ids(Parse(Bake(c, s), AnyRun)) == Ids(Parse(s, AnyRun))
    ensures PlainRuns(Parse(Bake(c, s), AnyRun)) == PlainRuns(Parse(s, AnyRun))
  {
    if c != map[] {
      BakedDocument(c, s);
      RecaptionKeeps(c, Parse(s, AnyRun));
    }
  }

  // ----- last writer wins -----

  lemma {:induction false} RecaptionTwice(c1: Captions, c2: Captions, d: Doc)
    ensures Recaption(c2, Recaption(c1, d)) == Recaption(c2, d)
  {
    if d.More? { RecaptionTwice(c1, c2, d.rest); }
  }

  lemma LastWriterWins(c1: Captions, c2: Captions, s: string)
    requires Closed(c1) && c2 != map[]
    ensures Bake(c2, Bake(c1, s)) == Bake(c2, s)
  {
    hide MatchHere;
    if s != "" && c1 != map[] {
      BakedDocument(c1, s);
      RecaptionTwice(c1, c2, Parse(s, AnyRun));
      RenderParse(Bake(c1, s), AnyRun);
      if Bake(c1, s) == "" {
        assert Parse("", AnyRun) == End("");
        RenderParse(s, AnyRun);
      }
    }
  }

  /** Re-running the task with unchanged captions changes nothing. */
  lemma BakeIdempotent(c: Captions, s: string)
    requires Closed(c)
    ensures Bake(c, Bake(c, s)) == Bake(c, s)
  {
    if c != map[] { LastWriterWins(c, c, s); }
  }

  // ----- and only then -----

  /** Number of `]` in a text: a pass that writes no `]` of its own keeps it. */
  function Closes(s: string): nat {
    if s == "" then 0 else (if s[0] == ']' then 1 else 0) + Closes(s[1..])
  }

  lemma {:induction false} ClosesConcat(s: string, t: string)
    ensures Closes(s + t) == Closes(s) + Closes(t)
  {
    if s == "" {
      assert s + t == t;
    } else {
      assert (s + t)[1..] == s[1..] + t;
      ClosesConcat(s[1..], t);
    }
  }

  lemma {:induction false} ClosesNone(s: string)
    ensures ']' !in s <==> Closes(s) == 0
  {
    if s != "" {
      assert s == [s[0]] + s[1..];
      ClosesNone(s[1..]);
    }
  }

  lemma ClosesMarker(m: Marker)
    requires IsIdRun(m.id)
    ensures Closes(m.Text()) == Closes(m.caption) + 1
  {
    ClosesConcat("![", m.caption + ("](image://" + (m.id + ")")));
    ClosesConcat(m.caption, "](image://" + (m.id + ")"));
    ClosesConcat("](image://", m.id + ")");
    ClosesConcat(m.id, ")");
    ClosesNone(m.id);
    ClosesNone("![");
    ClosesNone(")");
    ClosesNone("(image://");
    assert "](image://"[1..] == "(image://";
  }

  lemma {:induction false} ClosesRecaption(c: Captions, d: Doc)
    requires Closed(c) && QuietDoc(d, AnyRun)
    ensures Closes(Render(Recaption(c, d))) == Closes(Render(d))
  {
    if d.More? {
      var m := Marker(CaptionFor(c, d.marker.id), d.marker.id);
      ClosesConcat(d.text + d.marker.Text(), Render(d.rest));
      ClosesConcat(d.text, d.marker.Text());
      ClosesConcat(d.text + m.Text(), Render(Recaption(c, d.rest)));
      ClosesConcat(d.text, m.Text());
      ClosesMarker(m);
      ClosesMarker(d.marker);
      ClosesNone(m.caption);
      ClosesNone(d.marker.caption);
      ClosesRecaption(c, d.rest);
    }
  }

  lemma ClosesBake(c: Captions, s: string)
    requires Closed(c)
    ensures Closes(Bake(c, s)) == Closes(s)
  {
    hide MatchHere;
    ParseQuiet(s, AnyRun);
    RenderParse(s, AnyRun);
    ClosesRecaption(c, Parse(s, AnyRun));
  }

  lemma BakeMarker(c: Captions, m: Marker)
    requires m.Valid(AnyRun) && c != map[]
    ensures Bake(c, m.Text()) == Marker(CaptionFor(c, m.id), m.id).Text()
  {
    hide MatchHere;
    var d := More("", m, End(""));
    assert Render(d) == m.Text();
    ParseRender(d, AnyRun);
    assert Render(Recaption(c, d)) == Marker(CaptionFor(c, m.id), m.id).Text();
  }

  /** One bare marker is enough to see a caption holding `]` outlive the next writer. */
  lemma OpenCaptionSticks(c1: Captions, id: string) returns (c2: Captions, s: string)
    requires id in c1 && IsIdRun(id) && id != "" && ']' in c1[id]
    ensures c2 != map[] && Bake(c2, Bake(c1, s)) != Bake(c2, s)
  {
    c2, s := map["" := ""], Marker("", id).Text();
    assert "" in c2;
    BakeMarker(c1, Marker("", id));
    ClosesBake(c2, s);
    ClosesBake(c2, Bake(c1, s));
    ClosesMarker(Marker("", id));
    ClosesMarker(Marker(c1[id], id));
    ClosesNone(c1[id]);
  }

  ghost predicate YieldsToLaterWriters(c1: Captions) {
    forall c2: Captions, s | c2 != map[] :: Bake(c2, Bake(c1, s)) == Bake(c2, s)
  }

  /** A baked caption set yields to every later one on every text exactly when it is closed. */
  lemma LastWriterWinsIff(c1: Captions)
    ensures YieldsToLaterWriters(c1) <==> Closed(c1)
  {
    if Closed(c1) {
      forall c2: Captions, s | c2 != map[] ensures Bake(c2, Bake(c1, s)) == Bake(c2, s) {
        LastWriterWins(c1, c2, s);
      }
    } else {
      var id :| id in c1 && IsIdRun(id) && id != "" && ']' in c1[id];
      var c2, s := OpenCaptionSticks(c1, id);
    }
  }

  /** What the later caption set makes of any text does not depend on the earlier one. */
  ghost predicate Overrides(c2: Captions, c1: Captions) {
    forall s :: Bake(c2, Bake(c1, s)) == Bake(c2, s)
  }

  /**
   Against a closed set the later one wins on every text exactly if it is not empty: with no image
   rows left the pass is skipped, and the earlier captions stay unless there were none.
   */
  lemma OverridesIff(c2: Captions, c1: Captions)
    requires Closed(c1)
    ensures Overrides(c2, c1) <==> c2 != map[] || c1 == map[]
  {
    if c2 != map[] {
      forall s ensures Bake(c2, Bake(c1, s)) == Bake(c2, s) { LastWriterWins(c1, c2, s); }
    } else if c1 != map[] {
      var m := Marker(if CaptionFor(c1, "a") == "" then "x" else "", "a");
      BakeMarker(c1, m);
      TextTellsCaption(m, Marker(CaptionFor(c1, "a"), "a"));
      assert Bake(c2, Bake(c1, m.Text())) != Bake(c2, m.Text());
    }
  }

  lemma TextTellsCaption(m: Marker, n: Marker)
    requires m.id == n.id && (m.caption == "") != (n.caption == "")
    ensures m.Text() != n.Text()
  {
    assert |m.Text()| - |m.caption| == |n.Text()| - |n.caption|;
  }
}
