/**
 The tool-calling wiki agent: its tool handlers over the page store, the books it keeps, and the
 bounded loop that grows the message history.
 */
module WikiAgent {
  import opened Options
  import opened WikiStore
  import opened AgentProtocol
  import MarkerStripping

  const MAX_STEPS: nat := 50

  /**
   Fixed for one compile: the source's scope, the ids of its images, and how the page tools trim and lower-case
   the slug they are sent.
   */
  datatype Env = Env(scope: Scope, images: set<string>, clean: string -> string)

  /** `strays`: slugs of the rows that appeared in the scope without being recorded as created. */
  datatype Ledger = Ledger(
    rows: seq<WikiRow>,
    created: seq<string>,
    strays: seq<string>,
    updated: seq<string>,
    read: set<string>,
    calls: nat,
    finished: bool,
    report: string)

  /** What a handler returns; the JSON text of it is left to a `render` function. */
  datatype Outcome =
    | Created(slug: string)
    | Updated(slug: string, version: nat)
    | Logged(entry: string)
    | Finished(report: string)
    | ReadPage(row: WikiRow)
    | Data(tool: string)
    | Refused(tool: string)

  /**
   What befalls a call: nothing; its handler raises before it writes; it raises between writing the page and
   recording it; or another writer commits the same slug between its lookup and its insert. `choice` is the row
   the database returns to a lookup that matches several.
   */
  datatype Fate =
    | Fine(choice: nat)
    | Raises
    | RaisesLate(choice: nat)
    | Raced(choice: nat, title: string, summary: string, content: string)
  {
    function Choice(): nat { if Raises? then 0 else choice }
  }

  /** What befalls the calls of one turn. */
  type Fates = nat -> Fate

  // ----- tool handlers -----

  /** A keyword call binds: every required argument is there and none is unknown. */
  predicate Binds(args: map<string, string>, required: set<string>, optional: set<string>) {
    required <= args.Keys && args.Keys <= required + optional
  }

  const CREATE_ARGUMENTS := {"slug", "title", "page_type", "content_md", "summary"}
  const UPDATE_ARGUMENTS := {"slug", "new_content_md"}
  const READERS := {"read_wiki_index", "search_wiki", "read_source_excerpt"}

  function Lookup(args: map<string, string>, key: string): Option<string> {
    if key in args then Some(args[key]) else None
  }

  predicate Creates(env: Env, s: Ledger, call: ToolCall) {
    && call.name == "create_page" && Binds(call.arguments, CREATE_ARGUMENTS, {})
    && ValidSlug(env.clean(call.arguments["slug"])) && !Exists(s.rows, env.clean(call.arguments["slug"]), env.scope)
  }

  predicate Updates(env: Env, s: Ledger, call: ToolCall) {
    && call.name == "update_page" && Binds(call.arguments, UPDATE_ARGUMENTS, {"summary", "title"})
    && Exists(s.rows, env.clean(call.arguments["slug"]), env.scope)
  }

  predicate Logs(call: ToolCall) { call.name == "append_log" && Binds(call.arguments, {"entry"}, {}) }

  predicate Finishes(call: ToolCall) { call.name == "finish" && Binds(call.arguments, {"report"}, {}) }

  predicate Reads(env: Env, s: Ledger, call: ToolCall) {
    && call.name == "read_wiki_page" && Binds(call.arguments, {"slug"}, {})
    && Exists(s.rows, env.clean(call.arguments["slug"]), env.scope)
  }

  /** The table as the insert finds it. */
  function AtInsert(env: Env, rows: seq<WikiRow>, slug: string, fate: Fate): seq<WikiRow> {
    if fate.Raced? then InsertRow(rows, slug, env.scope, fate.title, fate.summary, fate.content) else rows
  }

  function CreatePage(env: Env, s: Ledger, args: map<string, string>, fate: Fate): Ledger
    requires Binds(args, CREATE_ARGUMENTS, {})
  {
    var slug, content := env.clean(args["slug"]), MarkerStripping.StripContent(args["content_md"], env.images);
    s.(rows := InsertRow(AtInsert(env, s.rows, slug, fate), slug, env.scope, args["title"], args["summary"], content),
       created := if fate.RaisesLate? then s.created else s.created + [slug],
       strays := if fate.RaisesLate? || fate.Raced? then s.strays + [slug] else s.strays)
  }

  /** No slug check here: any page of the scope can be named. */
  function UpdatePage(env: Env, s: Ledger, args: map<string, string>, fate: Fate): Ledger
    requires Binds(args, UPDATE_ARGUMENTS, {"summary", "title"})
  {
    var slug, content := env.clean(args["slug"]), MarkerStripping.StripContent(args["new_content_md"], env.images);
    s.(rows := UpdateRow(s.rows, slug, env.scope, fate.Choice(), content, Lookup(args, "summary"), Lookup(args, "title")),
       updated := if fate.RaisesLate? then s.updated else s.updated + [slug])
  }

  /** White space, as `str.strip` takes it. */
  predicate IsSpace(c: char) {
    || '\U{0009}' <= c <= '\U{000D}' || '\U{001C}' <= c <= '\U{0020}' || c in {'\U{0085}', '\U{00A0}', '\U{1680}'}
    || '\U{2000}' <= c <= '\U{200A}' || c in {'\U{2028}', '\U{2029}', '\U{202F}', '\U{205F}', '\U{3000}'}
  }

  function TrimEnd(s: string): string {
    if s != "" && IsSpace(s[|s| - 1]) then TrimEnd(s[..|s| - 1]) else s
  }

  function TrimStart(s: string): string {
    if s != "" && IsSpace(s[0]) then TrimStart(s[1..]) else s
  }

  function LogLine(entry: string): string { "## " + TrimStart(TrimEnd(entry)) }

  /** A page that is empty, or holds the text an empty index is given, is begun again. */
  function LogText(text: string, entry: string): string {
    var existing := if text == "" || MarkerStripping.Contains(text, "_(empty") then "# Wiki Log\n" else text;
    TrimEnd(existing) + "\n\n" + LogLine(entry) + "\n"
  }

  function AppendLog(rows: seq<WikiRow>, scope: Scope, choice: nat, entry: string): seq<WikiRow> {
    var k := Found(rows, "_log", scope, choice);
    if k < |rows| then UpdateRow(rows, "_log", scope, choice, LogText(rows[k].content, entry), None, None)
    else InsertRow(rows, "_log", scope, "Wiki Log", "Chronological activity log", "# Wiki Log\n\n" + LogLine(entry) + "\n")
  }

  /** What the page tools do when they do not raise at once. */
  function Handled(env: Env, s: Ledger, call: ToolCall, fate: Fate): Ledger {
    if Creates(env, s, call) then CreatePage(env, s, call.arguments, fate)
    else if Updates(env, s, call) then UpdatePage(env, s, call.arguments, fate)
    else if Logs(call) then s.(rows := AppendLog(s.rows, env.scope, fate.Choice(), call.arguments["entry"]))
    else if Reads(env, s, call) then s.(read := s.read + {env.clean(call.arguments["slug"])})
    else s
  }

  /** One dispatched call. */
  function Act(env: Env, before: Ledger, call: ToolCall, fate: Fate): Ledger {
    var s := before.(calls := before.calls + 1);
    if Finishes(call) then s.(finished := true, report := call.arguments["report"])
    else if fate.Raises? then s
    else Handled(env, s, call, fate)
  }

  /** The update reports one version more than it has written: it adds one to the row it has already bumped. */
  function Answered(env: Env, s: Ledger, call: ToolCall, fate: Fate): Outcome {
    if fate.RaisesLate? && (Creates(env, s, call) || Updates(env, s, call)) then Refused(call.name)
    else if Creates(env, s, call) then Created(env.clean(call.arguments["slug"]))
    else if Updates(env, s, call) then
      var slug := env.clean(call.arguments["slug"]);
      Updated(slug, s.rows[Found(s.rows, slug, env.scope, fate.Choice())].version + 2)
    else if Logs(call) then Logged(call.arguments["entry"])
    else if Reads(env, s, call) then
      Outcome.ReadPage(s.rows[Found(s.rows, env.clean(call.arguments["slug"]), env.scope, fate.Choice())])
    else if call.name in READERS then Data(call.name)
    else Refused(call.name)
  }

  function Returned(env: Env, before: Ledger, call: ToolCall, fate: Fate): Outcome {
    if Finishes(call) then Finished(call.arguments["report"])
    else if fate.Raises? then Refused(call.name)
    else Answered(env, before, call, fate)
  }

  lemma AnsweredByRows(env: Env, s: Ledger, t: Ledger, call: ToolCall, fate: Fate)
    requires s.rows == t.rows
    ensures Answered(env, s, call, fate) == Answered(env, t, call, fate)
  {
    hide ValidSlug, Found, Exists;
  }

  function ActAll(env: Env, s: Ledger, calls: seq<ToolCall>, fates: Fates): Ledger {
    if calls == [] then s
    else
      var n := |calls| - 1;
      Act(env, ActAll(env, s, calls[..n], fates), calls[n], fates(n))
  }

  function Results(env: Env, s: Ledger, calls: seq<ToolCall>, fates: Fates, render: Outcome -> string): seq<ToolResult> {
    if calls == [] then []
    else
      var n := |calls| - 1;
      var before := ActAll(env, s, calls[..n], fates);
      Results(env, s, calls[..n], fates, render)
      + [ToolResult(calls[n].id, calls[n].name, render(Returned(env, before, calls[n], fates(n))))]
  }

  // ----- the page ledger -----

  /** The rows of all other scopes, in table order. */
  function Elsewhere(rows: seq<WikiRow>, scope: Scope): seq<WikiRow> {
    if rows == [] then []
    else Elsewhere(rows[..|rows| - 1], scope) + if rows[|rows| - 1].scope == scope then [] else [rows[|rows| - 1]]
  }

  lemma {:induction false} ElsewhereReplace(rows: seq<WikiRow>, k: nat, r: WikiRow, scope: Scope)
    requires k < |rows| && r.scope == rows[k].scope == scope
    ensures Elsewhere(rows[k := r], scope) == Elsewhere(rows, scope)
  {
    var n := |rows| - 1;
    if k == n {
      assert rows[k := r][..n] == rows[..n];
    } else {
      assert rows[k := r][..n] == rows[..n][k := r];
      ElsewhereReplace(rows[..n], k, r, scope);
    }
  }

  ghost predicate Distinct(s: seq<string>) {
    forall i, k | 0 <= i < k < |s| :: s[i] != s[k]
  }

  predicate Listed(s: Ledger, z: string) { z in s.created || z in s.strays }

  /** Every ordinary page of the scope was there before or is listed, and not both. */
  ghost predicate ListedExactly(before: seq<WikiRow>, s: Ledger, scope: Scope) {
    && (forall z | Listed(s, z) :: ValidSlug(z) && !Exists(before, z, scope))
    && (forall z | !Reserved(z) :: Exists(s.rows, z, scope) <==> Exists(before, z, scope) || Listed(s, z))
  }

  /** A slug that is both created and stray has two rows. */
  ghost predicate Apart(s: Ledger) {
    forall z | z in s.strays :: z !in s.created
  }

  /**
   The store after the agent's calls, against the rows it started from: the scope has grown by the created pages
   and the strays, and keys are apart exactly when they were and no created slug is also stray.
   */
  ghost predicate Booked(before: seq<WikiRow>, s: Ledger, scope: Scope) {
    && (UniqueIds(before) ==> UniqueIds(s.rows))
    && (UniqueKeys(s.rows) <==> UniqueKeys(before) && Apart(s))
    && Distinct(s.created)
    && ListedExactly(before, s, scope)
    && Pages(s.rows, scope) == Pages(before, scope) + |s.created| + |s.strays|
    && Elsewhere(s.rows, scope) == Elsewhere(before, scope)
  }

  /** A slug that did not exist is listed anew. */
  lemma ListedNow(before: seq<WikiRow>, s: Ledger, after: Ledger, scope: Scope, slug: string)
    requires Distinct(s.created) && ListedExactly(before, s, scope)
    requires ValidSlug(slug) && !Exists(s.rows, slug, scope)
    requires after.created == s.created || after.created == s.created + [slug]
    requires after.strays == s.strays || after.strays == s.strays + [slug]
    requires after.created != s.created || after.strays != s.strays
    requires forall z :: Exists(after.rows, z, scope) <==> Exists(s.rows, z, scope) || z == slug
    ensures Distinct(after.created) && ListedExactly(before, after, scope)
    ensures Apart(after) <==> Apart(s) && (after.created == s.created || after.strays == s.strays)
  {
    assert !Reserved(slug);
    hide ValidSlug, Exists, Reserved;
    assert slug !in s.created && slug !in s.strays;
    assert |s.created + [slug]| != |s.created| && |s.strays + [slug]| != |s.strays|;
    assert forall z :: z in s.created + [slug] <==> z in s.created || z == slug;
    assert forall z :: z in s.strays + [slug] <==> z in s.strays || z == slug;
    if after.created != s.created && after.strays != s.strays {
      assert slug in after.strays && slug in after.created;
    }
  }

  lemma ElsewhereInsert(rows: seq<WikiRow>, slug: string, scope: Scope, title: string, summary: string, content: string)
    ensures Elsewhere(InsertRow(rows, slug, scope, title, summary, content), scope) == Elsewhere(rows, scope)
  {
    var after := InsertRow(rows, slug, scope, title, summary, content);
    assert after[..|after| - 1] == rows;
  }

  lemma InsertHere(rows: seq<WikiRow>, slug: string, scope: Scope, title: string, summary: string, content: string)
    requires ValidSlug(slug)
    ensures var after := InsertRow(rows, slug, scope, title, summary, content);
            && (UniqueIds(rows) ==> UniqueIds(after)) && (UniqueKeys(after) <==> UniqueKeys(rows) && !Exists(rows, slug, scope))
            && Pages(after, scope) == Pages(rows, scope) + 1 && Elsewhere(after, scope) == Elsewhere(rows, scope)
            && forall z :: Exists(after, z, scope) <==> Exists(rows, z, scope) || z == slug
  {
    assert !Reserved(slug);
    InsertEffect(rows, slug, scope, title, summary, content);
    ElsewhereInsert(rows, slug, scope, title, summary, content);
    hide Exists, InsertRow, Pages, UniqueKeys, UniqueIds, ValidSlug, Elsewhere, Outside, Reserved;
  }

  /** A create, as it goes: recorded, lost to a late exception, or doubled by a rival. */
  lemma BookedCreate(env: Env, before: seq<WikiRow>, s: Ledger, args: map<string, string>, fate: Fate)
    requires Booked(before, s, env.scope) && Binds(args, CREATE_ARGUMENTS, {})
    requires ValidSlug(env.clean(args["slug"])) && !Exists(s.rows, env.clean(args["slug"]), env.scope)
    ensures Booked(before, CreatePage(env, s, args, fate), env.scope)
  {
    hide Exists, InsertRow, Pages, UniqueKeys, UniqueIds, ValidSlug, Elsewhere, Distinct, ListedExactly, Apart, MarkerStripping.StripContent;
    var slug, content := env.clean(args["slug"]), MarkerStripping.StripContent(args["content_md"], env.images);
    var base := AtInsert(env, s.rows, slug, fate);
    if fate.Raced? { InsertHere(s.rows, slug, env.scope, fate.title, fate.summary, fate.content); }
    InsertHere(base, slug, env.scope, args["title"], args["summary"], content);
    var after := CreatePage(env, s, args, fate);
    assert |s.created + [slug]| == |s.created| + 1 && |s.strays + [slug]| == |s.strays| + 1;
    ListedNow(before, s, after, env.scope, slug);
  }

  /** A log line touches the scope's `_log` page only. */
  lemma LogEffect(rows: seq<WikiRow>, scope: Scope, choice: nat, entry: string)
    ensures var after := AppendLog(rows, scope, choice, entry);
            && (UniqueIds(rows) ==> UniqueIds(after)) && (UniqueKeys(after) <==> UniqueKeys(rows))
            && Pages(after, scope) == Pages(rows, scope) && Elsewhere(after, scope) == Elsewhere(rows, scope)
            && forall z :: Exists(after, z, scope) <==> Exists(rows, z, scope) || z == "_log"
  {
    var k := Found(rows, "_log", scope, choice);
    if k < |rows| {
      var content := LogText(rows[k].content, entry);
      UpdateEffect(rows, "_log", scope, choice, content, None, None);
      ElsewhereReplace(rows, k, Revise(rows[k], content, None, None), scope);
    } else {
      InsertEffect(rows, "_log", scope, "Wiki Log", "Chronological activity log", "# Wiki Log\n\n" + LogLine(entry) + "\n");
      ElsewhereInsert(rows, "_log", scope, "Wiki Log", "Chronological activity log", "# Wiki Log\n\n" + LogLine(entry) + "\n");
    }
    hide LogText, LogLine, InsertRow, Pages, UniqueKeys, UniqueIds, Elsewhere, Outside;
  }

  ghost predicate Blank(s: string) { forall c | c in s :: IsSpace(c) }

  lemma {:induction false} TrimEndIs(s: string) returns (blank: string)
    ensures s == TrimEnd(s) + blank && Blank(blank)
    ensures TrimEnd(s) != "" ==> !IsSpace(TrimEnd(s)[|TrimEnd(s)| - 1])
  {
    if s != "" && IsSpace(s[|s| - 1]) {
      var b := TrimEndIs(s[..|s| - 1]);
      blank := b + [s[|s| - 1]];
    } else {
      blank := "";
    }
  }

  lemma {:induction false} TrimStartIs(s: string) returns (blank: string)
    ensures s == blank + TrimStart(s) && Blank(blank)
    ensures TrimStart(s) != "" ==> !IsSpace(TrimStart(s)[0]) && TrimStart(s)[|TrimStart(s)| - 1] == s[|s| - 1]
  {
    if s != "" && IsSpace(s[0]) {
      var b := TrimStartIs(s[1..]);
      blank := [s[0]] + b;
    } else {
      blank := "";
    }
  }

  /** `t` is `s` without the white space around it. */
  ghost predicate Core(t: string, s: string) {
    && (exists a, b :: s == a + t + b && Blank(a) && Blank(b))
    && (t != "" ==> !IsSpace(t[0]) && !IsSpace(t[|t| - 1]))
  }

  lemma TrimIs(s: string)
    ensures Core(TrimStart(TrimEnd(s)), s)
  {
    var b := TrimEndIs(s);
    var a := TrimStartIs(TrimEnd(s));
    assert s == a + TrimStart(TrimEnd(s)) + b;
    hide IsSpace;
  }

  /** The log with one entry more: what it held stays in front, but for white space at its end, unless it holds `_(empty`. */
  ghost predicate Extends(text: string, after: string, entry: string) {
    exists kept, line ::
      && Core(line, entry) && after == kept + "\n\n## " + line + "\n"
      && if text == "" || MarkerStripping.Contains(text, "_(empty") then kept == "# Wiki Log"
         else (exists blank :: text == kept + blank && Blank(blank)) && (kept != "" ==> !IsSpace(kept[|kept| - 1]))
  }

  lemma ExtendsBy(text: string, after: string, entry: string, kept: string, line: string, blank: string)
    requires Core(line, entry) && after == kept + "\n\n## " + line + "\n"
    requires if text == "" || MarkerStripping.Contains(text, "_(empty") then kept == "# Wiki Log"
             else text == kept + blank && Blank(blank) && (kept != "" ==> !IsSpace(kept[|kept| - 1]))
    ensures Extends(text, after, entry)
  {
    hide Core, Blank, IsSpace, MarkerStripping.Contains;
  }

  lemma LogTextIs(text: string, entry: string)
    ensures Extends(text, LogText(text, entry), entry)
  {
    hide TrimEnd, TrimStart, IsSpace, Core, Blank, Extends, MarkerStripping.Contains;
    var existing := if text == "" || MarkerStripping.Contains(text, "_(empty") then "# Wiki Log\n" else text;
    var kept, line := TrimEnd(existing), TrimStart(TrimEnd(entry));
    TrimIs(entry);
    var blank := TrimEndIs(existing);
    HeaderTrims();
    Heading(kept, "\n\n", "## ", line, "\n");
    assert "\n\n" + "## " == "\n\n## ";
    ExtendsBy(text, LogText(text, entry), entry, kept, line, blank);
  }

  lemma Heading(a: string, b: string, c: string, d: string, e: string)
    ensures a + b + (c + d) + e == a + (b + c) + d + e
  {}

  lemma HeaderTrims()
    ensures TrimEnd("# Wiki Log\n") == "# Wiki Log"
  {
    assert "# Wiki Log\n"[..10] == "# Wiki Log";
  }

  /** An entry is written to one log page of the scope, old or new, and no other page changes. */
  lemma LogKeepsText(rows: seq<WikiRow>, scope: Scope, choice: nat, entry: string)
    ensures var after := AppendLog(rows, scope, choice, entry);
            if Exists(rows, "_log", scope) then
              |after| == |rows| && exists k | 0 <= k < |rows| ::
                && At(rows[k], "_log", scope) && Extends(rows[k].content, after[k].content, entry)
                && after[k].title == rows[k].title && after[k].summary == rows[k].summary
                && forall i | 0 <= i < |rows| && i != k :: after[i] == rows[i]
            else
              && |after| == |rows| + 1 && after[..|rows|] == rows && At(after[|rows|], "_log", scope)
              && Extends("", after[|rows|].content, entry)
  {
    hide FreshId, Extends, LogText;
    var k, after := Found(rows, "_log", scope, choice), AppendLog(rows, scope, choice, entry);
    if k < |rows| {
      LogTextIs(rows[k].content, entry);
      assert At(rows[k], "_log", scope) && Extends(rows[k].content, after[k].content, entry);
    } else {
      LogTextIs("", entry);
      FirstLogText(entry);
    }
  }

  lemma FirstLogText(entry: string)
    ensures LogText("", entry) == "# Wiki Log\n\n" + LogLine(entry) + "\n"
  {
    HeaderTrims();
    hide TrimEnd, LogLine;
    assert "# Wiki Log" + "\n\n" == "# Wiki Log\n\n";
  }

  lemma ContainsCore(t: string, s: string, a: string, b: string, i: nat)
    requires s == a + t + b && Blank(a) && Blank(b) && i <= |s| && "_(empty" <= s[i..]
    ensures |a| <= i && i - |a| <= |t| && "_(empty" <= t[i - |a|..]
  {
    assert s[i] == '_' && s[i + 6] == 'y' by { assert s[i..][0] == "_(empty"[0] && s[i..][6] == "_(empty"[6]; }
    assert forall k | 0 <= k < |a| :: s[k] == a[k] && a[k] in a;
    assert forall k | |a| + |t| <= k < |s| :: s[k] == b[k - |a| - |t|] && b[k - |a| - |t|] in b;
    assert t[i - |a|..] == s[i..|a| + |t|];
    assert "_(empty" == s[i..][..7] == s[i..i + 7];
  }

  lemma ContainsWithin(before: string, t: string, rest: string, needle: string)
    requires MarkerStripping.Contains(t, needle)
    ensures MarkerStripping.Contains(before + t + rest, needle)
  {
    var k :| 0 <= k <= |t| && needle <= t[k..];
    assert (before + t + rest)[|before| + k..] == t[k..] + rest;
  }

  lemma CoreContains(t: string, s: string)
    requires Core(t, s) && MarkerStripping.Contains(s, "_(empty")
    ensures MarkerStripping.Contains(t, "_(empty")
  {
    var a, b :| s == a + t + b && Blank(a) && Blank(b);
    var i :| 0 <= i <= |s| && "_(empty" <= s[i..];
    ContainsCore(t, s, a, b, i);
  }

  lemma Regroup(a: string, b: string, c: string, d: string, e: string)
    ensures a + b + (c + d) + e == a + b + c + d + e
  {}

  lemma EntryStays(text: string, entry: string)
    requires MarkerStripping.Contains(entry, "_(empty")
    ensures MarkerStripping.Contains(LogText(text, entry), "_(empty")
  {
    hide TrimEnd, TrimStart, MarkerStripping.Contains, Blank, IsSpace, Core;
    var t := TrimStart(TrimEnd(entry));
    TrimIs(entry);
    CoreContains(t, entry);
    var existing := if text == "" || MarkerStripping.Contains(text, "_(empty") then "# Wiki Log\n" else text;
    var kept := TrimEnd(existing);
    ContainsWithin(kept + "\n\n" + "## ", t, "\n", "_(empty");
    Regroup(kept, "\n\n", "## ", t, "\n");
  }

  /** An entry that speaks of `_(empty` is gone, with everything before it, as soon as the next one is written. */
  lemma LogForgets(text: string, entry: string, next: string)
    requires MarkerStripping.Contains(entry, "_(empty")
    ensures LogText(LogText(text, entry), next) == LogText("", next)
  {
    EntryStays(text, entry);
    hide TrimEnd, LogLine, MarkerStripping.Contains;
  }

  // ----- what a call writes -----

  /** The arguments a create call must have, and no others. */
  ghost predicate CreateCall(call: ToolCall) {
    call.name == "create_page" && call.arguments.Keys == {"slug", "title", "page_type", "content_md", "summary"}
  }

  ghost predicate UpdateCall(call: ToolCall) {
    && call.name == "update_page" && "slug" in call.arguments && "new_content_md" in call.arguments
    && forall k | k in call.arguments :: k in {"slug", "new_content_md", "summary", "title"}
  }

  /** `after` is `rows` with one more row, of the given key and texts. */
  ghost predicate Appended(rows: seq<WikiRow>, after: seq<WikiRow>, slug: string, scope: Scope, title: string, summary: string, content: string) {
    && |after| == |rows| + 1 && after[..|rows|] == rows
    && var r := after[|rows|]; r == WikiRow(r.id, slug, scope, title, summary, content, 1)
  }

  /** `after` is `rows` with one row of that key rewritten: its content, and title and summary if they are sent. */
  ghost predicate Changed(rows: seq<WikiRow>, after: seq<WikiRow>, slug: string, scope: Scope, args: map<string, string>, content: string) {
    |after| == |rows| && exists k | 0 <= k < |rows| ::
      && rows[k].slug == slug && rows[k].scope == scope
      && (forall i | 0 <= i < |rows| && i != k :: after[i] == rows[i])
      && after[k] == WikiRow(rows[k].id, slug, scope,
                             if "title" in args then args["title"] else rows[k].title,
                             if "summary" in args then args["summary"] else rows[k].summary,
                             content, rows[k].version + 1)
  }

  lemma CreateWrites(env: Env, s: Ledger, call: ToolCall, choice: nat)
    requires CreateCall(call)
    ensures var after, slug := Act(env, s, call, Fine(choice)), env.clean(call.arguments["slug"]);
            if ValidSlug(slug) && forall r | r in s.rows :: !(r.slug == slug && r.scope == env.scope) then
              && Appended(s.rows, after.rows, slug, env.scope, call.arguments["title"], call.arguments["summary"],
                          MarkerStripping.StripContent(call.arguments["content_md"], env.images))
              && after.created == s.created + [slug] && after.updated == s.updated
            else after == s.(calls := s.calls + 1)
  {
    var slug := env.clean(call.arguments["slug"]);
    ExistsIff(s.rows, slug, env.scope);
    hide ValidSlug, Find, Exists, MarkerStripping.StripContent, FreshId;
  }

  lemma UpdateChanges(rows: seq<WikiRow>, slug: string, scope: Scope, choice: nat, args: map<string, string>, content: string)
    requires Exists(rows, slug, scope)
    ensures Changed(rows, UpdateRow(rows, slug, scope, choice, content, Lookup(args, "summary"), Lookup(args, "title")), slug, scope, args, content)
  {
    var k := Found(rows, slug, scope, choice);
    hide Found, Find;
    assert At(rows[k], slug, scope);
  }

  lemma ExistsIff(rows: seq<WikiRow>, slug: string, scope: Scope)
    ensures Exists(rows, slug, scope) <==> exists r :: r in rows && r.slug == slug && r.scope == scope
  {
    hide Find;
  }

  lemma UpdateWrites(env: Env, s: Ledger, call: ToolCall, choice: nat)
    requires UpdateCall(call)
    ensures var after, slug := Act(env, s, call, Fine(choice)), env.clean(call.arguments["slug"]);
            if exists r :: r in s.rows && r.slug == slug && r.scope == env.scope then
              && Changed(s.rows, after.rows, slug, env.scope, call.arguments, MarkerStripping.StripContent(call.arguments["new_content_md"], env.images))
              && after.created == s.created && after.updated == s.updated + [slug]
            else after == s.(calls := s.calls + 1)
  {
    hide ValidSlug, Exists, UpdateRow, Lookup, Changed, AppendLog, CreatePage, MarkerStripping.StripContent;
    var slug := env.clean(call.arguments["slug"]);
    ExistsIff(s.rows, slug, env.scope);
    if Exists(s.rows, slug, env.scope) {
      UpdateChanges(s.rows, slug, env.scope, choice, call.arguments, MarkerStripping.StripContent(call.arguments["new_content_md"], env.images));
    }
  }

  lemma OtherCalls(env: Env, s: Ledger, call: ToolCall, fate: Fate)
    requires !CreateCall(call) && !UpdateCall(call) && !(call.name == "append_log" && call.arguments.Keys == {"entry"})
    ensures Act(env, s, call, fate).rows == s.rows && Act(env, s, call, fate).created == s.created && Act(env, s, call, fate).updated == s.updated
    ensures Act(env, s, call, fate).finished <==> s.finished || (call.name == "finish" && call.arguments.Keys == {"report"})
  {
    hide CreatePage, UpdatePage, AppendLog, ValidSlug, Exists;
  }

  /**
   Undisturbed, a create call with the arguments of its signature adds one row of just these texts when the slug is
   free and well-formed, an update call rewrites one row of the slug it names, a log call extends the log, and no
   other call, however it is named and whatever it is sent, writes to the table.
   */
  lemma CallWrites(env: Env, s: Ledger, call: ToolCall, choice: nat)
    ensures var after := Act(env, s, call, Fine(choice)); var args := call.arguments;
            if CreateCall(call) then
              var slug := env.clean(args["slug"]);
              if SlugText(slug) && forall r | r in s.rows :: !(r.slug == slug && r.scope == env.scope) then
                && Appended(s.rows, after.rows, slug, env.scope, args["title"], args["summary"],
                            MarkerStripping.StripContent(args["content_md"], env.images))
                && after.created == s.created + [slug] && after.updated == s.updated
              else after == s.(calls := s.calls + 1)
            else if UpdateCall(call) then
              var slug := env.clean(args["slug"]);
              if exists r :: r in s.rows && r.slug == slug && r.scope == env.scope then
                && Changed(s.rows, after.rows, slug, env.scope, args, MarkerStripping.StripContent(args["new_content_md"], env.images))
                && after.created == s.created && after.updated == s.updated + [slug]
              else after == s.(calls := s.calls + 1)
            else if call.name == "append_log" && args.Keys == {"entry"} then
              after == s.(calls := s.calls + 1, rows := AppendLog(s.rows, env.scope, choice, args["entry"]))
            else after.rows == s.rows && after.created == s.created && after.updated == s.updated
  {
    if CreateCall(call) {
      CreateWrites(env, s, call, choice);
      SlugIff(env.clean(call.arguments["slug"]));
    } else if UpdateCall(call) {
      UpdateWrites(env, s, call, choice);
    } else if call.name == "append_log" && call.arguments.Keys == {"entry"} {
      LogWrites(env, s, call, choice);
    } else {
      OtherCalls(env, s, call, Fine(choice));
    }
    hide Act, Appended, Changed, SlugText, ValidSlug, AppendLog, MarkerStripping.StripContent;
  }

  /** Whatever befalls it, a finish call with its report ends the session, and no other call does. */
  lemma OnlyFinishEnds(env: Env, s: Ledger, call: ToolCall, fate: Fate)
    ensures if call.name == "finish" && call.arguments.Keys == {"report"} then
              Act(env, s, call, fate) == s.(calls := s.calls + 1, finished := true, report := call.arguments["report"])
            else Act(env, s, call, fate).finished == s.finished && Act(env, s, call, fate).report == s.report
  {
    hide UpdateRow, InsertRow, AppendLog, ValidSlug, Exists, MarkerStripping.StripContent;
  }

  /** A handler that raises at once leaves the count only; one that raises after writing leaves the page unrecorded. */
  lemma RaisesLeave(env: Env, s: Ledger, call: ToolCall, choice: nat)
    requires !(call.name == "finish" && call.arguments.Keys == {"report"})
    ensures Act(env, s, call, Raises) == s.(calls := s.calls + 1)
    ensures var late := Act(env, s, call, RaisesLate(choice));
            late.rows == Act(env, s, call, Fine(choice)).rows && late.created == s.created && late.updated == s.updated
  {
    hide UpdateRow, InsertRow, AppendLog, ValidSlug, Exists, MarkerStripping.StripContent;
  }

  /** Reading records the slug of a page that is there, and nothing else does. */
  lemma ReadRecords(env: Env, s: Ledger, call: ToolCall, choice: nat)
    ensures var after := Act(env, s, call, Fine(choice));
            if call.name == "read_wiki_page" && call.arguments.Keys == {"slug"} then
              var slug := env.clean(call.arguments["slug"]);
              after == s.(calls := s.calls + 1,
                          read := s.read + if exists r :: r in s.rows && r.slug == slug && r.scope == env.scope then {slug} else {})
            else after.read == s.read
  {
    if "slug" in call.arguments { ExistsIff(s.rows, env.clean(call.arguments["slug"]), env.scope); }
    hide CreatePage, UpdatePage, AppendLog, ValidSlug, Exists;
    assert s.read + {} == s.read;
  }

  lemma AnsweredUpdate(env: Env, s: Ledger, call: ToolCall, fate: Fate)
    requires Updates(env, s, call) && !fate.Raises?
    ensures var slug := env.clean(call.arguments["slug"]);
            exists r :: r in UpdatePage(env, s, call.arguments, fate).rows && r.slug == slug && r.scope == env.scope
                        && r.version == s.rows[Found(s.rows, slug, env.scope, fate.Choice())].version + 1
  {
    hide ValidSlug, MarkerStripping.StripContent;
    var slug := env.clean(call.arguments["slug"]);
    var k, rows := Found(s.rows, slug, env.scope, fate.Choice()), UpdatePage(env, s, call.arguments, fate).rows;
    assert rows[k] in rows && At(rows[k], slug, env.scope);
  }

  /** What the answer says is what has become of the ledger. */
  ghost predicate Truthful(env: Env, s: Ledger, call: ToolCall, fate: Fate, after: Ledger, answer: Outcome) {
    match answer
    case Created(slug) => after.created == s.created + [slug] && after.updated == s.updated
    case Updated(slug, version) =>
      && after.created == s.created && after.updated == s.updated + [slug]
      && exists r :: r in after.rows && r.slug == slug && r.scope == env.scope && version == r.version + 1
    case Logged(entry) =>
      && call.name == "append_log" && "entry" in call.arguments && entry == call.arguments["entry"]
      && after == s.(calls := s.calls + 1, rows := AppendLog(s.rows, env.scope, fate.Choice(), entry))
    case Finished(report) => after.finished && report == after.report && call.name == "finish"
    case ReadPage(r) => r in after.rows && r.scope == env.scope && after == s.(calls := s.calls + 1, read := s.read + {r.slug})
    case Data(tool) =>
      tool == call.name && tool in {"read_wiki_index", "search_wiki", "read_source_excerpt"} && after == s.(calls := s.calls + 1)
    case Refused(tool) =>
      && tool == call.name && after.created == s.created && after.updated == s.updated
      && (!fate.RaisesLate? ==> after == s.(calls := s.calls + 1))
  }

  lemma PagesAnswered(env: Env, s: Ledger, call: ToolCall, fate: Fate)
    requires Creates(env, s, call) || Updates(env, s, call)
    ensures Truthful(env, s, call, fate, Act(env, s, call, fate), Returned(env, s, call, fate))
  {
    hide ValidSlug, MarkerStripping.StripContent, FreshId, AppendLog, InsertRow, UpdateRow, AtInsert, Lookup, Exists;
    if Updates(env, s, call) && !fate.Raises? { AnsweredUpdate(env, s, call, fate); }
  }

  lemma OthersAnswered(env: Env, s: Ledger, call: ToolCall, fate: Fate)
    requires !Creates(env, s, call) && !Updates(env, s, call)
    ensures Truthful(env, s, call, fate, Act(env, s, call, fate), Returned(env, s, call, fate))
  {
    if Reads(env, s, call) {
      var slug := env.clean(call.arguments["slug"]);
      var k := Found(s.rows, slug, env.scope, fate.Choice());
      assert At(s.rows[k], slug, env.scope) && s.rows[k] in s.rows;
    }
    hide Creates, Updates, CreatePage, UpdatePage, ValidSlug, AppendLog, Find;
  }

  /**
   What a call is told is what has happened: the page recorded as created or updated, with one version more than the
   row now has, the row read, the entry logged, or the report; and a refusal, unless the handler raised after
   writing, means that nothing has.
   */
  lemma AnswersTruly(env: Env, s: Ledger, call: ToolCall, fate: Fate)
    ensures Truthful(env, s, call, fate, Act(env, s, call, fate), Returned(env, s, call, fate))
  {
    hide Truthful, Act, Returned, Creates, Updates;
    if Creates(env, s, call) || Updates(env, s, call) { PagesAnswered(env, s, call, fate); } else { OthersAnswered(env, s, call, fate); }
  }

  lemma LogWrites(env: Env, s: Ledger, call: ToolCall, choice: nat)
    requires call.name == "append_log" && call.arguments.Keys == {"entry"}
    ensures Act(env, s, call, Fine(choice)) == s.(calls := s.calls + 1, rows := AppendLog(s.rows, env.scope, choice, call.arguments["entry"]))
  {
    hide CreatePage, UpdatePage, AppendLog, ValidSlug, Exists;
  }

  /** Steps that list nothing and add at most the reserved log page keep the books. */
  lemma BookedSame(before: seq<WikiRow>, s: Ledger, after: Ledger, scope: Scope)
    requires Booked(before, s, scope) && after.created == s.created && after.strays == s.strays
    requires (UniqueIds(s.rows) ==> UniqueIds(after.rows)) && (UniqueKeys(after.rows) <==> UniqueKeys(s.rows))
    requires Pages(after.rows, scope) == Pages(s.rows, scope) && Elsewhere(after.rows, scope) == Elsewhere(s.rows, scope)
    requires forall z | !Reserved(z) :: Exists(after.rows, z, scope) <==> Exists(s.rows, z, scope)
    ensures Booked(before, after, scope)
  {
    hide Exists, ValidSlug, Reserved, Pages, Elsewhere, UniqueIds, UniqueKeys, Distinct;
  }

  lemma BookedLog(before: seq<WikiRow>, s: Ledger, scope: Scope, choice: nat, entry: string)
    requires Booked(before, s, scope)
    ensures Booked(before, s.(rows := AppendLog(s.rows, scope, choice, entry)), scope)
  {
    LogEffect(s.rows, scope, choice, entry);
    assert Reserved("_log");
    hide Booked, Exists, AppendLog, Pages, UniqueKeys, UniqueIds, ValidSlug, Elsewhere, Reserved;
    BookedSame(before, s, s.(rows := AppendLog(s.rows, scope, choice, entry)), scope);
  }

  lemma BookedUpdate(env: Env, before: seq<WikiRow>, s: Ledger, args: map<string, string>, fate: Fate)
    requires Booked(before, s, env.scope) && Binds(args, UPDATE_ARGUMENTS, {"summary", "title"})
    ensures Booked(before, UpdatePage(env, s, args, fate), env.scope)
    ensures forall z :: Exists(UpdatePage(env, s, args, fate).rows, z, env.scope) <==> Exists(s.rows, z, env.scope)
  {
    var slug, content := env.clean(args["slug"]), MarkerStripping.StripContent(args["new_content_md"], env.images);
    var summary, title := Lookup(args, "summary"), Lookup(args, "title");
    UpdateEffect(s.rows, slug, env.scope, fate.Choice(), content, summary, title);
    var k := Found(s.rows, slug, env.scope, fate.Choice());
    if k < |s.rows| { ElsewhereReplace(s.rows, k, Revise(s.rows[k], content, summary, title), env.scope); }
    hide Booked, Exists, Pages, UniqueKeys, UniqueIds, ValidSlug, Elsewhere, MarkerStripping.StripContent, Find, Found;
    BookedSame(before, s, UpdatePage(env, s, args, fate), env.scope);
  }

  lemma BookedRead(before: seq<WikiRow>, s: Ledger, after: Ledger, scope: Scope)
    requires Booked(before, s, scope) && after.rows == s.rows && after.created == s.created && after.strays == s.strays
    ensures Booked(before, after, scope)
  {
    hide Exists, ValidSlug, Reserved, Pages, Elsewhere, UniqueIds, UniqueKeys, Distinct;
  }

  lemma BookedEntry(env: Env, before: seq<WikiRow>, s: Ledger, call: ToolCall, fate: Fate)
    requires Booked(before, s, env.scope) && Logs(call)
    ensures Booked(before, s.(rows := AppendLog(s.rows, env.scope, fate.Choice(), call.arguments["entry"])), env.scope)
  {
    hide Booked, AppendLog;
    BookedLog(before, s, env.scope, fate.Choice(), call.arguments["entry"]);
  }

  lemma HandledKeepsBooks(env: Env, before: seq<WikiRow>, s: Ledger, call: ToolCall, fate: Fate)
    requires Booked(before, s, env.scope)
    ensures Booked(before, Handled(env, s, call, fate), env.scope)
  {
    hide Booked, CreatePage, UpdatePage, AppendLog, ValidSlug, Exists, Binds;
    if Creates(env, s, call) {
      BookedCreate(env, before, s, call.arguments, fate);
    } else if Updates(env, s, call) {
      BookedUpdate(env, before, s, call.arguments, fate);
    } else if Logs(call) {
      BookedEntry(env, before, s, call, fate);
    } else {
      BookedRead(before, s, Handled(env, s, call, fate), env.scope);
    }
  }

  /** One call keeps the books, whatever befalls it. */
  lemma ActKeepsBooks(env: Env, before: seq<WikiRow>, s: Ledger, call: ToolCall, fate: Fate)
    requires Booked(before, s, env.scope)
    ensures Booked(before, Act(env, s, call, fate), env.scope)
  {
    hide Booked, Handled, Binds;
    var now := s.(calls := s.calls + 1);
    BookedRead(before, s, now, env.scope);
    if Finishes(call) {
      BookedRead(before, s, Act(env, s, call, fate), env.scope);
    } else {
      HandledKeepsBooks(env, before, now, call, fate);
    }
  }

  /** What the books say of the slugs named by updates: each is a page of the scope. */
  ghost predicate UpdatesExist(s: Ledger, scope: Scope) {
    forall z | z in s.updated :: Exists(s.rows, z, scope)
  }

  lemma CreateExists(env: Env, s: Ledger, args: map<string, string>, fate: Fate, z: string)
    requires Binds(args, CREATE_ARGUMENTS, {}) && Exists(s.rows, z, env.scope)
    ensures Exists(CreatePage(env, s, args, fate).rows, z, env.scope)
  {
    var slug, content := env.clean(args["slug"]), MarkerStripping.StripContent(args["content_md"], env.images);
    hide Exists, InsertRow, MarkerStripping.StripContent;
    if fate.Raced? { InsertExists(s.rows, slug, env.scope, fate.title, fate.summary, fate.content, z, env.scope); }
    InsertExists(AtInsert(env, s.rows, slug, fate), slug, env.scope, args["title"], args["summary"], content, z, env.scope);
  }

  lemma EntryExists(env: Env, s: Ledger, call: ToolCall, fate: Fate, z: string)
    requires Logs(call) && Exists(s.rows, z, env.scope)
    ensures Exists(AppendLog(s.rows, env.scope, fate.Choice(), call.arguments["entry"]), z, env.scope)
  {
    hide AppendLog, Exists;
    LogEffect(s.rows, env.scope, fate.Choice(), call.arguments["entry"]);
  }

  lemma ExistsStays(env: Env, before: seq<WikiRow>, s: Ledger, call: ToolCall, fate: Fate, z: string)
    requires Booked(before, s, env.scope) && Exists(s.rows, z, env.scope)
    ensures Exists(Act(env, s, call, fate).rows, z, env.scope)
  {
    hide Booked, CreatePage, UpdatePage, AppendLog, ValidSlug, Exists, Binds;
    var now := s.(calls := s.calls + 1);
    BookedRead(before, s, now, env.scope);
    if Creates(env, now, call) {
      CreateExists(env, now, call.arguments, fate, z);
    } else if Updates(env, now, call) {
      BookedUpdate(env, before, now, call.arguments, fate);
    } else if Logs(call) {
      EntryExists(env, now, call, fate, z);
    }
  }

  lemma ActUpdates(env: Env, s: Ledger, call: ToolCall, fate: Fate)
    ensures var after := Act(env, s, call, fate);
            after.updated == s.updated || (Updates(env, s, call) && after.updated == s.updated + [env.clean(call.arguments["slug"])])
  {
    hide Exists, ValidSlug, InsertRow, UpdateRow, AppendLog, AtInsert, MarkerStripping.StripContent;
  }

  lemma ActKeepsUpdates(env: Env, before: seq<WikiRow>, s: Ledger, call: ToolCall, fate: Fate)
    requires Booked(before, s, env.scope) && UpdatesExist(s, env.scope)
    ensures UpdatesExist(Act(env, s, call, fate), env.scope)
  {
    hide Act, Exists, ValidSlug, Booked;
    var after := Act(env, s, call, fate);
    ActUpdates(env, s, call, fate);
    forall z | z in after.updated ensures Exists(after.rows, z, env.scope) {
      assert z in s.updated || (Updates(env, s, call) && z == env.clean(call.arguments["slug"]));
      ExistsStays(env, before, s, call, fate, z);
    }
  }

  lemma ActLast(env: Env, s: Ledger, calls: seq<ToolCall>, fates: Fates)
    requires calls != []
    ensures var n := |calls| - 1;
            var mid := ActAll(env, s, calls[..n], fates);
            && ActAll(env, s, calls, fates) == Act(env, mid, calls[n], fates(n))
            && Act(env, mid, calls[n], fates(n)).calls == mid.calls + 1
  {
    hide Handled;
    HandledKeepsCount(env, ActAll(env, s, calls[..|calls| - 1], fates), calls[|calls| - 1], fates(|calls| - 1));
  }

  lemma HandledKeepsCount(env: Env, s: Ledger, call: ToolCall, fate: Fate)
    ensures forall n: nat :: Handled(env, s.(calls := n), call, fate).calls == n
  {
    hide Creates, Updates, Logs, Reads, MarkerStripping.StripContent, InsertRow, UpdateRow, AppendLog;
  }

  /** Over any calls of a turn: the books stay exact and each dispatched call is counted once. */
  lemma {:induction false} ActAllKeepsBooks(env: Env, before: seq<WikiRow>, s: Ledger, calls: seq<ToolCall>, fates: Fates)
    requires Booked(before, s, env.scope) && UpdatesExist(s, env.scope)
    ensures var after := ActAll(env, s, calls, fates);
            && Booked(before, after, env.scope) && UpdatesExist(after, env.scope) && after.calls == s.calls + |calls|
  {
    if calls == [] {
      NoCalls(env, s, fates);
    } else {
      ActLast(env, s, calls, fates);
    }
    hide Act, ActAll, UpdatesExist, Booked;
    if calls != [] {
      var n := |calls| - 1;
      ActAllKeepsBooks(env, before, s, calls[..n], fates);
      var mid := ActAll(env, s, calls[..n], fates);
      ActKeepsBooks(env, before, mid, calls[n], fates(n));
      ActKeepsUpdates(env, before, mid, calls[n], fates(n));
    }
  }

  /** Each result tells what its own call returned, handled after all those before it. */
  lemma {:induction false} ResultsTell(env: Env, s: Ledger, calls: seq<ToolCall>, fates: Fates, render: Outcome -> string, i: nat)
    requires i < |calls|
    ensures |Results(env, s, calls, fates, render)| == |calls|
    ensures Results(env, s, calls, fates, render)[i] ==
            ToolResult(calls[i].id, calls[i].name, render(Returned(env, ActAll(env, s, calls[..i], fates), calls[i], fates(i))))
  {
    hide Returned, ActAll;
    var n := |calls| - 1;
    ResultsAnswer(env, s, calls, fates, render);
    ResultsAnswer(env, s, calls[..n], fates, render);
    if i < n {
      ResultsTell(env, s, calls[..n], fates, render, i);
      assert calls[..n][..i] == calls[..i];
    }
  }

  lemma {:induction false} ResultsAnswer(env: Env, s: Ledger, calls: seq<ToolCall>, fates: Fates, render: Outcome -> string)
    ensures Answers(Results(env, s, calls, fates, render), calls)
  {
    if calls != [] {
      ResultsAnswer(env, s, calls[..|calls| - 1], fates, render);
    }
  }

  // ----- the loop -----

  datatype Reply =
    | Says(turn: AssistantTurn, fates: Fates)
    | TimedOut
    | Unsupported
    | CallFails

  datatype Session = Session(ledger: Ledger, history: seq<Message>, prompts: seq<seq<Message>>, raised: bool)

  function Drive(env: Env, llm: seq<Message> -> Reply, render: Outcome -> string, s: Ledger, h: seq<Message>, left: nat): Session
    decreases left
  {
    if left == 0 then Session(s, h, [], false)
    else
      match llm(h)
      case TimedOut => Session(s, h, [h], false)
      case Unsupported => Session(s, h, [h], false)
      case CallFails => Session(s, h, [h], true)
      case Says(turn, fates) =>
        var said := h + [FromTurn(turn)];
        var after := ActAll(env, s, turn.calls, fates);
        if turn.calls == [] || after.finished then Session(after, said, [h], false)
        else
          var rest := Drive(env, llm, render, after, said + [ToolResults(Results(env, s, turn.calls, fates, render))], left - 1);
          rest.(prompts := [h] + rest.prompts)
  }

  function Prefixed(prompts: seq<seq<Message>>, rest: Session): Session {
    rest.(prompts := prompts + rest.prompts)
  }

  lemma PrefixMoves(prompts: seq<seq<Message>>, h: seq<Message>, rest: Session)
    ensures Prefixed(prompts, Prefixed([h], rest)) == Prefixed(prompts + [h], rest)
  {
    assert prompts + ([h] + rest.prompts) == prompts + [h] + rest.prompts;
  }

  lemma DriveEnd(env: Env, llm: seq<Message> -> Reply, render: Outcome -> string, s: Ledger, h: seq<Message>)
    ensures Drive(env, llm, render, s, h, 0) == Session(s, h, [], false)
  {}

  lemma NoCalls(env: Env, s: Ledger, fates: Fates)
    ensures ActAll(env, s, [], fates) == s
  {}

  lemma DriveStep(env: Env, llm: seq<Message> -> Reply, render: Outcome -> string, s: Ledger, h: seq<Message>, left: nat)
    requires left > 0
    ensures var here := Drive(env, llm, render, s, h, left);
            match llm(h)
            case TimedOut => here == Session(s, h, [h], false)
            case Unsupported => here == Session(s, h, [h], false)
            case CallFails => here == Session(s, h, [h], true)
            case Says(turn, fates) =>
              var after, said := ActAll(env, s, turn.calls, fates), h + [FromTurn(turn)];
              if turn.calls == [] || after.finished then here == Session(after, said, [h], false)
              else
                var answer := ToolResults(Results(env, s, turn.calls, fates, render));
                here == Prefixed([h], Drive(env, llm, render, after, said + [answer], left - 1))
  {}

  /** The calls an assistant has made in a history. */
  function CallsIn(h: seq<Message>): nat {
    if h == [] then 0
    else CallsIn(h[..|h| - 1]) + if h[|h| - 1].Assistant? then |h[|h| - 1].calls| else 0
  }

  lemma CallsInExtend(h: seq<Message>, m: Message)
    ensures CallsIn(h + [m]) == CallsIn(h) + if m.Assistant? then |m.calls| else 0
  {
    assert (h + [m])[..|h|] == h;
  }

  lemma Extended(h: seq<Message>, turn: AssistantTurn, results: seq<ToolResult>)
    requires WellFormed(h) && turn.calls != [] && Answers(results, turn.calls)
    ensures WellFormed(h + [FromTurn(turn)] + [ToolResults(results)])
    ensures CallsIn(h + [FromTurn(turn)] + [ToolResults(results)]) == CallsIn(h) + |turn.calls|
  {
    WellFormedExtend(h, FromTurn(turn), ToolResults(results));
    assert h + [FromTurn(turn)] + [ToolResults(results)] == h + [FromTurn(turn), ToolResults(results)];
    CallsInExtend(h, FromTurn(turn));
    CallsInExtend(h + [FromTurn(turn)], ToolResults(results));
  }

  /** Every prompt is one the providers accept; there are at most `left` of them, each extending the previous one. */
  ghost predicate PromptsOk(prompts: seq<seq<Message>>, h: seq<Message>, left: nat) {
    && |prompts| <= left
    && (forall i | 0 <= i < |prompts| :: WellFormed(prompts[i]) && |prompts[i]| == |h| + 2 * i)
    && (forall i | 0 <= i < |prompts| :: h <= prompts[i])
  }

  lemma PromptsCons(prompts: seq<seq<Message>>, h: seq<Message>, next: seq<Message>, left: nat)
    requires WellFormed(h) && left > 0 && PromptsOk(prompts, next, left - 1) && h <= next && |next| == |h| + 2
    ensures PromptsOk([h] + prompts, h, left)
  {
    hide WellFormed;
    var all := [h] + prompts;
    forall i | 0 <= i < |all| ensures WellFormed(all[i]) && |all[i]| == |h| + 2 * i && h <= all[i] {
      if i > 0 { assert all[i] == prompts[i - 1]; }
    }
  }

  /** Whether the loop goes on after what the model says to `h`, and with what. */
  predicate GoesOn(env: Env, llm: seq<Message> -> Reply, s: Ledger, h: seq<Message>) {
    llm(h).Says? && llm(h).turn.calls != [] && !ActAll(env, s, llm(h).turn.calls, llm(h).fates).finished
  }

  function NextLedger(env: Env, llm: seq<Message> -> Reply, s: Ledger, h: seq<Message>): Ledger
    requires llm(h).Says?
  {
    ActAll(env, s, llm(h).turn.calls, llm(h).fates)
  }

  function NextHistory(env: Env, llm: seq<Message> -> Reply, render: Outcome -> string, s: Ledger, h: seq<Message>): seq<Message>
    requires llm(h).Says?
  {
    h + [FromTurn(llm(h).turn)] + [ToolResults(Results(env, s, llm(h).turn.calls, llm(h).fates, render))]
  }

  lemma DriveOn(env: Env, llm: seq<Message> -> Reply, render: Outcome -> string, s: Ledger, h: seq<Message>, left: nat)
    requires left > 0 && GoesOn(env, llm, s, h)
    ensures Drive(env, llm, render, s, h, left) ==
            Prefixed([h], Drive(env, llm, render, NextLedger(env, llm, s, h), NextHistory(env, llm, render, s, h), left - 1))
  {
    DriveStep(env, llm, render, s, h, left);
    hide Drive, ActAll, Results;
  }

  lemma DriveStops(env: Env, llm: seq<Message> -> Reply, render: Outcome -> string, s: Ledger, h: seq<Message>, left: nat)
    requires left == 0 || !GoesOn(env, llm, s, h)
    ensures var end := Drive(env, llm, render, s, h, left);
            && end.prompts == (if left == 0 then [] else [h])
            && (if left > 0 && llm(h).Says?
                then end.ledger == NextLedger(env, llm, s, h) && end.history == h + [FromTurn(llm(h).turn)]
                else end.ledger == s && end.history == h)
  {
    if left > 0 {
      DriveStep(env, llm, render, s, h, left);
      if llm(h).Says? && llm(h).turn.calls == [] { NoCalls(env, s, llm(h).fates); }
    } else {
      DriveEnd(env, llm, render, s, h);
    }
    hide Drive, ActAll, Results;
  }

  lemma NextWellFormed(env: Env, llm: seq<Message> -> Reply, render: Outcome -> string, s: Ledger, h: seq<Message>)
    requires WellFormed(h) && GoesOn(env, llm, s, h)
    ensures var next := NextHistory(env, llm, render, s, h); WellFormed(next) && h <= next && |next| == |h| + 2
  {
    hide WellFormed, ActAll, Results, Answers;
    var turn := llm(h).turn;
    ResultsAnswer(env, s, turn.calls, llm(h).fates, render);
    Extended(h, turn, Results(env, s, turn.calls, llm(h).fates, render));
  }

  /** The agent's history is well formed at every LLM call, and there are at most `left` calls. */
  lemma {:induction false} DrivePrompts(env: Env, llm: seq<Message> -> Reply, render: Outcome -> string, s: Ledger, h: seq<Message>, left: nat)
    requires WellFormed(h)
    ensures PromptsOk(Drive(env, llm, render, s, h, left).prompts, h, left)
    decreases left
  {
    hide WellFormed, Drive, NextHistory, NextLedger, ActAll;
    if left > 0 && GoesOn(env, llm, s, h) {
      var after, next := NextLedger(env, llm, s, h), NextHistory(env, llm, render, s, h);
      NextWellFormed(env, llm, render, s, h);
      DrivePrompts(env, llm, render, after, next, left - 1);
      DriveOn(env, llm, render, s, h, left);
      PromptsCons(Drive(env, llm, render, after, next, left - 1).prompts, h, next, left);
    } else {
      DriveStops(env, llm, render, s, h, left);
    }
  }

  /** Exact page ledger, and as many counted calls as the assistant has made. */
  ghost predicate BooksAgree(env: Env, before: seq<WikiRow>, s: Ledger, h: seq<Message>) {
    Booked(before, s, env.scope) && UpdatesExist(s, env.scope) && s.calls == CallsIn(h)
  }

  lemma TurnKeepsBooks(env: Env, llm: seq<Message> -> Reply, render: Outcome -> string, before: seq<WikiRow>, s: Ledger, h: seq<Message>)
    requires BooksAgree(env, before, s, h) && llm(h).Says?
    ensures BooksAgree(env, before, NextLedger(env, llm, s, h), h + [FromTurn(llm(h).turn)])
    ensures BooksAgree(env, before, NextLedger(env, llm, s, h), NextHistory(env, llm, render, s, h))
  {
    hide Booked, UpdatesExist, ActAll, Results, CallsIn;
    ActAllKeepsBooks(env, before, s, llm(h).turn.calls, llm(h).fates);
    var said := h + [FromTurn(llm(h).turn)];
    CallsInExtend(h, FromTurn(llm(h).turn));
    CallsInExtend(said, ToolResults(Results(env, s, llm(h).turn.calls, llm(h).fates, render)));
  }

  /** Over the whole session the books stay exact. */
  lemma {:induction false} DriveKeepsBooks(env: Env, llm: seq<Message> -> Reply, render: Outcome -> string,
                                           before: seq<WikiRow>, s: Ledger, h: seq<Message>, left: nat)
    requires BooksAgree(env, before, s, h)
    ensures var end := Drive(env, llm, render, s, h, left); BooksAgree(env, before, end.ledger, end.history)
    decreases left
  {
    hide BooksAgree, Drive, NextHistory, NextLedger, ActAll;
    if llm(h).Says? { TurnKeepsBooks(env, llm, render, before, s, h); }
    if left > 0 && GoesOn(env, llm, s, h) {
      DriveOn(env, llm, render, s, h, left);
      DriveKeepsBooks(env, llm, render, before, NextLedger(env, llm, s, h), NextHistory(env, llm, render, s, h), left - 1);
    } else {
      DriveStops(env, llm, render, s, h, left);
    }
  }

  /** So no prompt of a compile is refused for its shape by either provider. */
  lemma EveryPromptAccepted(env: Env, llm: seq<Message> -> Reply, render: Outcome -> string, s: Ledger, excerpt: string, i: nat)
    requires i < |Drive(env, llm, render, s, [UserText(excerpt)], MAX_STEPS).prompts|
    ensures var prompt := Drive(env, llm, render, s, [UserText(excerpt)], MAX_STEPS).prompts[i];
            OpenAiAccepts(ToOpenAi(prompt)) && AnthropicAccepts(ToAnthropic(prompt)) && i < 50
  {
    var h := [UserText(excerpt)];
    assert WellFormed(h);
    DrivePrompts(env, llm, render, s, h, MAX_STEPS);
    var prompt := Drive(env, llm, render, s, h, MAX_STEPS).prompts[i];
    hide WellFormed, Drive, OpenAiAccepts, AnthropicAccepts, ToOpenAi, ToAnthropic;
    OpenAiConversation(prompt);
    AnthropicConversation(prompt);
  }

  // ----- the agent's state, updated in place -----

  // What the handlers do, tool by tool.

  lemma CreateHandled(env: Env, s: Ledger, call: ToolCall, fate: Fate)
    requires call.name == "create_page" && Binds(call.arguments, CREATE_ARGUMENTS, {})
    ensures "slug" in call.arguments && "title" in call.arguments && "content_md" in call.arguments && "summary" in call.arguments
    ensures Handled(env, s, call, fate) == if Creates(env, s, call) then CreatePage(env, s, call.arguments, fate) else s
    ensures Answered(env, s, call, fate) ==
              if Creates(env, s, call) && !fate.RaisesLate? then Created(env.clean(call.arguments["slug"])) else Refused(call.name)
  {
    hide Exists, ValidSlug, CreatePage;
  }

  lemma UpdateHandled(env: Env, s: Ledger, call: ToolCall, fate: Fate)
    requires call.name == "update_page" && Binds(call.arguments, UPDATE_ARGUMENTS, {"summary", "title"})
    ensures "slug" in call.arguments && "new_content_md" in call.arguments
    ensures Handled(env, s, call, fate) == if Updates(env, s, call) then UpdatePage(env, s, call.arguments, fate) else s
    ensures Answered(env, s, call, fate) ==
              if Updates(env, s, call) && !fate.RaisesLate? then
                var slug := env.clean(call.arguments["slug"]);
                Updated(slug, s.rows[Found(s.rows, slug, env.scope, fate.Choice())].version + 2)
              else Refused(call.name)
  {
    hide ValidSlug, UpdatePage;
  }

  lemma OtherHandled(env: Env, s: Ledger, call: ToolCall, fate: Fate)
    requires !(call.name == "create_page" && Binds(call.arguments, CREATE_ARGUMENTS, {}))
    requires !(call.name == "update_page" && Binds(call.arguments, UPDATE_ARGUMENTS, {"summary", "title"}))
    ensures Logs(call) ==> "entry" in call.arguments
    ensures call.name == "read_wiki_page" && Binds(call.arguments, {"slug"}, {}) ==> "slug" in call.arguments
    ensures Handled(env, s, call, fate) ==
              if Logs(call) then s.(rows := AppendLog(s.rows, env.scope, fate.Choice(), call.arguments["entry"]))
              else if Reads(env, s, call) then s.(read := s.read + {env.clean(call.arguments["slug"])})
              else s
    ensures Answered(env, s, call, fate) ==
              if Logs(call) then Logged(call.arguments["entry"])
              else if Reads(env, s, call) then
                Outcome.ReadPage(s.rows[Found(s.rows, env.clean(call.arguments["slug"]), env.scope, fate.Choice())])
              else if call.name in READERS then Data(call.name)
              else Refused(call.name)
  {
    hide ValidSlug, AppendLog;
  }

  class AgentState {
    const env: Env
    var rows: seq<WikiRow>
    var pagesCreated: seq<string>
    ghost var strays: seq<string>
    var pagesUpdated: seq<string>
    var readPages: set<string>
    var toolCallCount: nat
    var finished: bool
    var report: string

    ghost function View(): Ledger
      reads this
    {
      Ledger(rows, pagesCreated, strays, pagesUpdated, readPages, toolCallCount, finished, report)
    }

    constructor (env: Env, rows: seq<WikiRow>)
      ensures this.env == env && View() == Ledger(rows, [], [], [], {}, 0, false, "")
    {
      this.env := env;
      this.rows := rows;
      pagesCreated := [];
      strays := [];
      pagesUpdated := [];
      readPages := {};
      toolCallCount := 0;
      finished := false;
      report := "";
    }

    method CreatePage(rawSlug: string, title: string, contentMd: string, summary: string, fate: Fate) returns (outcome: Outcome)
      requires !fate.Raises?
      modifies this`rows, this`pagesCreated, this`strays
      ensures var slug := env.clean(rawSlug);
              if ValidSlug(slug) && !Exists(old(rows), slug, env.scope) then
                && outcome == (if fate.RaisesLate? then Refused("create_page") else Created(slug))
                && pagesCreated == (if fate.RaisesLate? then old(pagesCreated) else old(pagesCreated) + [slug])
                && strays == (if fate.RaisesLate? || fate.Raced? then old(strays) + [slug] else old(strays))
                && rows == InsertRow(AtInsert(env, old(rows), slug, fate), slug, env.scope, title, summary,
                                     MarkerStripping.StripContent(contentMd, env.images))
              else
                outcome == Refused("create_page") && pagesCreated == old(pagesCreated) && strays == old(strays) && rows == old(rows)
    {
      hide MarkerStripping.StripContent;
      var slug := env.clean(rawSlug);
      if !ValidSlug(slug) { return Refused("create_page"); }
      if Found(rows, slug, env.scope, fate.Choice()) < |rows| { return Refused("create_page"); }
      var content := MarkerStripping.StripContent(contentMd, env.images);
      if fate.Raced? {
        rows := InsertRow(rows, slug, env.scope, fate.title, fate.summary, fate.content);
        strays := strays + [slug];
      }
      rows := rows + [WikiRow(FreshId(rows), slug, env.scope, title, summary, content, 1)];
      if fate.RaisesLate? {
        strays := strays + [slug];
        return Refused("create_page");
      }
      pagesCreated := pagesCreated + [slug];
      return Created(slug);
    }

    method UpdatePage(rawSlug: string, newContentMd: string, summary: Option<string>, title: Option<string>, fate: Fate) returns (outcome: Outcome)
      requires !fate.Raises?
      modifies this`rows, this`pagesUpdated
      ensures var slug, choice := env.clean(rawSlug), fate.Choice();
              if Exists(old(rows), slug, env.scope) then
                && outcome == (if fate.RaisesLate? then Refused("update_page")
                               else Updated(slug, old(rows)[Found(old(rows), slug, env.scope, choice)].version + 2))
                && pagesUpdated == (if fate.RaisesLate? then old(pagesUpdated) else old(pagesUpdated) + [slug])
                && rows == UpdateRow(old(rows), slug, env.scope, choice, MarkerStripping.StripContent(newContentMd, env.images), summary, title)
              else
                outcome == Refused("update_page") && pagesUpdated == old(pagesUpdated) && rows == old(rows)
    {
      hide MarkerStripping.StripContent;
      var slug := env.clean(rawSlug);
      var k := Found(rows, slug, env.scope, fate.Choice());
      if k == |rows| { return Refused("update_page"); }
      var row := rows[k].(content := MarkerStripping.StripContent(newContentMd, env.images));
      if summary.Some? { row := row.(summary := summary.value); }
      if title.Some? { row := row.(title := title.value); }
      row := row.(version := row.version + 1);
      rows := rows[k := row];
      if fate.RaisesLate? { return Refused("update_page"); }
      pagesUpdated := pagesUpdated + [slug];
      return Updated(slug, rows[k].version + 1);
    }

    method ReadPage(rawSlug: string, choice: nat) returns (outcome: Outcome)
      modifies this`readPages
      ensures var slug := env.clean(rawSlug);
              if Exists(rows, slug, env.scope) then
                outcome == Outcome.ReadPage(rows[Found(rows, slug, env.scope, choice)]) && readPages == old(readPages) + {slug}
              else outcome == Refused("read_wiki_page") && readPages == old(readPages)
    {
      var slug := env.clean(rawSlug);
      var k := Found(rows, slug, env.scope, choice);
      if k == |rows| { return Refused("read_wiki_page"); }
      readPages := readPages + {slug};
      return Outcome.ReadPage(rows[k]);
    }

    /** Runs the handler of a page tool. */
    method Handle(call: ToolCall, fate: Fate) returns (outcome: Outcome)
      requires !fate.Raises?
      modifies this`rows, this`pagesCreated, this`strays, this`pagesUpdated, this`readPages
      ensures View() == Handled(env, old(View()), call, fate)
      ensures outcome == Answered(env, old(View()), call, fate)
    {
      hide MarkerStripping.StripContent, ValidSlug, InsertRow, UpdateRow, AppendLog, Find, Found, AtInsert, Lookup, Exists, Binds, Handled, Answered;
      var args := call.arguments;
      if call.name == "create_page" && Binds(args, CREATE_ARGUMENTS, {}) {
        CreateHandled(env, View(), call, fate);
        outcome := CreatePage(args["slug"], args["title"], args["content_md"], args["summary"], fate);
      } else if call.name == "update_page" && Binds(args, UPDATE_ARGUMENTS, {"summary", "title"}) {
        UpdateHandled(env, View(), call, fate);
        outcome := UpdatePage(args["slug"], args["new_content_md"], Lookup(args, "summary"), Lookup(args, "title"), fate);
      } else {
        OtherHandled(env, View(), call, fate);
        if call.name == "append_log" && Binds(args, {"entry"}, {}) {
          rows := AppendLog(rows, env.scope, fate.Choice(), args["entry"]);
          outcome := Logged(args["entry"]);
        } else if call.name == "read_wiki_page" && Binds(args, {"slug"}, {}) {
          outcome := ReadPage(args["slug"], fate.Choice());
        } else if call.name in READERS {
          outcome := Data(call.name);
        } else {
          outcome := Refused(call.name);
        }
      }
    }

    /** Counts the call, then runs its handler; a handler that raises at once leaves only the count. */
    method Dispatch(call: ToolCall, fate: Fate) returns (outcome: Outcome)
      modifies this
      ensures View() == Act(env, old(View()), call, fate)
      ensures outcome == Returned(env, old(View()), call, fate)
    {
      hide Handled, Answered, ValidSlug;
      ghost var before := View();
      toolCallCount := toolCallCount + 1;
      ghost var counted := View();
      assert counted == before.(calls := before.calls + 1);
      AnsweredByRows(env, before, counted, call, fate);
      if call.name == "finish" && Binds(call.arguments, {"report"}, {}) {
        finished := true;
        report := call.arguments["report"];
        return Finished(report);
      }
      if fate.Raises? { return Refused(call.name); }
      outcome := Handle(call, fate);
    }

    /** The agent loop: at most `MAX_STEPS` LLM calls, each with the whole history so far. */
    method CompileSource(excerpt: string, llm: seq<Message> -> Reply, render: Outcome -> string)
      returns (messages: seq<Message>, prompts: seq<seq<Message>>, raised: bool)
      modifies this
      ensures Session(View(), messages, prompts, raised) == Drive(env, llm, render, old(View()), [UserText(excerpt)], MAX_STEPS)
    {
      hide Drive, ActAll, Results;
      messages := [UserText(excerpt)];
      prompts := [];
      raised := false;
      ghost var whole := Drive(env, llm, render, View(), messages, MAX_STEPS);
      var step := 0;
      while step < MAX_STEPS
        invariant 0 <= step <= MAX_STEPS && !raised
        invariant whole == Prefixed(prompts, Drive(env, llm, render, View(), messages, MAX_STEPS - step))
      {
        ghost var start := View();
        DriveStep(env, llm, render, start, messages, MAX_STEPS - step);
        var reply := llm(messages);
        prompts := prompts + [messages];
        match reply {
          case TimedOut => return;
          case Unsupported => return;
          case CallFails => raised := true; return;
          case Says(turn, fates) =>
            messages := messages + [FromTurn(turn)];
            if turn.calls == [] {
              NoCalls(env, start, fates);
              return;
            }
            var results := HandleCalls(turn.calls, fates, render);
            if finished { return; }
            messages := messages + [ToolResults(results)];
            PrefixMoves(prompts[..|prompts| - 1], prompts[|prompts| - 1], Drive(env, llm, render, View(), messages, MAX_STEPS - step - 1));
        }
        step := step + 1;
      }
      DriveEnd(env, llm, render, View(), messages);
    }

    method HandleCalls(calls: seq<ToolCall>, fates: Fates, render: Outcome -> string) returns (results: seq<ToolResult>)
      modifies this
      ensures View() == ActAll(env, old(View()), calls, fates)
      ensures results == Results(env, old(View()), calls, fates, render)
    {
      results := [];
      for i := 0 to |calls|
        invariant View() == ActAll(env, old(View()), calls[..i], fates)
        invariant results == Results(env, old(View()), calls[..i], fates, render)
      {
        assert calls[..i + 1][..i] == calls[..i];
        var outcome := Dispatch(calls[i], fates(i));
        results := results + [ToolResult(calls[i].id, calls[i].name, render(outcome))];
      }
      assert calls[..|calls|] == calls;
    }
  }
}
