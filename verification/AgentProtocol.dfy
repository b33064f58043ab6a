/**
 Neutral messages of the agent loop and their conversion to the OpenAI and Anthropic formats.

 The converters are loops proved equal to functions. What the two providers demand of a
 conversation is written down separately, as acceptors, and related to the conversions by lemmas.
 */
module AgentProtocol {
  import opened Options

  datatype ToolCall = ToolCall(id: string, name: string, arguments: map<string, string>)

  datatype AssistantTurn = AssistantTurn(text: Option<string>, calls: seq<ToolCall>, raw: Option<string>)

  datatype ToolResult = ToolResult(id: string, name: string, content: string)

  datatype Message =
    | UserText(content: string)
    | ToolResults(results: seq<ToolResult>)
    | Assistant(text: Option<string>, calls: seq<ToolCall>, raw: Option<string>)

  function FromTurn(turn: AssistantTurn): Message {
    Assistant(turn.text, turn.calls, turn.raw)
  }

  /** The history takes over a turn as it was received. */
  lemma TurnIsKept(turn: AssistantTurn)
    ensures FromTurn(turn).Assistant? && AssistantTurn(FromTurn(turn).text, FromTurn(turn).calls, FromTurn(turn).raw) == turn
  {}

  // ----- well-formed histories -----

  /** One result per call, with its id and name, in order. */
  predicate Answers(results: seq<ToolResult>, calls: seq<ToolCall>) {
    && |results| == |calls|
    && forall i | 0 <= i < |calls| :: results[i].id == calls[i].id && results[i].name == calls[i].name
  }

  /** A user message first, an assistant with calls at odd positions, their results at even ones. */
  predicate ShapeAt(h: seq<Message>, i: nat)
    requires i < |h|
  {
    if i == 0 then h[i].UserText?
    else if i % 2 == 1 then h[i].Assistant? && h[i].calls != []
    else h[i - 1].Assistant? && h[i].ToolResults? && Answers(h[i].results, h[i - 1].calls)
  }

  /** One user message, then any number of (assistant with calls, their results) pairs. */
  ghost predicate WellFormed(h: seq<Message>) {
    |h| % 2 == 1 && forall i | 0 <= i < |h| :: ShapeAt(h, i)
  }

  lemma WellFormedExtend(h: seq<Message>, turn: Message, answer: Message)
    requires WellFormed(h) && turn.Assistant? && turn.calls != []
    requires answer.ToolResults? && Answers(answer.results, turn.calls)
    ensures WellFormed(h + [turn, answer])
  {
    var all := h + [turn, answer];
    hide Answers;
    forall i | 0 <= i < |all| ensures ShapeAt(all, i) {
      if i < |h| { assert ShapeAt(h, i); }
    }
  }

  /** A longer history ends in a pair, before which it is a well-formed history too. */
  lemma WellFormedSplit(h: seq<Message>) returns (init: seq<Message>, turn: Message, answer: Message)
    requires WellFormed(h) && |h| > 1
    ensures h == init + [turn, answer] && |init| == |h| - 2 && WellFormed(init)
    ensures turn.Assistant? && turn.calls != [] && answer.ToolResults? && Answers(answer.results, turn.calls)
  {
    init, turn, answer := h[..|h| - 2], h[|h| - 2], h[|h| - 1];
    assert ShapeAt(h, |h| - 2) && ShapeAt(h, |h| - 1);
    hide Answers;
    forall i | 0 <= i < |init| ensures ShapeAt(init, i) {
      assert ShapeAt(h, i);
    }
  }

  // ----- OpenAI -----

  datatype OpenAiMessage =
    | OpenAiUser(content: string)
    | OpenAiTool(callId: string, content: string)
    | OpenAiAssistant(text: Option<string>, calls: seq<ToolCall>) // no `tool_calls` key when empty

  function ToolMessages(results: seq<ToolResult>): (r: seq<OpenAiMessage>)
    ensures |r| == |results| && forall i | 0 <= i < |r| :: r[i] == OpenAiTool(results[i].id, results[i].content)
  {
    seq(|results|, i requires 0 <= i < |results| => OpenAiTool(results[i].id, results[i].content))
  }

  function OpenAiOf(m: Message): seq<OpenAiMessage> {
    match m
    case UserText(content) => [OpenAiUser(content)]
    case ToolResults(results) => ToolMessages(results)
    case Assistant(text, calls, _) => [OpenAiAssistant(text, calls)]
  }

  function ToOpenAi(h: seq<Message>): seq<OpenAiMessage> {
    if h == [] then [] else ToOpenAi(h[..|h| - 1]) + OpenAiOf(h[|h| - 1])
  }

  method NeutralToOpenAiMessages(messages: seq<Message>) returns (result: seq<OpenAiMessage>)
    ensures result == ToOpenAi(messages)
  {
    result := [];
    for i := 0 to |messages|
      invariant result == ToOpenAi(messages[..i])
    {
      assert messages[..i + 1][..i] == messages[..i];
      match messages[i] {
        case UserText(content) => result := result + [OpenAiUser(content)];
        case ToolResults(results) =>
          var before := result;
          for k := 0 to |results|
            invariant result == before + ToolMessages(results[..k])
          {
            assert results[..k + 1][..k] == results[..k];
            result := result + [OpenAiTool(results[k].id, results[k].content)];
          }
          assert results[..|results|] == results;
        case Assistant(text, calls, _) => result := result + [OpenAiAssistant(text, calls)];
      }
    }
    assert messages[..|messages|] == messages;
  }

  /** Ids that are still to be answered after `ms`, or `None` if `ms` breaks the protocol. */
  function PendingIds(ms: seq<OpenAiMessage>): Option<seq<string>> {
    if ms == [] then Some([])
    else
      match PendingIds(ms[..|ms| - 1])
      case None => None
      case Some(ids) =>
        match ms[|ms| - 1]
        case OpenAiTool(id, _) => if ids != [] && ids[0] == id then Some(ids[1..]) else None
        case OpenAiUser(_) => if ids == [] then Some([]) else None
        case OpenAiAssistant(_, calls) => if ids == [] then Some(Ids(calls)) else None
  }

  function Ids(calls: seq<ToolCall>): seq<string> {
    seq(|calls|, i requires 0 <= i < |calls| => calls[i].id)
  }

  /** Every assistant call is answered by a tool message, in order, before anything else is said. */
  predicate OpenAiAccepts(ms: seq<OpenAiMessage>) {
    ms != [] && ms[0].OpenAiUser? && PendingIds(ms) == Some([])
  }

  lemma {:induction false} PendingAfterTools(ms: seq<OpenAiMessage>, results: seq<ToolResult>, ids: seq<string>)
    requires PendingIds(ms) == Some(ids) && |results| <= |ids|
    requires forall i | 0 <= i < |results| :: results[i].id == ids[i]
    ensures PendingIds(ms + ToolMessages(results)) == Some(ids[|results|..])
  {
    if results == [] {
      assert ms + ToolMessages(results) == ms;
    } else {
      var n := |results| - 1;
      PendingAfterTools(ms, results[..n], ids);
      var all := ms + ToolMessages(results);
      assert all[..|all| - 1] == ms + ToolMessages(results[..n]);
    }
  }

  /** Each pair becomes the assistant message followed by exactly its tool messages. */
  lemma OpenAiPair(h: seq<Message>, turn: Message, answer: Message)
    requires turn.Assistant? && answer.ToolResults?
    ensures ToOpenAi(h + [turn, answer]) == ToOpenAi(h) + [OpenAiAssistant(turn.text, turn.calls)] + ToolMessages(answer.results)
  {
    var all := h + [turn, answer];
    assert all[..|all| - 1] == h + [turn];
    assert (h + [turn])[..|h|] == h;
  }

  lemma PairAnswered(ms: seq<OpenAiMessage>, turn: Message, results: seq<ToolResult>)
    requires PendingIds(ms) == Some([]) && turn.Assistant? && Answers(results, turn.calls)
    ensures PendingIds(ms + [OpenAiAssistant(turn.text, turn.calls)] + ToolMessages(results)) == Some([])
  {
    var asked := ms + [OpenAiAssistant(turn.text, turn.calls)];
    assert asked[..|asked| - 1] == ms;
    assert PendingIds(asked) == Some(Ids(turn.calls));
    hide PendingIds;
    PendingAfterTools(asked, results, Ids(turn.calls));
    assert Ids(turn.calls)[|results|..] == [];
  }

  lemma Opening(h: seq<Message>)
    requires |h| == 1 && h[0].UserText?
    ensures ToOpenAi(h) == [OpenAiUser(h[0].content)] && OpenAiAccepts(ToOpenAi(h))
  {
    assert h[..0] == [];
    assert [OpenAiUser(h[0].content)][..0] == [];
  }

  /** Every well-formed history is a conversation OpenAI accepts. */
  lemma {:induction false} OpenAiConversation(h: seq<Message>)
    requires WellFormed(h)
    ensures OpenAiAccepts(ToOpenAi(h))
    decreases |h|
  {
    if |h| == 1 {
      assert ShapeAt(h, 0);
      Opening(h);
    } else {
      var init, turn, answer := WellFormedSplit(h);
      OpenAiConversation(init);
      OpenAiPair(init, turn, answer);
      PairAnswered(ToOpenAi(init), turn, answer.results);
    }
    hide ToOpenAi, ToolMessages, PendingIds, WellFormed;
  }

  // ----- Anthropic -----

  datatype Role = User | Model

  datatype Block =
    | TextBlock(text: string)
    | ToolUse(id: string, name: string, arguments: map<string, string>)
    | ToolResultBlock(id: string, content: string)

  datatype Body = Plain(text: string) | Blocks(blocks: seq<Block>)

  datatype AnthropicMessage = AnthropicMessage(role: Role, body: Body)

  function ToolUses(calls: seq<ToolCall>): (r: seq<Block>)
    ensures |r| == |calls| && forall i | 0 <= i < |r| :: r[i] == ToolUse(calls[i].id, calls[i].name, calls[i].arguments)
  {
    seq(|calls|, i requires 0 <= i < |calls| => ToolUse(calls[i].id, calls[i].name, calls[i].arguments))
  }

  function ResultBlocks(results: seq<ToolResult>): (r: seq<Block>)
    ensures |r| == |results| && forall i | 0 <= i < |r| :: r[i] == ToolResultBlock(results[i].id, results[i].content)
  {
    seq(|results|, i requires 0 <= i < |results| => ToolResultBlock(results[i].id, results[i].content))
  }

  /** Text that is present and not empty. */
  function Spoken(text: Option<string>): seq<Block> {
    if text.Some? && text.value != "" then [TextBlock(text.value)] else []
  }

  function AnthropicOf(m: Message): AnthropicMessage {
    match m
    case UserText(content) => AnthropicMessage(User, Plain(content))
    case ToolResults(results) => AnthropicMessage(User, Blocks(ResultBlocks(results)))
    case Assistant(text, calls, _) =>
      var blocks := Spoken(text) + ToolUses(calls);
      AnthropicMessage(Model, Blocks(if blocks == [] then [TextBlock("")] else blocks))
  }

  function ToAnthropic(h: seq<Message>): (r: seq<AnthropicMessage>)
    ensures |r| == |h| && forall i | 0 <= i < |h| :: r[i] == AnthropicOf(h[i])
  {
    if h == [] then [] else ToAnthropic(h[..|h| - 1]) + [AnthropicOf(h[|h| - 1])]
  }

  method NeutralToAnthropicMessages(messages: seq<Message>) returns (result: seq<AnthropicMessage>)
    ensures result == ToAnthropic(messages)
  {
    result := [];
    for i := 0 to |messages|
      invariant result == ToAnthropic(messages[..i])
    {
      assert messages[..i + 1][..i] == messages[..i];
      match messages[i] {
        case UserText(content) => result := result + [AnthropicMessage(User, Plain(content))];
        case ToolResults(results) => result := result + [AnthropicMessage(User, Blocks(ResultBlocks(results)))];
        case Assistant(text, calls, _) =>
          var blocks: seq<Block> := [];
          if text.Some? && text.value != "" { blocks := blocks + [TextBlock(text.value)]; }
          for k := 0 to |calls|
            invariant blocks == Spoken(text) + ToolUses(calls[..k])
          {
            assert calls[..k + 1][..k] == calls[..k];
            blocks := blocks + [ToolUse(calls[k].id, calls[k].name, calls[k].arguments)];
          }
          assert calls[..|calls|] == calls;
          result := result + [AnthropicMessage(Model, Blocks(if blocks == [] then [TextBlock("")] else blocks))];
      }
    }
    assert messages[..|messages|] == messages;
  }

  /** Ids of the tool-use blocks of an assistant message, in order. */
  function UsedIds(blocks: seq<Block>): seq<string> {
    if blocks == [] then []
    else UsedIds(blocks[..|blocks| - 1]) + if blocks[|blocks| - 1].ToolUse? then [blocks[|blocks| - 1].id] else []
  }

  /** All blocks are results, for exactly these ids, in order. */
  predicate ResultsFor(body: Body, ids: seq<string>) {
    && body.Blocks? && |body.blocks| == |ids|
    && forall i | 0 <= i < |ids| :: body.blocks[i].ToolResultBlock? && body.blocks[i].id == ids[i]
  }

  predicate AcceptedAt(ms: seq<AnthropicMessage>, i: nat)
    requires i < |ms|
  {
    && ms[i].role == (if i % 2 == 0 then User else Model)
    && (ms[i].body.Blocks? ==> ms[i].body.blocks != [] && TextBlock("") !in ms[i].body.blocks)
    && (0 < i && i % 2 == 0 ==> ms[i - 1].body.Blocks? && ResultsFor(ms[i].body, UsedIds(ms[i - 1].body.blocks)))
  }

  /** Roles alternate from `user`, no block list and no block of text is empty, and each assistant message is answered by the next one. */
  ghost predicate AnthropicAccepts(ms: seq<AnthropicMessage>) {
    |ms| % 2 == 1 && forall i | 0 <= i < |ms| :: AcceptedAt(ms, i)
  }

  lemma {:induction false} UsedIdsOf(text: Option<string>, calls: seq<ToolCall>)
    ensures UsedIds(Spoken(text) + ToolUses(calls)) == Ids(calls)
  {
    var blocks := Spoken(text) + ToolUses(calls);
    if calls == [] {
      assert blocks == Spoken(text);
    } else {
      var n := |calls| - 1;
      UsedIdsOf(text, calls[..n]);
      assert blocks[..|blocks| - 1] == Spoken(text) + ToolUses(calls[..n]);
      assert Ids(calls) == Ids(calls[..n]) + [calls[n].id];
    }
  }

  /** Whatever the history, an assistant message never converts to an empty block list. */
  lemma NeverEmptyBlocks(h: seq<Message>, i: nat)
    requires i < |h| && h[i].Assistant?
    ensures ToAnthropic(h)[i].body.Blocks? && ToAnthropic(h)[i].body.blocks != []
  {
    hide ToAnthropic, ToolUses;
  }

  lemma AnthropicAnswer(turn: Message, answer: Message)
    requires turn.Assistant? && turn.calls != [] && answer.ToolResults? && Answers(answer.results, turn.calls)
    ensures var asked, told := AnthropicOf(turn).body, AnthropicOf(answer).body;
            told.Blocks? && told.blocks != [] && asked.Blocks? && ResultsFor(told, UsedIds(asked.blocks))
  {
    UsedIdsOf(turn.text, turn.calls);
    hide UsedIds, ToolUses, Spoken;
    assert Spoken(turn.text) + ToolUses(turn.calls) != [] by { assert |ToolUses(turn.calls)| > 0; }
  }

  lemma AnthropicAt(h: seq<Message>, i: nat)
    requires i < |h| && ShapeAt(h, i) && (0 < i ==> ShapeAt(h, i - 1))
    ensures AcceptedAt(ToAnthropic(h), i)
  {
    hide ToAnthropic, UsedIds, ToolUses, ResultBlocks, ResultsFor, Answers;
    if i % 2 == 1 {
      NeverEmptyBlocks(h, i);
    } else if i > 0 {
      AnthropicAnswer(h[i - 1], h[i]);
    }
  }

  /** Every well-formed history is a conversation Anthropic accepts. */
  lemma AnthropicConversation(h: seq<Message>)
    requires WellFormed(h)
    ensures AnthropicAccepts(ToAnthropic(h))
  {
    hide ShapeAt, AcceptedAt, ToAnthropic;
    forall i | 0 <= i < |h| ensures AcceptedAt(ToAnthropic(h), i) {
      assert ShapeAt(h, i) && (0 < i ==> ShapeAt(h, i - 1));
      AnthropicAt(h, i);
    }
  }

  // ----- nothing is lost -----

  /** What a provider that keeps its own raw content aside can see of a message. */
  function DropRaw(m: Message): Message {
    if m.Assistant? then m.(raw := None) else m
  }

  function DropRaws(h: seq<Message>): (r: seq<Message>)
    ensures |r| == |h| && forall i | 0 <= i < |h| :: r[i] == DropRaw(h[i])
  {
    seq(|h|, i requires 0 <= i < |h| => DropRaw(h[i]))
  }

  /** Reads an OpenAI conversation back: tool messages join the results of the preceding assistant message. */
  function Regroup(ms: seq<OpenAiMessage>): seq<Message> {
    if ms == [] then []
    else
      var h, m := Regroup(ms[..|ms| - 1]), ms[|ms| - 1];
      match m
      case OpenAiUser(content) => h + [UserText(content)]
      case OpenAiAssistant(text, calls) => h + [Assistant(text, calls, None)]
      case OpenAiTool(id, content) => Join(h, id, content)
  }

  function Join(h: seq<Message>, id: string, content: string): seq<Message> {
    if h != [] && h[|h| - 1].Assistant? && h[|h| - 1].calls != [] then
      h + [ToolResults([ToolResult(id, h[|h| - 1].calls[0].name, content)])]
    else if |h| > 1 && h[|h| - 1].ToolResults? && h[|h| - 2].Assistant? && |h[|h| - 1].results| < |h[|h| - 2].calls| then
      var done := h[|h| - 1].results;
      h[..|h| - 1] + [ToolResults(done + [ToolResult(id, h[|h| - 2].calls[|done|].name, content)])]
    else h
  }

  lemma JoinFirst(h: seq<Message>, turn: Message, r: ToolResult)
    requires turn.Assistant? && turn.calls != [] && r.name == turn.calls[0].name
    ensures Join(h + [turn], r.id, r.content) == h + [turn, ToolResults([r])]
  {}

  lemma JoinNext(h: seq<Message>, turn: Message, results: seq<ToolResult>, r: ToolResult)
    requires turn.Assistant? && |results| < |turn.calls| && r.name == turn.calls[|results|].name
    ensures Join(h + [turn, ToolResults(results)], r.id, r.content) == h + [turn, ToolResults(results + [r])]
  {}

  lemma RegroupTool(ms: seq<OpenAiMessage>, r: ToolResult)
    ensures Regroup(ms + [OpenAiTool(r.id, r.content)]) == Join(Regroup(ms), r.id, r.content)
  {
    assert (ms + [OpenAiTool(r.id, r.content)])[..|ms|] == ms;
  }

  lemma RegroupAssistant(ms: seq<OpenAiMessage>, text: Option<string>, calls: seq<ToolCall>)
    ensures Regroup(ms + [OpenAiAssistant(text, calls)]) == Regroup(ms) + [Assistant(text, calls, None)]
  {
    assert (ms + [OpenAiAssistant(text, calls)])[..|ms|] == ms;
  }

  lemma ToolMessagesSnoc(ms: seq<OpenAiMessage>, results: seq<ToolResult>)
    requires results != []
    ensures var n := |results| - 1;
            ms + ToolMessages(results) == ms + ToolMessages(results[..n]) + [OpenAiTool(results[n].id, results[n].content)]
  {}

  lemma {:induction false} RegroupTools(ms: seq<OpenAiMessage>, h: seq<Message>, turn: Message, results: seq<ToolResult>)
    requires turn.Assistant? && Regroup(ms) == h + [turn] && 0 < |results| <= |turn.calls|
    requires forall i | 0 <= i < |results| :: results[i].name == turn.calls[i].name
    ensures Regroup(ms + ToolMessages(results)) == h + [turn, ToolResults(results)]
  {
    hide Regroup, ToolMessages, Join;
    var n := |results| - 1;
    var some, r := ms + ToolMessages(results[..n]), results[n];
    ToolMessagesSnoc(ms, results);
    RegroupTool(some, r);
    assert results == results[..n] + [r];
    if n == 0 {
      assert results[..n] == [];
      NoToolMessages(ms);
      JoinFirst(h, turn, r);
    } else {
      RegroupTools(ms, h, turn, results[..n]);
      JoinNext(h, turn, results[..n], r);
    }
  }

  lemma NoToolMessages(ms: seq<OpenAiMessage>)
    ensures ms + ToolMessages([]) == ms
  {}

  lemma RegroupOpening(h: seq<Message>)
    requires |h| == 1 && h[0].UserText?
    ensures Regroup(ToOpenAi(h)) == DropRaws(h)
  {
    Opening(h);
    hide ToOpenAi;
    assert [OpenAiUser(h[0].content)][..0] == [];
    assert Regroup([OpenAiUser(h[0].content)]) == [] + [UserText(h[0].content)];
  }

  /** The OpenAI form of a well-formed history determines it, raw content aside. */
  lemma {:induction false} OpenAiRoundTrip(h: seq<Message>)
    requires WellFormed(h)
    ensures Regroup(ToOpenAi(h)) == DropRaws(h)
    decreases |h|
  {
    if |h| == 1 {
      assert ShapeAt(h, 0);
      RegroupOpening(h);
    } else {
      var init, turn, answer := WellFormedSplit(h);
      OpenAiRoundTrip(init);
      OpenAiPair(init, turn, answer);
      RegroupAssistant(ToOpenAi(init), turn.text, turn.calls);
      var asked := ToOpenAi(init) + [OpenAiAssistant(turn.text, turn.calls)];
      RegroupTools(asked, DropRaws(init), DropRaw(turn), answer.results);
      assert DropRaws(h) == DropRaws(init) + [DropRaw(turn), answer];
    }
    hide ToOpenAi, ToolMessages, WellFormed, Regroup, Answers;
  }

  /** Anthropic also merges absent and empty text. */
  function Canonical(m: Message): Message {
    match m
    case Assistant(text, calls, _) => Assistant(if text == Some("") then None else text, calls, None)
    case _ => m
  }

  function CallsOf(blocks: seq<Block>): seq<ToolCall> {
    if blocks == [] then []
    else
      var last := blocks[|blocks| - 1];
      CallsOf(blocks[..|blocks| - 1]) + if last.ToolUse? then [ToolCall(last.id, last.name, last.arguments)] else []
  }

  function TextOf(blocks: seq<Block>): Option<string> {
    if blocks != [] && blocks[0].TextBlock? && blocks[0].text != "" then Some(blocks[0].text) else None
  }

  lemma CallsOfUse(blocks: seq<Block>, c: ToolCall)
    ensures CallsOf(blocks + [ToolUse(c.id, c.name, c.arguments)]) == CallsOf(blocks) + [c]
  {
    assert (blocks + [ToolUse(c.id, c.name, c.arguments)])[..|blocks|] == blocks;
  }

  lemma {:induction false} CallsOfUses(text: Option<string>, calls: seq<ToolCall>)
    ensures CallsOf(Spoken(text) + ToolUses(calls)) == calls
  {
    if calls == [] {
      assert Spoken(text) + ToolUses(calls) == Spoken(text);
      assert [TextBlock("")][..0] == [];
    } else {
      var n := |calls| - 1;
      var c := calls[n];
      CallsOfUses(text, calls[..n]);
      var some := Spoken(text) + ToolUses(calls[..n]);
      assert Spoken(text) + ToolUses(calls) == some + [ToolUse(c.id, c.name, c.arguments)];
      CallsOfUse(some, c);
      assert calls == calls[..n] + [c];
      hide CallsOf, ToolUses;
    }
  }

  /** The Anthropic form of an assistant message determines it up to `Canonical`, with or without calls. */
  lemma AnthropicRoundTrip(m: Message)
    requires m.Assistant?
    ensures var blocks := AnthropicOf(m).body.blocks; Canonical(m) == Assistant(TextOf(blocks), CallsOf(blocks), None)
  {
    CallsOfUses(m.text, m.calls);
    var blocks := Spoken(m.text) + ToolUses(m.calls);
    if blocks == [] {
      assert m.calls == [];
      assert [TextBlock("")][..0] == [];
    }
  }

  /** The results a block list carries; the calls before it give their names. */
  function ResultsIn(blocks: seq<Block>, calls: seq<ToolCall>): seq<ToolResult> {
    seq(|blocks|, k requires 0 <= k < |blocks| =>
      if blocks[k].ToolResultBlock? && k < |calls| then ToolResult(blocks[k].id, calls[k].name, blocks[k].content)
      else ToolResult("", "", ""))
  }

  /** One message of an Anthropic conversation read back, by that conversation alone. */
  function ReadAt(ms: seq<AnthropicMessage>, i: nat): Message
    requires i < |ms|
  {
    match ms[i].body
    case Plain(text) => UserText(text)
    case Blocks(blocks) =>
      if ms[i].role == Model then Assistant(TextOf(blocks), CallsOf(blocks), None)
      else if i > 0 && ms[i - 1].body.Blocks? then ToolResults(ResultsIn(blocks, CallsOf(ms[i - 1].body.blocks)))
      else ToolResults([])
  }

  lemma ReadUser(h: seq<Message>, i: nat)
    requires i < |h| && h[i].UserText?
    ensures ReadAt(ToAnthropic(h), i) == h[i]
  {
    hide ToAnthropic;
  }

  lemma ReadAssistant(h: seq<Message>, i: nat)
    requires i < |h| && h[i].Assistant?
    ensures ToAnthropic(h)[i].body.Blocks? && CallsOf(ToAnthropic(h)[i].body.blocks) == h[i].calls
    ensures ReadAt(ToAnthropic(h), i) == Canonical(h[i])
  {
    AnthropicRoundTrip(h[i]);
    hide ToAnthropic, CallsOf, TextOf, ToolUses;
  }

  lemma ReadResults(h: seq<Message>, i: nat)
    requires 0 < i < |h| && h[i].ToolResults? && h[i - 1].Assistant? && Answers(h[i].results, h[i - 1].calls)
    ensures ReadAt(ToAnthropic(h), i) == h[i]
  {
    ReadAssistant(h, i - 1);
    hide ToAnthropic, CallsOf, TextOf;
    assert ResultsIn(ResultBlocks(h[i].results), h[i - 1].calls) == h[i].results;
  }

  /**
   The Anthropic form of a well-formed history determines it: the user's text, every result with its id, name
   and content, and every assistant turn up to `Canonical`.
   */
  lemma AnthropicHistory(h: seq<Message>, i: nat)
    requires WellFormed(h) && i < |h|
    ensures |ToAnthropic(h)| == |h| && ReadAt(ToAnthropic(h), i) == Canonical(h[i])
  {
    assert ShapeAt(h, i) && (0 < i ==> ShapeAt(h, i - 1));
    hide ToAnthropic, ReadAt, Answers, WellFormed;
    if i == 0 {
      ReadUser(h, i);
    } else if i % 2 == 1 {
      ReadAssistant(h, i);
    } else {
      ReadResults(h, i);
    }
  }
}
