// Every accepted request, strict or lenient, message by message: what the chat
// request says in terms of the blocks' own members; and exactly which requests
// are accepted.

module RequestMeaning {
  import opened Prelude
  import opened Strings
  import opened RequestModel
  import opened RequestContent

  // ---- the blocks by what becomes of them ----

  predicate Payload(b: Block) {
    b.kind == TextBlock || b.kind == ImageBlock || b.kind == DocumentBlock || b.kind == SearchResultBlock
  }

  predicate Thinks(b: Block) {
    b.kind == ThinkingBlock || b.kind == RedactedBlock
  }

  function Filter(keep: Block -> bool, blocks: seq<Block>): seq<Block> {
    if blocks == [] then []
    else Filter(keep, blocks[..|blocks| - 1]) + if keep(blocks[|blocks| - 1]) then [blocks[|blocks| - 1]] else []
  }

  const IsTold: Block -> bool := (b: Block) => Payload(b) && !Silent(b)
  const IsUse: Block -> bool := (b: Block) => b.kind == ToolUseBlock
  const IsResult: Block -> bool := (b: Block) => b.kind == ToolResultBlock
  const IsThought: Block -> bool := (b: Block) => Thinks(b)

  function Told(blocks: seq<Block>): seq<Block> { Filter(IsTold, blocks) }
  function Uses(blocks: seq<Block>): seq<Block> { Filter(IsUse, blocks) }
  function Results(blocks: seq<Block>): seq<Block> { Filter(IsResult, blocks) }

  function Thoughts(role: string, blocks: seq<Block>): seq<Block> {
    if role == "assistant" then Filter(IsThought, blocks) else []
  }

  // ---- content ----

  ghost predicate AllTold(told: seq<Block>, parts: seq<ContentPart>) {
    |parts| == |told| && forall i :: 0 <= i < |told| ==> Tells(told[i], parts[i])
  }

  // Told in words, and without a cache_control mark.
  predicate PlainWords(b: Block) {
    && !b.cacheControl.CacheObject?
    && (b.kind == TextBlock || b.kind == SearchResultBlock
        || (b.kind == DocumentBlock && b.source.SourceObject? && b.source.source.kind == "content"))
  }

  ghost predicate AreTexts(told: seq<Block>, texts: seq<string>) {
    |texts| == |told| && forall i :: 0 <= i < |told| ==> Tells(told[i], TextPart(texts[i], map[]))
  }

  // Words alone become one string, a line break between the blocks; anything
  // else keeps one part for each block.
  ghost predicate Holds(c: MessageContent, told: seq<Block>) {
    if told == [] then c == NoContent
    else if forall i :: 0 <= i < |told| ==> PlainWords(told[i]) then
      exists texts: seq<string> :: AreTexts(told, texts) && c == Plain(Join(texts, "\n"))
    else c.Parts? && AllTold(told, c.parts)
  }

  lemma PlainPartIs(b: Block, p: ContentPart)
    requires Tells(b, p)
    ensures PlainPart(p) <==> PlainWords(b)
  {
  }

  lemma CollapsedHolds(told: seq<Block>, parts: seq<ContentPart>)
    requires AllTold(told, parts)
    ensures Holds(CollapseParts(parts), told)
  {
    forall i | 0 <= i < |told|
      ensures PlainPart(parts[i]) <==> PlainWords(told[i])
    {
      PlainPartIs(told[i], parts[i]);
    }
    if told != [] && forall i :: 0 <= i < |told| ==> PlainWords(told[i]) {
      var texts := PartTexts(parts);
      forall i | 0 <= i < |told|
        ensures Tells(told[i], TextPart(texts[i], map[]))
      {
        assert parts[i] == TextPart(texts[i], map[]);
      }
      assert AreTexts(told, texts);
    }
  }

  // ---- tool results ----

  predicate GoodResultBlock(b: Block, lenient: bool) {
    !b.cacheControl.BadCache? && if Payload(b) then GoodPayload(b) else lenient
  }

  predicate AllGoodResult(blocks: seq<Block>, lenient: bool) {
    forall i :: 0 <= i < |blocks| ==> GoodResultBlock(blocks[i], lenient)
  }

  predicate GoodResult(c: Content, lenient: bool) {
    && !c.Malformed?
    && (c.Blocks? ==> AllGoodResult(c.blocks, lenient))
  }

  ghost predicate ResultHolds(content: MessageContent, c: Content) {
    match c
    case Text(text) => content == Plain(text)
    case Blocks(blocks) => if Told(blocks) == [] then content == Plain("") else Holds(content, Told(blocks))
    case _ => content == Plain("")
  }

  lemma PartsOne(b: Block)
    requires Payload(b)
    ensures PayloadParts(b).Ok? <==> GoodPayload(b)
    ensures PayloadParts(b).Ok? ==> AllTold(if Silent(b) then [] else [b], PayloadParts(b).value)
  {
    PayloadIs(b);
  }

  lemma ResultBlockIs(b: Block, lenient: bool)
    ensures ResultBlock(b, lenient).Ok? <==> GoodResultBlock(b, lenient)
    ensures ResultBlock(b, lenient).Ok? ==> AllTold(if IsTold(b) then [b] else [], ResultBlock(b, lenient).value)
  {
    if Payload(b) {
      PartsOne(b);
    }
  }

  lemma ToldAppend(a: seq<Block>, b: seq<Block>, p: seq<ContentPart>, q: seq<ContentPart>)
    requires AllTold(a, p) && AllTold(b, q)
    ensures AllTold(a + b, p + q)
  {
  }

  lemma AllGoodResultSnoc(blocks: seq<Block>, b: Block, lenient: bool)
    ensures AllGoodResult(blocks + [b], lenient) <==> AllGoodResult(blocks, lenient) && GoodResultBlock(b, lenient)
  {
    var all := blocks + [b];
    assert all[|blocks|] == b && forall i :: 0 <= i < |blocks| ==> all[i] == blocks[i];
  }

  ghost predicate ResultAcceptedWhenGood(blocks: seq<Block>, lenient: bool) {
    ResultBlocks(blocks, lenient).Ok? <==> AllGoodResult(blocks, lenient)
  }

  lemma ResultAcceptedNext(blocks: seq<Block>, b: Block, lenient: bool, more: seq<Block>)
    requires ResultAcceptedWhenGood(blocks, lenient) && more == blocks + [b]
    ensures ResultAcceptedWhenGood(more, lenient)
  {
    DropLast(blocks, b);
    ResultBlockIs(b, lenient);
    AllGoodResultSnoc(blocks, b, lenient);
  }

  lemma {:induction false} ResultBlocksAccepted(blocks: seq<Block>, lenient: bool)
    ensures ResultAcceptedWhenGood(blocks, lenient)
  {
    if blocks != [] {
      var n := |blocks| - 1;
      ResultBlocksAccepted(blocks[..n], lenient);
      ResultAcceptedNext(blocks[..n], blocks[n], lenient, blocks);
    }
  }

  lemma {:induction false} ResultBlocksTold(blocks: seq<Block>, lenient: bool)
    requires ResultBlocks(blocks, lenient).Ok?
    ensures AllTold(Told(blocks), ResultBlocks(blocks, lenient).value)
  {
    if blocks != [] {
      var n := |blocks| - 1;
      ResultBlocksTold(blocks[..n], lenient);
      ResultBlockIs(blocks[n], lenient);
      ToldAppend(Told(blocks[..n]), if IsTold(blocks[n]) then [blocks[n]] else [],
        ResultBlocks(blocks[..n], lenient).value, ResultBlock(blocks[n], lenient).value);
    }
  }

  // A tool result keeps its text and its attachments, whichever mode.
  lemma ToolResultHolds(c: Content, lenient: bool)
    ensures ToolResultContent(c, lenient).Ok? <==> GoodResult(c, lenient)
    ensures ToolResultContent(c, lenient).Ok? ==> ResultHolds(ToolResultContent(c, lenient).value, c)
  {
    if c.Blocks? {
      ResultBlocksAccepted(c.blocks, lenient);
      var parts := ResultBlocks(c.blocks, lenient);
      if parts.Ok? {
        ResultBlocksTold(c.blocks, lenient);
        CollapsedHolds(Told(c.blocks), parts.value);
      }
    }
  }

  // ---- tool calls, answers and thoughts, member by member ----

  function MarkKeys(c: CacheControl, more: bool): set<string> {
    (if c.CacheObject? then {"cache_control"} else {}) + (if more then {"extra_content"} else {})
  }

  predicate CallIs(b: Block, call: ToolCall) {
    && call.id == b.id && call.name == b.name && call.arguments == b.input
    && call.extra.Keys == MarkKeys(b.cacheControl, b.extraContent.Some?)
    && (b.cacheControl.CacheObject? ==> call.extra["cache_control"] == b.cacheControl.json)
    && (b.extraContent.Some? ==> call.extra["extra_content"] == b.extraContent.value)
  }

  ghost predicate AnswerIs(b: Block, m: ChatMessage) {
    && m.role == "tool" && m.toolCallId == TrimSpace(b.toolUseId) && m.toolCalls == []
    && ResultHolds(m.content, b.content)
    && m.extra.Keys == MarkKeys(b.cacheControl, b.isError)
    && (b.cacheControl.CacheObject? ==> m.extra["cache_control"] == b.cacheControl.json)
    && (b.isError ==> m.extra["extra_content"] == IsErrorMarker)
  }

  predicate ThoughtIs(b: Block, r: Replay) {
    if b.kind == RedactedBlock then r.Redacted? && r.data == b.data
    else r.Thought? && r.thinking == b.thinking && r.signature == b.signature
  }

  predicate CallsAre(blocks: seq<Block>, calls: seq<ToolCall>) {
    |calls| == |blocks| && forall i :: 0 <= i < |blocks| ==> CallIs(blocks[i], calls[i])
  }

  ghost predicate AnswersAre(blocks: seq<Block>, messages: seq<ChatMessage>) {
    |messages| == |blocks| && forall i :: 0 <= i < |blocks| ==> AnswerIs(blocks[i], messages[i])
  }

  predicate ThoughtsAre(blocks: seq<Block>, thinking: seq<Replay>) {
    |thinking| == |blocks| && forall i :: 0 <= i < |blocks| ==> ThoughtIs(blocks[i], thinking[i])
  }

  // ---- one block of a message ----

  predicate GoodBlock(b: Block, lenient: bool) {
    && !b.cacheControl.BadCache?
    && match b.kind
       case ToolUseBlock => !Blank(b.name)
       case ToolResultBlock => !Blank(b.toolUseId) && GoodResult(b.content, lenient)
       case ThinkingBlock => true
       case RedactedBlock => true
       case OtherBlock(_) => lenient
       case _ => GoodPayload(b)
  }

  ghost predicate GatheredIs(role: string, blocks: seq<Block>, g: Gathered) {
    && AllTold(Told(blocks), g.parts) && CallsAre(Uses(blocks), g.toolCalls)
    && AnswersAre(Results(blocks), g.toolMessages) && ThoughtsAre(Thoughts(role, blocks), g.thinking)
  }

  // What a single block is told as.
  ghost predicate OneIs(role: string, b: Block, g: Gathered) {
    && AllTold(if IsTold(b) then [b] else [], g.parts)
    && CallsAre(if b.kind == ToolUseBlock then [b] else [], g.toolCalls)
    && AnswersAre(if b.kind == ToolResultBlock then [b] else [], g.toolMessages)
    && ThoughtsAre(if Thinks(b) && role == "assistant" then [b] else [], g.thinking)
  }

  lemma AnswerMembers(b: Block, content: MessageContent)
    ensures var m := ToolMessageOf(b, content);
      && m.role == "tool" && m.toolCallId == TrimSpace(b.toolUseId) && m.toolCalls == [] && m.content == content
      && m.extra.Keys == MarkKeys(b.cacheControl, b.isError)
      && (b.cacheControl.CacheObject? ==> m.extra["cache_control"] == b.cacheControl.json)
      && (b.isError ==> m.extra["extra_content"] == IsErrorMarker)
  {
  }

  lemma AnswerOne(b: Block, lenient: bool)
    requires b.kind == ToolResultBlock
    ensures ToolResultBlockOf(b, lenient).Ok? <==> !Blank(b.toolUseId) && GoodResult(b.content, lenient)
    ensures ToolResultBlockOf(b, lenient).Ok? ==> OneIs("", b, ToolResultBlockOf(b, lenient).value)
  {
    BlankIsTrimmed(b.toolUseId);
    ToolResultHolds(b.content, lenient);
    var content := ToolResultContent(b.content, lenient);
    if content.Ok? {
      AnswerMembers(b, content.value);
    }
  }

  lemma CallOne(b: Block)
    ensures CallIs(b, ToolCallOf(b))
  {
  }

  lemma BlockIs(role: string, b: Block, lenient: bool)
    ensures BlockOf(role, b, lenient).Ok? <==> GoodBlock(b, lenient)
    ensures BlockOf(role, b, lenient).Ok? ==> OneIs(role, b, BlockOf(role, b, lenient).value)
  {
    match b.kind
    case ToolUseBlock => BlankIsTrimmed(b.name); CallOne(b);
    case ToolResultBlock => AnswerOne(b, lenient);
    case ThinkingBlock =>
    case RedactedBlock =>
    case OtherBlock(_) =>
    case _ => PartsOne(b);
  }

  lemma GatheredSnoc(role: string, blocks: seq<Block>, g: Gathered, one: Gathered)
    requires blocks != [] && GatheredIs(role, blocks[..|blocks| - 1], g) && OneIs(role, blocks[|blocks| - 1], one)
    ensures GatheredIs(role, blocks, Joined(g, one))
  {
    var n := |blocks| - 1;
    ToldAppend(Told(blocks[..n]), if IsTold(blocks[n]) then [blocks[n]] else [], g.parts, one.parts);
  }

  predicate AllGood(blocks: seq<Block>, lenient: bool) {
    forall i :: 0 <= i < |blocks| ==> GoodBlock(blocks[i], lenient)
  }

  lemma AllGoodSnoc(blocks: seq<Block>, b: Block, lenient: bool)
    ensures AllGood(blocks + [b], lenient) <==> AllGood(blocks, lenient) && GoodBlock(b, lenient)
  {
    var all := blocks + [b];
    assert all[|blocks|] == b && forall i :: 0 <= i < |blocks| ==> all[i] == blocks[i];
  }

  ghost predicate AcceptedWhenGood(role: string, blocks: seq<Block>, lenient: bool) {
    BlocksOf(role, blocks, lenient).Ok? <==> AllGood(blocks, lenient)
  }

  lemma AcceptedNext(role: string, blocks: seq<Block>, b: Block, lenient: bool, more: seq<Block>)
    requires AcceptedWhenGood(role, blocks, lenient) && more == blocks + [b]
    ensures AcceptedWhenGood(role, more, lenient)
  {
    DropLast(blocks, b);
    BlockIs(role, b, lenient);
    AllGoodSnoc(blocks, b, lenient);
  }

  lemma {:induction false} BlocksAccepted(role: string, blocks: seq<Block>, lenient: bool)
    ensures AcceptedWhenGood(role, blocks, lenient)
  {
    if blocks != [] {
      var n := |blocks| - 1;
      BlocksAccepted(role, blocks[..n], lenient);
      AcceptedNext(role, blocks[..n], blocks[n], lenient, blocks);
    }
  }

  lemma {:induction false} BlocksTold(role: string, blocks: seq<Block>, lenient: bool)
    requires BlocksOf(role, blocks, lenient).Ok?
    ensures GatheredIs(role, blocks, BlocksOf(role, blocks, lenient).value)
  {
    if blocks != [] {
      var n := |blocks| - 1;
      BlocksTold(role, blocks[..n], lenient);
      BlockIs(role, blocks[n], lenient);
      GatheredSnoc(role, blocks, BlocksOf(role, blocks[..n], lenient).value, BlockOf(role, blocks[n], lenient).value);
    }
  }

  // ---- one message ----

  // What stands after the tool messages: nothing, or one message of the role
  // with everything else.
  ghost predicate RestIs(role: string, blocks: seq<Block>, rest: seq<ChatMessage>) {
    if Told(blocks) == [] && Uses(blocks) == [] && Thoughts(role, blocks) == [] then rest == []
    else
      && |rest| == 1 && rest[0].role == role && rest[0].toolCallId == ""
      && Holds(rest[0].content, Told(blocks)) && CallsAre(Uses(blocks), rest[0].toolCalls)
      && (if Thoughts(role, blocks) == [] then rest[0].extra == map[]
          else
            && rest[0].extra.Keys == {"extra_content"} && rest[0].extra["extra_content"].ThinkingBlocks?
            && ThoughtsAre(Thoughts(role, blocks), rest[0].extra["extra_content"].blocks))
  }

  ghost predicate BlockMessageIs(role: string, blocks: seq<Block>, out: seq<ChatMessage>) {
    var n := |Results(blocks)|;
    n <= |out| && AnswersAre(Results(blocks), out[..n]) && RestIs(role, blocks, out[n..])
  }

  lemma AssembledRest(role: string, blocks: seq<Block>, g: Gathered)
    requires GatheredIs(role, blocks, g)
    ensures Assemble(role, g)[..|g.toolMessages|] == g.toolMessages
    ensures RestIs(role, blocks, Assemble(role, g)[|g.toolMessages|..])
  {
    CollapsedHolds(Told(blocks), g.parts);
  }

  lemma BlockMessageHolds(role: string, blocks: seq<Block>, lenient: bool)
    requires BlockMessage(role, blocks, lenient).Ok?
    ensures BlockMessageIs(role, blocks, BlockMessage(role, blocks, lenient).value)
  {
    BlocksTold(role, blocks, lenient);
    AssembledRest(role, blocks, BlocksOf(role, blocks, lenient).value);
  }

  // ---- the system prompt ----

  predicate GoodSystemBlock(b: Block, lenient: bool) {
    if b.kind == TextBlock then b.text == "" || !b.cacheControl.BadCache? else lenient
  }

  predicate AllGoodSystem(blocks: seq<Block>, lenient: bool) {
    forall i :: 0 <= i < |blocks| ==> GoodSystemBlock(blocks[i], lenient)
  }

  predicate GoodSystem(c: Content, lenient: bool) {
    && !c.Malformed?
    && (c.Blocks? ==> AllGoodSystem(c.blocks, lenient))
  }

  const IsLine: Block -> bool := (b: Block) => b.kind == TextBlock && b.text != ""

  predicate Says(out: seq<ChatMessage>, text: string) {
    if Blank(text) then out == [] else out == [ChatMessage("system", Plain(TrimSpace(text)), "", [], map[])]
  }

  // One system message, trimmed, unless it is blank; with a cache_control mark
  // somewhere each text keeps its own.
  ghost predicate SystemIs(c: Content, out: seq<ChatMessage>) {
    match c
    case Text(text) => Says(out, text)
    case Blocks(blocks) =>
      var lines := Filter(IsLine, blocks);
      if forall i :: 0 <= i < |lines| ==> !lines[i].cacheControl.CacheObject? then Says(out, Join(Lines(blocks), " "))
      else
        && |out| == 1 && out[0].content.Parts? && AllTold(lines, out[0].content.parts)
        && out[0] == ChatMessage("system", out[0].content, "", [], map[])
    case _ => out == []
  }

  ghost predicate LinesTold(blocks: seq<Block>, parts: seq<ContentPart>) {
    && AllTold(Filter(IsLine, blocks), parts) && Lines(blocks) == PartTexts(parts)
    && forall i :: 0 <= i < |parts| ==> parts[i].TextPart? && parts[i].text != ""
  }

  lemma AllGoodSystemSnoc(blocks: seq<Block>, b: Block, lenient: bool)
    ensures AllGoodSystem(blocks + [b], lenient) <==> AllGoodSystem(blocks, lenient) && GoodSystemBlock(b, lenient)
  {
    var all := blocks + [b];
    assert all[|blocks|] == b && forall i :: 0 <= i < |blocks| ==> all[i] == blocks[i];
  }

  lemma {:induction false} SystemBlocksAccepted(blocks: seq<Block>, lenient: bool)
    ensures SystemBlocks(blocks, lenient).Ok? <==> AllGoodSystem(blocks, lenient)
  {
    if blocks != [] {
      var n := |blocks| - 1;
      SystemBlocksAccepted(blocks[..n], lenient);
      AllGoodSystemSnoc(blocks[..n], blocks[n], lenient);
      assert blocks == blocks[..n] + [blocks[n]];
    }
  }

  lemma SystemBlockIs(b: Block, lenient: bool)
    requires SystemBlock(b, lenient).Ok?
    ensures LinesTold([b], SystemBlock(b, lenient).value)
  {
    assert [b][1..] == [] && [b][..0] == [];
  }

  lemma {:induction false} LineAppend(a: seq<Block>, b: Block)
    ensures Filter(IsLine, a + [b]) == Filter(IsLine, a) + Filter(IsLine, [b])
  {
    DropLast(a, b);
    assert [b][..0] == [];
  }

  lemma LinesSnoc(blocks: seq<Block>, b: Block, parts: seq<ContentPart>, more: seq<ContentPart>)
    requires LinesTold(blocks, parts) && LinesTold([b], more)
    ensures LinesTold(blocks + [b], parts + more)
  {
    LineAppend(blocks, b);
    LinesAppend(blocks, [b]);
    ToldAppend(Filter(IsLine, blocks), Filter(IsLine, [b]), parts, more);
    assert PartTexts(parts + more) == PartTexts(parts) + PartTexts(more);
  }

  lemma {:induction false} SystemBlocksTold(blocks: seq<Block>, lenient: bool)
    requires SystemBlocks(blocks, lenient).Ok?
    ensures LinesTold(blocks, SystemBlocks(blocks, lenient).value)
  {
    if blocks != [] {
      var n := |blocks| - 1;
      SystemBlocksTold(blocks[..n], lenient);
      SystemBlockIs(blocks[n], lenient);
      LinesSnoc(blocks[..n], blocks[n], SystemBlocks(blocks[..n], lenient).value, SystemBlock(blocks[n], lenient).value);
      assert blocks == blocks[..n] + [blocks[n]];
    }
  }

  lemma {:induction false} NoneEmpty(texts: seq<string>)
    requires forall i :: 0 <= i < |texts| ==> texts[i] != ""
    ensures NonEmpty(texts) == texts
  {
    if texts != [] {
      NoneEmpty(texts[1..]);
    }
  }

  lemma {:induction false} JoinNonEmpty(texts: seq<string>, sep: string)
    requires texts != [] && forall i :: 0 <= i < |texts| ==> texts[i] != ""
    ensures Join(texts, sep) != ""
  {
  }

  lemma MarkedLine(b: Block, p: ContentPart)
    requires Tells(b, p)
    ensures p.extra == map[] <==> !b.cacheControl.CacheObject?
  {
  }

  lemma SystemHolds(c: Content, lenient: bool)
    ensures SystemMessage(c, lenient).Ok? <==> GoodSystem(c, lenient)
    ensures SystemMessage(c, lenient).Ok? ==> SystemIs(c, SystemMessage(c, lenient).value)
  {
    match c
    case Text(text) => BlankIsTrimmed(text);
    case Blocks(blocks) => SystemBlocksHold(blocks, lenient);
    case _ =>
  }

  lemma SystemBlocksHold(blocks: seq<Block>, lenient: bool)
    ensures SystemMessage(Blocks(blocks), lenient).Ok? <==> GoodSystem(Blocks(blocks), lenient)
    ensures SystemMessage(Blocks(blocks), lenient).Ok? ==>
      SystemIs(Blocks(blocks), SystemMessage(Blocks(blocks), lenient).value)
  {
    SystemBlocksAccepted(blocks, lenient);
    if SystemBlocks(blocks, lenient).Ok? {
      SystemBlocksTold(blocks, lenient);
      SystemPartsHold(blocks, SystemBlocks(blocks, lenient).value);
    }
  }

  lemma SystemPartsHold(blocks: seq<Block>, parts: seq<ContentPart>)
    requires LinesTold(blocks, parts)
    ensures
      var content := SystemParts(parts);
      SystemIs(Blocks(blocks),
        if ExtractText(content) == "" then [] else [ChatMessage("system", content, "", [], map[])])
  {
    var lines := Filter(IsLine, blocks);
    forall i | 0 <= i < |lines|
      ensures parts[i].extra == map[] <==> !lines[i].cacheControl.CacheObject?
    {
      MarkedLine(lines[i], parts[i]);
    }
    NoneEmpty(PartTexts(parts));
    if parts != [] {
      JoinNonEmpty(PartTexts(parts), " ");
    }
    BlankIsTrimmed(Join(Lines(blocks), " "));
  }

  // ---- the whole conversation ----

  predicate GoodMessage(m: Message, lenient: bool) {
    if m.role == "system" then GoodSystem(m.content, lenient)
    else
      && (m.role == "user" || m.role == "assistant")
      && !m.content.Malformed?
      && (m.content.Blocks? ==> AllGood(m.content.blocks, lenient))
  }

  ghost predicate MessageIs(m: Message, out: seq<ChatMessage>) {
    if m.role == "system" then SystemIs(m.content, out)
    else
      match m.content
      case Blocks(blocks) => BlockMessageIs(m.role, blocks, out)
      case Text(text) => out == [ChatMessage(m.role, Plain(text), "", [], map[])]
      case _ => out == [ChatMessage(m.role, Plain(""), "", [], map[])]
  }

  lemma MessageHolds(m: Message, lenient: bool)
    ensures MessageOf(m, lenient).Ok? <==> GoodMessage(m, lenient)
    ensures MessageOf(m, lenient).Ok? ==> MessageIs(m, MessageOf(m, lenient).value)
  {
    if m.role == "system" {
      SystemHolds(m.content, lenient);
    } else if (m.role == "user" || m.role == "assistant") && m.content.Blocks? {
      BlocksAccepted(m.role, m.content.blocks, lenient);
      if AllGood(m.content.blocks, lenient) {
        BlockMessageHolds(m.role, m.content.blocks, lenient);
      }
    }
  }

  function Flat(segments: seq<seq<ChatMessage>>): seq<ChatMessage> {
    if segments == [] then [] else Flat(segments[..|segments| - 1]) + segments[|segments| - 1]
  }

  // Segment i is what message i says.
  ghost predicate Segments(messages: seq<Message>, segments: seq<seq<ChatMessage>>) {
    |segments| == |messages| && forall i :: 0 <= i < |messages| ==> MessageIs(messages[i], segments[i])
  }

  predicate AllGoodMessages(messages: seq<Message>, lenient: bool) {
    forall i :: 0 <= i < |messages| ==> GoodMessage(messages[i], lenient)
  }

  ghost predicate MessagesAcceptedWhenGood(messages: seq<Message>, lenient: bool) {
    MessagesOf(messages, lenient).Ok? <==> AllGoodMessages(messages, lenient)
  }

  lemma MessagesAcceptedNext(messages: seq<Message>, m: Message, lenient: bool, more: seq<Message>)
    requires MessagesAcceptedWhenGood(messages, lenient) && more == messages + [m]
    ensures MessagesAcceptedWhenGood(more, lenient)
  {
    DropLast(messages, m);
    MessageHolds(m, lenient);
    AllGoodMessagesSnoc(messages, m, lenient);
  }

  lemma {:induction false} MessagesAccepted(messages: seq<Message>, lenient: bool)
    ensures MessagesAcceptedWhenGood(messages, lenient)
  {
    if messages != [] {
      var n := |messages| - 1;
      MessagesAccepted(messages[..n], lenient);
      MessagesAcceptedNext(messages[..n], messages[n], lenient, messages);
    }
  }

  lemma AllGoodMessagesSnoc(messages: seq<Message>, m: Message, lenient: bool)
    ensures AllGoodMessages(messages + [m], lenient) <==> AllGoodMessages(messages, lenient) && GoodMessage(m, lenient)
  {
    var all := messages + [m];
    assert all[|messages|] == m && forall i :: 0 <= i < |messages| ==> all[i] == messages[i];
  }

  // The error names the first message that is not accepted.
  lemma {:induction false} FirstBadMessage(messages: seq<Message>, lenient: bool)
    requires MessagesOf(messages, lenient).Err?
    ensures var fault := MessagesOf(messages, lenient).fault;
      && fault.InMessage? && fault.index < |messages| && !GoodMessage(messages[fault.index], lenient)
      && forall j :: 0 <= j < fault.index ==> GoodMessage(messages[j], lenient)
  {
    var n := |messages| - 1;
    if MessagesOf(messages[..n], lenient).Err? {
      FirstBadMessage(messages[..n], lenient);
      assert forall j :: 0 <= j < n ==> messages[..n][j] == messages[j];
    } else {
      MessagesAccepted(messages[..n], lenient);
      MessageHolds(messages[n], lenient);
      assert forall j :: 0 <= j < n ==> messages[..n][j] == messages[j];
    }
  }

  lemma {:induction false} MessagesHold(messages: seq<Message>, lenient: bool) returns (segments: seq<seq<ChatMessage>>)
    requires MessagesOf(messages, lenient).Ok?
    ensures Segments(messages, segments) && Flat(segments) == MessagesOf(messages, lenient).value
  {
    segments := [];
    if messages != [] {
      var n := |messages| - 1;
      var before := MessagesHold(messages[..n], lenient);
      MessageHolds(messages[n], lenient);
      segments := before + [MessageOf(messages[n], lenient).value];
      SegmentsSnoc(messages, before, MessageOf(messages[n], lenient).value);
    }
  }

  lemma SegmentsSnoc(messages: seq<Message>, segments: seq<seq<ChatMessage>>, out: seq<ChatMessage>)
    requires messages != [] && Segments(messages[..|messages| - 1], segments)
    requires MessageIs(messages[|messages| - 1], out)
    ensures Segments(messages, segments + [out]) && Flat(segments + [out]) == Flat(segments) + out
  {
    DropLast(segments, out);
    var n := |messages| - 1;
    forall i | 0 <= i < n
      ensures MessageIs(messages[i], segments[i])
    {
      assert MessageIs(messages[..n][i], segments[i]);
    }
  }

  // For every accepted request and both modes: the chat messages are the system
  // prompt and then, message by message, what the request says, and nothing else.
  lemma ConversationHolds(req: Request, lenient: bool) returns (head: seq<ChatMessage>, segments: seq<seq<ChatMessage>>)
    requires ConvertMessages(req, lenient).Ok?
    ensures ConvertMessages(req, lenient).value == head + Flat(segments)
    ensures SystemIs(req.system, head) && Segments(req.messages, segments)
  {
    head := SystemMessage(req.system, lenient).value;
    SystemHolds(req.system, lenient);
    segments := MessagesHold(req.messages, lenient);
  }

  // ---- tools ----

  predicate BuiltIn(t: Tool) {
    !Blank(t.kind) && TrimSpace(t.kind) != "custom"
  }

  predicate GoodTool(t: Tool, lenient: bool) {
    if BuiltIn(t) then lenient else !Blank(t.name) && !t.schema.BadSchema? && !t.cacheControl.BadCache?
  }

  predicate ToolIs(t: Tool, d: ToolDef) {
    && d.name == t.name && d.description == t.description
    && d.parameters == (if t.schema.Schema? then Some(t.schema.json) else None)
    && d.cacheControl == (if t.cacheControl.CacheObject? then Some(t.cacheControl.json) else None)
  }

  // The tools the caller defined, in order.
  function Custom(tools: seq<Tool>): seq<Tool> {
    if tools == [] then []
    else Custom(tools[..|tools| - 1]) + if BuiltIn(tools[|tools| - 1]) then [] else [tools[|tools| - 1]]
  }

  predicate ToolsAre(tools: seq<Tool>, defs: seq<ToolDef>) {
    |defs| == |tools| && forall i :: 0 <= i < |tools| ==> ToolIs(tools[i], defs[i])
  }

  lemma ToolOne(t: Tool, lenient: bool)
    ensures ToolOf(t, lenient).Ok? <==> GoodTool(t, lenient)
    ensures ToolOf(t, lenient).Ok? ==> ToolsAre(if BuiltIn(t) then [] else [t], ToolOf(t, lenient).value)
  {
    BlankIsTrimmed(t.kind);
    BlankIsTrimmed(t.name);
  }

  ghost predicate ToolsHeld(tools: seq<Tool>, lenient: bool) {
    && (ToolsOf(tools, lenient).Ok? <==> forall i :: 0 <= i < |tools| ==> GoodTool(tools[i], lenient))
    && (ToolsOf(tools, lenient).Ok? ==> ToolsAre(Custom(tools), ToolsOf(tools, lenient).value))
  }

  lemma ToolsNext(tools: seq<Tool>, t: Tool, lenient: bool, more: seq<Tool>)
    requires ToolsHeld(tools, lenient) && more == tools + [t]
    ensures ToolsHeld(more, lenient)
  {
    DropLast(tools, t);
    ToolOne(t, lenient);
    assert more[|tools|] == t && forall i :: 0 <= i < |tools| ==> more[i] == tools[i];
  }

  lemma {:induction false} ToolsHold(tools: seq<Tool>, lenient: bool)
    ensures ToolsHeld(tools, lenient)
  {
    if tools != [] {
      var n := |tools| - 1;
      ToolsHold(tools[..n], lenient);
      ToolsNext(tools[..n], tools[n], lenient, tools);
    }
  }

  // ---- the rest of the request ----

  // The word or function the caller's choice stands for.
  predicate ChoiceIs(choice: Option<ToolChoice>, c: Choice) {
    var kind := if choice.Some? then choice.value.kind else "";
    && (c == ChoiceWord("auto") <==> kind == "auto" || (kind == "tool" && Blank(choice.value.name)))
    && (c == ChoiceWord("required") <==> kind == "any")
    && (c == ChoiceWord("none") <==> kind == "none")
    && (c.ChoiceFunction? <==> kind == "tool" && !Blank(choice.value.name))
    && (c.ChoiceFunction? ==> c.name == choice.value.name)
    && (c == NoChoice <==> kind !in {"auto", "any", "none", "tool"})
  }

  // More budget never means less effort; adaptive thinking is medium.
  predicate EffortIs(thinking: Option<Thinking>, effort: Option<string>) {
    var on := thinking.Some? && thinking.value.kind != "" && thinking.value.kind != "disabled";
    var budget := if on && thinking.value.kind != "adaptive" then thinking.value.budget else 0;
    && (effort == None <==> !on)
    && (effort == Some("high") <==> budget >= 20000)
    && (effort == Some("medium") <==> (on && thinking.value.kind == "adaptive") || 10000 <= budget < 20000)
    && (effort == Some("low") <==> on && thinking.value.kind != "adaptive" && budget < 10000)
  }

  // The members that are not messages or tools.
  predicate SettingsAre(req: Request, chat: ChatRequest) {
    && chat.model == req.model && chat.maxTokens == req.maxTokens
    && chat.temperature == req.temperature && chat.topP == req.topP
    && chat.stream == req.stream && chat.includeUsage == req.stream
    && chat.user == (if req.userId.Some? && !Blank(req.userId.value) then req.userId.value else "")
    && EffortIs(req.thinking, chat.reasoning) && ChoiceIs(req.toolChoice, chat.toolChoice)
    && chat.parallelToolCalls ==
         (if req.toolChoice.Some? && req.toolChoice.value.disableParallel == Some(true) then Some(false) else None)
    && chat.extra.Keys ==
         (if req.stopSequences != [] then {"stop"} else {}) + (if req.cacheControl.CacheObject? then {"cache_control"} else {})
    && (req.stopSequences != [] ==> chat.extra["stop"] == Strings(req.stopSequences))
    && (req.cacheControl.CacheObject? ==> chat.extra["cache_control"] == req.cacheControl.json)
  }

  predicate GoodRequest(req: Request, lenient: bool) {
    && !Blank(req.model) && req.maxTokens > 0 && req.messages != [] && !req.cacheControl.BadCache?
    && GoodSystem(req.system, lenient) && AllGoodMessages(req.messages, lenient)
    && forall i :: 0 <= i < |req.tools| ==> GoodTool(req.tools[i], lenient)
  }

  lemma RequestAccepted(req: Request, lenient: bool)
    ensures ToChat(Some(req), lenient).Ok? <==> GoodRequest(req, lenient)
  {
    BlankIsTrimmed(req.model);
    SystemHolds(req.system, lenient);
    MessagesAccepted(req.messages, lenient);
    ToolsHold(req.tools, lenient);
  }

  lemma SettingsHold(req: Request, messages: seq<ChatMessage>, tools: Option<seq<ToolDef>>)
    ensures SettingsAre(req, Chat(req, messages, tools))
  {
    if req.userId.Some? {
      BlankIsTrimmed(req.userId.value);
    }
    ChoiceHolds(req.toolChoice);
    EffortHolds(req.thinking);
    ExtrasHold(req);
  }

  lemma ChoiceHolds(choice: Option<ToolChoice>)
    ensures ChoiceIs(choice, ChoiceOf(choice))
  {
    if choice.Some? {
      BlankIsTrimmed(choice.value.name);
    }
  }

  lemma EffortHolds(thinking: Option<Thinking>)
    ensures EffortIs(thinking, ReasoningOf(thinking))
  {
  }

  lemma AcceptedIs(req: Request, lenient: bool)
    requires ToChat(Some(req), lenient).Ok?
    ensures ConvertMessages(req, lenient).Ok? && ConvertTools(req.tools, lenient).Ok?
    ensures ToChat(Some(req), lenient).value
         == Chat(req, ConvertMessages(req, lenient).value, ConvertTools(req.tools, lenient).value)
  {
  }

  predicate ToolListIs(tools: seq<Tool>, defs: Option<seq<ToolDef>>) {
    (defs.None? <==> tools == []) && (defs.Some? ==> ToolsAre(Custom(tools), defs.value))
  }

  lemma ToolListHolds(tools: seq<Tool>, lenient: bool)
    requires ConvertTools(tools, lenient).Ok?
    ensures ToolListIs(tools, ConvertTools(tools, lenient).value)
  {
    ToolsHold(tools, lenient);
  }

  lemma ExtrasHold(req: Request)
    ensures var extra := ExtraOf(req);
      && extra.Keys ==
           (if req.stopSequences != [] then {"stop"} else {}) + (if req.cacheControl.CacheObject? then {"cache_control"} else {})
      && (req.stopSequences != [] ==> extra["stop"] == Strings(req.stopSequences))
      && (req.cacheControl.CacheObject? ==> extra["cache_control"] == req.cacheControl.json)
  {
    assert "stop" != "cache_control";
  }

  // Every accepted request, in both modes: its settings, its tools and its
  // messages, each in terms of its own members.
  lemma RequestHolds(req: Request, lenient: bool) returns (head: seq<ChatMessage>, segments: seq<seq<ChatMessage>>)
    requires ToChat(Some(req), lenient).Ok?
    ensures var chat := ToChat(Some(req), lenient).value;
      && SettingsAre(req, chat)
      && chat.messages == head + Flat(segments)
      && ToolListIs(req.tools, chat.tools)
    ensures SystemIs(req.system, head) && Segments(req.messages, segments)
  {
    AcceptedIs(req, lenient);
    head, segments := ConversationHolds(req, lenient);
    ToolListHolds(req.tools, lenient);
    SettingsHold(req, ConvertMessages(req, lenient).value, ConvertTools(req.tools, lenient).value);
  }
}
