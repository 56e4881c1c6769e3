// What the content of a translated chat response holds, member by member.

module ResponseContent {
  import opened Prelude
  import opened Strings
  import opened StreamModel
  import opened ResponseTranslation

  // The input of a tool_use block: the compact form of the arguments, or an
  // empty object where they are blank or not JSON.
  predicate InputIs(input: Option<string>, arguments: string, compact: Compactor) {
    var core := TrimSpace(arguments);
    if Blank(arguments) || compact(core).None? then input == Some("{}")
    else input == compact(core)
  }

  // A block of the given kind holds nothing that belongs to another.
  predicate OnlyText(b: ContentBlock) {
    b.thinking == "" && b.signature == None && OnlyCommon(b)
  }

  predicate OnlyThinking(b: ContentBlock) {
    b.text == "" && OnlyCommon(b)
  }

  predicate OnlyCommon(b: ContentBlock) {
    b.data == "" && b.id == "" && b.name == "" && b.input == None && b.extra == ""
  }

  predicate IsUse(b: ContentBlock, call: ToolCall, compact: Compactor) {
    && b.kind == "tool_use" && b.id == call.id && b.name == call.name && b.extra == call.extra
    && InputIs(b.input, call.arguments, compact)
    && b.text == "" && b.thinking == "" && b.signature == None && b.data == ""
  }

  // A replayed block comes back as it was, but a thinking block always has a signature.
  predicate IsReplayed(b: ContentBlock, original: ContentBlock) {
    && b.signature == (if original.kind == "thinking" && original.signature == None then Some("") else original.signature)
    && b == original.(signature := b.signature)
  }

  // Reasoning without replay state: one unsigned thinking block.
  predicate IsReasoning(head: seq<ContentBlock>, reply: Reply) {
    if reply.reasoningContent == "" && reply.reasoning == "" then head == []
    else
      && |head| == 1 && head[0].kind == "thinking" && head[0].signature == Some("") && OnlyThinking(head[0])
      && head[0].thinking == (if reply.reasoningContent == "" then reply.reasoning else reply.reasoningContent)
  }

  predicate IsThinking(head: seq<ContentBlock>, reply: Reply) {
    if reply.replay == [] then IsReasoning(head, reply)
    else |head| == |reply.replay| && forall i :: 0 <= i < |head| ==> IsReplayed(head[i], reply.replay[i])
  }

  predicate IsText(middle: seq<ContentBlock>, text: string) {
    if text == "" then middle == []
    else |middle| == 1 && middle[0].kind == "text" && middle[0].text == text && OnlyText(middle[0])
  }

  predicate AreUses(tail: seq<ContentBlock>, calls: seq<ToolCall>, compact: Compactor) {
    |tail| == |calls| && forall i :: 0 <= i < |tail| ==> IsUse(tail[i], calls[i], compact)
  }

  lemma UseIs(call: ToolCall, compact: Compactor)
    ensures IsUse(ToolUseBlock(call.id, call.name, ArgumentsToRaw(call.arguments, compact), call.extra), call, compact)
  {
    BlankIsTrimmed(call.arguments);
  }

  lemma UsesAre(calls: seq<ToolCall>, compact: Compactor)
    ensures AreUses(ToolPart(calls, compact), calls, compact)
  {
    forall i | 0 <= i < |calls|
      ensures IsUse(ToolPart(calls, compact)[i], calls[i], compact)
    {
      UseIs(calls[i], compact);
    }
  }

  lemma HeadIs(reply: Reply)
    ensures IsThinking(ThinkingPart(reply), reply) && IsText(TextPart(reply), reply.text)
  {
  }

  // Every reply: its thinking, its text and each tool call come out once, in
  // that order, with nothing else, and no argument of a call is lost.
  lemma ContentIs(resp: ChatResponse, compact: Compactor) returns (
    head: seq<ContentBlock>, middle: seq<ContentBlock>, tail: seq<ContentBlock>)
    requires resp.choices != []
    ensures Translated(Some(resp), compact).content == head + middle + tail
    ensures IsThinking(head, resp.choices[0]) && IsText(middle, resp.choices[0].text)
    ensures AreUses(tail, resp.choices[0].toolCalls, compact)
  {
    var reply := resp.choices[0];
    head, middle, tail := ThinkingPart(reply), TextPart(reply), ToolPart(reply.toolCalls, compact);
    HeadIs(reply);
    UsesAre(reply.toolCalls, compact);
  }

  // A reply without choices has no content and ends normally; none at all is empty.
  lemma NothingIs(resp: ChatResponse, compact: Compactor)
    requires resp.choices == []
    ensures var out := Translated(Some(resp), compact);
      out.content == [] && out.stopReason == "end_turn" && out.stopSequence == None
    ensures var none := Translated(None, compact);
      none.content == [] && none.stopReason == "" && none.stopSequence == None && none.id == "" && none.model == ""
  {
  }

  // ---- the envelope ----

  // The ID carries the prefix Anthropic clients expect, once, and stays empty
  // when there is none.
  ghost predicate MessageIdIs(id: string, raw: string) {
    if Blank(raw) then id == ""
    else
      var core := TrimSpace(raw);
      if exists rest :: core == "msg_" + rest then id == core else id == "msg_" + core
  }

  lemma NormalizedIs(raw: string)
    ensures MessageIdIs(NormalizeMessageId(raw), raw)
  {
    BlankIsTrimmed(raw);
    PrefixIs(TrimSpace(raw), "msg_");
  }

  lemma NormalizedTwice(raw: string)
    ensures NormalizeMessageId(NormalizeMessageId(raw)) == NormalizeMessageId(raw)
  {
    var head, tail := TrimSpaceIs(raw);
    var core := TrimSpace(raw);
    if core != "" {
      var id := NormalizeMessageId(raw);
      assert Bare(id);
      assert id == "" + id + "";
      TrimSpaceOnly("", id, "");
    }
  }

  // Every translated reply has its own ID, model and token counts.
  lemma EnvelopeIs(resp: ChatResponse, compact: Compactor)
    ensures var out, u := Translated(Some(resp), compact), resp.usage;
      && MessageIdIs(out.id, resp.id) && out.model == resp.model
      && out.usage.inputTokens == u.promptTokens && out.usage.outputTokens == u.completionTokens
      && out.usage.cacheCreation == u.rawCacheCreation && out.usage.cacheRead == u.rawCacheRead
  {
    NormalizedIs(resp.id);
  }
}
