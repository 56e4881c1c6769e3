// Rendering a complete chat response as an Anthropic message
// (internal/anthropicapi/response.go).

module ResponseTranslation {
  import opened Prelude
  import opened StreamModel

  // One element of the content array; the members that do not belong to its
  // kind are empty. input is raw JSON.
  datatype ContentBlock = ContentBlock(
    kind: string, text: string, thinking: string, signature: Option<string>, data: string,
    id: string, name: string, input: Option<string>, extra: string)

  function TextBlock(text: string): ContentBlock {
    ContentBlock("text", text, "", None, "", "", "", None, "")
  }

  function ThinkingBlock(thinking: string): ContentBlock {
    ContentBlock("thinking", "", thinking, Some(""), "", "", "", None, "")
  }

  function RedactedBlock(data: string): ContentBlock {
    ContentBlock("redacted_thinking", "", "", None, data, "", "", None, "")
  }

  function ToolUseBlock(id: string, name: string, input: string, extra: string): ContentBlock {
    ContentBlock("tool_use", "", "", None, "", id, name, Some(input), extra)
  }

  datatype ToolCall = ToolCall(id: string, name: string, arguments: string, extra: string)

  // The first choice of a chat response. replay holds the thinking blocks kept
  // as Anthropic replay state, empty when there are none that can be used.
  datatype Reply = Reply(
    replay: seq<ContentBlock>, reasoningContent: string, reasoning: string, text: string,
    toolCalls: seq<ToolCall>, finishReason: string, stopSequence: string)

  // The cache fields are those of the provider's raw usage, 0 when it has none
  // that is a number.
  datatype CoreUsage = CoreUsage(promptTokens: int, completionTokens: int, rawCacheCreation: int, rawCacheRead: int)

  datatype ChatResponse = ChatResponse(id: string, model: string, choices: seq<Reply>, usage: CoreUsage)

  datatype Usage = Usage(inputTokens: int, outputTokens: int, cacheCreation: int, cacheRead: int)

  const ZeroUsage := Usage(0, 0, 0, 0)

  datatype MessagesResponse = MessagesResponse(
    id: string, model: string, content: seq<ContentBlock>, stopReason: string, stopSequence: Option<string>, usage: Usage)

  function UsageFromCore(u: CoreUsage): Usage {
    Usage(u.promptTokens, u.completionTokens, u.rawCacheCreation, u.rawCacheRead)
  }

  // json.Compact, None on input that is not JSON.
  type Compactor = string -> Option<string>

  function ArgumentsToRaw(arguments: string, compact: Compactor): string {
    var trimmed := TrimSpace(arguments);
    if trimmed == "" then "{}"
    else if compact(trimmed).Some? then compact(trimmed).value
    else "{}"
  }

  function WithSignature(b: ContentBlock): ContentBlock {
    if b.kind == "thinking" && b.signature == None then b.(signature := Some("")) else b
  }

  function Signed(blocks: seq<ContentBlock>): (r: seq<ContentBlock>)
    ensures |r| == |blocks|
  {
    seq(|blocks|, i requires 0 <= i < |blocks| => WithSignature(blocks[i]))
  }

  function ThinkingPart(reply: Reply): seq<ContentBlock> {
    var text := if reply.reasoningContent != "" then reply.reasoningContent else reply.reasoning;
    if reply.replay != [] then Signed(reply.replay)
    else if text != "" then [ThinkingBlock(text)]
    else []
  }

  function TextPart(reply: Reply): seq<ContentBlock> {
    if reply.text != "" then [TextBlock(reply.text)] else []
  }

  function ToolPart(calls: seq<ToolCall>, compact: Compactor): (r: seq<ContentBlock>)
    ensures |r| == |calls|
  {
    seq(|calls|, i requires 0 <= i < |calls| =>
      ToolUseBlock(calls[i].id, calls[i].name, ArgumentsToRaw(calls[i].arguments, compact), calls[i].extra))
  }

  function ReplyStop(reply: Reply): (string, Option<string>) {
    var reason := StopReasonFromFinish(reply.finishReason, reply.toolCalls != []);
    if reply.stopSequence != "" && reason == "end_turn" then ("stop_sequence", Some(reply.stopSequence))
    else if reason == "" then ("end_turn", None)
    else (reason, None)
  }

  function Translated(resp: Option<ChatResponse>, compact: Compactor): MessagesResponse {
    if resp.None? then MessagesResponse("", "", [], "", None, ZeroUsage)
    else if resp.value.choices == [] then
      MessagesResponse(
        NormalizeMessageId(resp.value.id), resp.value.model, [], "end_turn", None, UsageFromCore(resp.value.usage))
    else
      var reply := resp.value.choices[0];
      var stop := ReplyStop(reply);
      MessagesResponse(
        NormalizeMessageId(resp.value.id), resp.value.model,
        ThinkingPart(reply) + TextPart(reply) + ToolPart(reply.toolCalls, compact),
        stop.0, stop.1, UsageFromCore(resp.value.usage))
  }

  method ThinkingBlocks(replay: seq<ContentBlock>) returns (blocks: seq<ContentBlock>, ok: bool)
    ensures ok <==> replay != []
    ensures ok ==> blocks == Signed(replay)
  {
    if |replay| == 0 {
      return [], false;
    }
    blocks := replay;
    for i := 0 to |replay|
      invariant |blocks| == |replay|
      invariant forall j :: 0 <= j < i ==> blocks[j] == WithSignature(replay[j])
      invariant forall j :: i <= j < |replay| ==> blocks[j] == replay[j]
    {
      if blocks[i].kind == "thinking" && blocks[i].signature == None {
        blocks := blocks[i := blocks[i].(signature := Some(""))];
      }
    }
    assert blocks == Signed(replay);
    ok := true;
  }

  method RenderContent(reply: Reply, compact: Compactor) returns (content: seq<ContentBlock>)
    ensures content == ThinkingPart(reply) + TextPart(reply) + ToolPart(reply.toolCalls, compact)
  {
    content := RenderHead(reply);
    content := RenderTools(content, reply.toolCalls, compact);
  }

  method RenderHead(reply: Reply) returns (content: seq<ContentBlock>)
    ensures content == ThinkingPart(reply) + TextPart(reply)
  {
    content := [];
    var blocks, ok := ThinkingBlocks(reply.replay);
    if ok {
      content := content + blocks;
    } else {
      var thinking := if reply.reasoningContent != "" then reply.reasoningContent else reply.reasoning;
      if thinking != "" {
        content := content + [ThinkingBlock(thinking)];
      }
    }
    assert content == ThinkingPart(reply);
    if reply.text != "" {
      content := content + [TextBlock(reply.text)];
    }
  }

  method RenderTools(head: seq<ContentBlock>, calls: seq<ToolCall>, compact: Compactor) returns (content: seq<ContentBlock>)
    ensures content == head + ToolPart(calls, compact)
  {
    content := head;
    ghost var tools := ToolPart(calls, compact);
    for i := 0 to |calls|
      invariant content == head + tools[..i]
    {
      var call := calls[i];
      content := content + [ToolUseBlock(call.id, call.name, ArgumentsToRaw(call.arguments, compact), call.extra)];
      assert tools[..i + 1] == tools[..i] + [tools[i]];
    }
    assert tools[..|calls|] == tools;
  }

  method FromChatResponse(resp: Option<ChatResponse>, compact: Compactor) returns (out: MessagesResponse)
    ensures out == Translated(resp, compact)
  {
    out := MessagesResponse("", "", [], "", None, ZeroUsage);
    if resp.None? { return; }
    out := out.(
      id := NormalizeMessageId(resp.value.id), model := resp.value.model, usage := UsageFromCore(resp.value.usage));
    if |resp.value.choices| > 0 {
      var reply := resp.value.choices[0];
      var content := RenderContent(reply, compact);
      var reason := StopReasonFromFinish(reply.finishReason, |reply.toolCalls| > 0);
      var sequence: Option<string> := None;
      if reply.stopSequence != "" && reason == "end_turn" {
        reason := "stop_sequence";
        sequence := Some(reply.stopSequence);
      }
      out := out.(content := content, stopReason := reason, stopSequence := sequence);
    }
    if out.stopReason == "" {
      out := out.(stopReason := "end_turn");
    }
  }
}
