// The translation loops of internal/anthropicapi/request.go, proved against the
// functions of RequestModel.

module RequestTranslation {
  import opened Prelude
  import opened RequestModel

  method TextBlocksText(c: Content) returns (r: Result<string>)
    ensures r == RequestModel.TextBlocksText(c)
  {
    match c {
      case Absent =>
        return Ok("");
      case Text(text) =>
        return Ok(text);
      case Malformed =>
        return Err(BadContent);
      case Blocks(blocks) =>
        var parts: seq<string> := [];
        var i := 0;
        while i < |blocks|
          invariant i <= |blocks|
          invariant TextsOf(blocks[..i]) == Ok(parts)
        {
          assert blocks[..i + 1][..i] == blocks[..i] && parts + [] == parts;
          if blocks[i].kind != TextBlock {
            TextsFail(blocks, i);
            return Err(Unsupported(blocks[i].kind));
          }
          if blocks[i].text != "" {
            parts := parts + [blocks[i].text];
          }
          i := i + 1;
        }
        assert blocks[..i] == blocks;
        return Ok(Join(parts, "\n"));
    }
  }

  lemma {:induction false} TextsFail(blocks: seq<Block>, i: nat)
    requires i < |blocks| && TextsOf(blocks[..i]).Ok? && blocks[i].kind != TextBlock
    ensures TextsOf(blocks) == Err(Unsupported(blocks[i].kind))
    decreases |blocks|
  {
    var n := |blocks| - 1;
    if i < n {
      assert blocks[..n][..i] == blocks[..i];
      TextsFail(blocks[..n], i);
    }
  }

  method SystemContent(c: Content, lenient: bool) returns (r: Result<MessageContent>)
    ensures r == RequestModel.SystemContent(c, lenient)
  {
    match c {
      case Absent =>
        return Ok(NoContent);
      case Malformed =>
        return Err(BadContent);
      case Text(text) =>
        var trimmed := TrimSpace(text);
        return Ok(if trimmed == "" then NoContent else Plain(trimmed));
      case Blocks(blocks) =>
        var parts: seq<ContentPart> := [];
        var hasCacheControl := false;
        var i := 0;
        while i < |blocks|
          invariant i <= |blocks|
          invariant SystemBlocks(blocks[..i], lenient) == Ok(parts)
          invariant hasCacheControl <==> exists k :: 0 <= k < |parts| && parts[k].extra != map[]
        {
          CollectStep(EachSystem(lenient), blocks, i);
          var b := blocks[i];
          i := i + 1;
          if b.kind != TextBlock {
            if lenient {
              assert parts + [] == parts;
              continue;
            }
            return Err(Unsupported(b.kind));
          }
          if b.text == "" {
            assert parts + [] == parts;
            continue;
          }
          if b.cacheControl.BadCache? {
            return Err(BadCacheControl);
          }
          var extra := CacheExtra(b.cacheControl);
          if extra != map[] {
            hasCacheControl := true;
          }
          ghost var before := parts;
          parts := parts + [TextPart(b.text, extra)];
          assert parts[|before|].extra == extra;
          assert forall k :: 0 <= k < |before| ==> parts[k] == before[k];
        }
        assert blocks[..i] == blocks;
        if |parts| == 0 {
          return Ok(NoContent);
        }
        if !hasCacheControl {
          return Ok(Plain(TrimSpace(ExtractText(Parts(parts)))));
        }
        return Ok(Parts(parts));
    }
  }

  // Collecting stops at the first failing element.
  lemma {:induction false} CollectStep<A, T>(f: (nat, A) -> Result<seq<T>>, xs: seq<A>, i: nat)
    requires i < |xs| && Collect(f, xs[..i]).Ok?
    ensures f(i, xs[i]).Err? ==> Collect(f, xs) == Err(f(i, xs[i]).fault)
    ensures Collect(f, xs[..i + 1]) == Then(Collect(f, xs[..i]), f(i, xs[i]))
    decreases |xs|
  {
    var n := |xs| - 1;
    assert xs[..i + 1][..i] == xs[..i];
    if i < n {
      var rest := xs[..n];
      assert rest[..i] == xs[..i] && rest[i] == xs[i];
      CollectStep(f, rest, i);
    } else {
      assert xs[..n + 1] == xs;
    }
  }

  method ToolResultContent(c: Content, lenient: bool) returns (r: Result<MessageContent>)
    ensures r == RequestModel.ToolResultContent(c, lenient)
  {
    match c {
      case Absent =>
        return Ok(Plain(""));
      case Text(text) =>
        return Ok(Plain(text));
      case Malformed =>
        return Err(BadContent);
      case Blocks(blocks) =>
        var parts: seq<ContentPart> := [];
        var i := 0;
        while i < |blocks|
          invariant i <= |blocks|
          invariant ResultBlocks(blocks[..i], lenient) == Ok(parts)
        {
          CollectStep(EachResult(lenient), blocks, i);
          var b := blocks[i];
          i := i + 1;
          if b.cacheControl.BadCache? {
            return Err(BadCacheControl);
          }
          assert parts + [] == parts;
          if IsPayload(b.kind) {
            var part := PayloadPart(b, CacheExtra(b.cacheControl));
            if part.Err? {
              return Err(part.fault);
            }
            if part.value.Some? {
              parts := parts + [part.value.value];
            }
          } else {
            if lenient {
              continue;
            }
            return Err(Unsupported(b.kind));
          }
        }
        assert blocks[..i] == blocks;
        var content := CollapseParts(parts);
        if content.NoContent? {
          return Ok(Plain(""));
        }
        return Ok(content);
    }
  }

  method ConvertBlockMessage(role: string, blocks: seq<Block>, lenient: bool) returns (r: Result<seq<ChatMessage>>)
    ensures r == BlockMessage(role, blocks, lenient)
  {
    var toolMessages: seq<ChatMessage> := [];
    var parts: seq<ContentPart> := [];
    var toolCalls: seq<ToolCall> := [];
    var thinking: seq<Replay> := [];
    var i := 0;
    while i < |blocks|
      invariant i <= |blocks|
      invariant BlocksOf(role, blocks[..i], lenient) == Ok(Gathered(toolMessages, parts, toolCalls, thinking))
    {
      var b := blocks[i];
      assert blocks[..i + 1][..i] == blocks[..i];
      BlocksStep(role, blocks, i, lenient);
      i := i + 1;
      var one := ConvertBlock(role, b, lenient);
      if one.Err? {
        return Err(one.fault);
      }
      toolMessages := toolMessages + one.value.toolMessages;
      parts := parts + one.value.parts;
      toolCalls := toolCalls + one.value.toolCalls;
      thinking := thinking + one.value.thinking;
    }
    assert blocks[..i] == blocks;
    var messages := toolMessages;
    var content := CollapseParts(parts);
    if !content.NoContent? || |toolCalls| > 0 || |thinking| > 0 {
      var msg := ChatMessage(role, content, "", toolCalls, map[]);
      if |thinking| > 0 {
        msg := msg.(extra := map["extra_content" := ThinkingBlocks(thinking)]);
      }
      messages := messages + [msg];
    }
    return Ok(messages);
  }

  // The body of the loop: what one block appends.
  method ConvertBlock(role: string, b: Block, lenient: bool) returns (r: Result<Gathered>)
    ensures r == BlockOf(role, b, lenient)
  {
    if b.cacheControl.BadCache? {
      return Err(BadCacheControl);
    }
    if IsPayload(b.kind) {
      var part := PayloadPart(b, CacheExtra(b.cacheControl));
      if part.Err? {
        return Err(part.fault);
      }
      return Ok(Empty.(parts := if part.value.Some? then [part.value.value] else []));
    }
    match b.kind {
      case ToolUseBlock =>
        if TrimSpace(b.name) == "" {
          return Err(MissingName);
        }
        return Ok(Empty.(toolCalls := [ToolCallOf(b)]));
      case ToolResultBlock =>
        if TrimSpace(b.toolUseId) == "" {
          return Err(MissingToolUseId);
        }
        var content := ToolResultContent(b.content, lenient);
        if content.Err? {
          return Err(content.fault);
        }
        return Ok(Empty.(toolMessages := [ToolMessageOf(b, content.value)]));
      case ThinkingBlock | RedactedBlock =>
        return Ok(if role == "assistant" then Empty.(thinking := [ReplayOf(b)]) else Empty);
      case OtherBlock(_) =>
        return if lenient then Ok(Empty) else Err(Unsupported(b.kind));
    }
  }

  lemma {:induction false} BlocksStep(role: string, blocks: seq<Block>, i: nat, lenient: bool)
    requires i < |blocks| && BlocksOf(role, blocks[..i], lenient).Ok?
    ensures BlockOf(role, blocks[i], lenient).Err? ==>
      BlocksOf(role, blocks, lenient) == Err(BlockOf(role, blocks[i], lenient).fault)
    decreases |blocks|
  {
    var n := |blocks| - 1;
    if i < n {
      assert blocks[..n][..i] == blocks[..i];
      BlocksStep(role, blocks[..n], i, lenient);
    }
  }

  method ConvertMessages(req: Request, lenient: bool) returns (r: Result<seq<ChatMessage>>)
    ensures r == RequestModel.ConvertMessages(req, lenient)
  {
    var out: seq<ChatMessage> := [];
    var system := SystemContent(req.system, lenient);
    if system.Err? {
      return Err(system.fault);
    }
    if ExtractText(system.value) != "" {
      out := out + [ChatMessage("system", system.value, "", [], map[])];
      assert out == [ChatMessage("system", system.value, "", [], map[])];
    }
    assert SystemMessage(req.system, lenient) == Ok(out);
    assert req.messages[..0] == [] && MessagesOf(req.messages[..0], lenient) == Ok([]);
    assert out + [] == out;
    var i := 0;
    while i < |req.messages|
      invariant i <= |req.messages|
      invariant Then(SystemMessage(req.system, lenient), MessagesOf(req.messages[..i], lenient)) == Ok(out)
    {
      var one := ConvertMessage(req.messages[i], lenient);
      CollectStep(EachMessage(lenient), req.messages, i);
      if one.Err? {
        return Err(InMessage(i, one.fault));
      }
      MoreMessages(SystemMessage(req.system, lenient), MessagesOf(req.messages[..i], lenient), one);
      out := out + one.value;
      i := i + 1;
    }
    assert req.messages[..i] == req.messages;
    return Ok(out);
  }

  lemma MoreMessages<T>(a: Result<seq<T>>, b: Result<seq<T>>, c: Result<seq<T>>)
    ensures Then(Then(a, b), c) == Then(a, Then(b, c))
  {
    if a.Ok? && b.Ok? && c.Ok? {
      assert a.value + b.value + c.value == a.value + (b.value + c.value);
    }
  }

  // The body of the loop: one message.
  method ConvertMessage(m: Message, lenient: bool) returns (r: Result<seq<ChatMessage>>)
    ensures r == MessageOf(m, lenient)
  {
    if m.role == "system" {
      var content := SystemContent(m.content, lenient);
      if content.Err? {
        return Err(content.fault);
      }
      if ExtractText(content.value) == "" {
        return Ok([]);
      }
      return Ok([ChatMessage("system", content.value, "", [], map[])]);
    }
    if m.role != "user" && m.role != "assistant" {
      return Err(BadRole);
    }
    match m.content {
      case Malformed =>
        return Err(BadContent);
      case Absent =>
        return Ok([ChatMessage(m.role, Plain(""), "", [], map[])]);
      case Text(text) =>
        return Ok([ChatMessage(m.role, Plain(text), "", [], map[])]);
      case Blocks(blocks) =>
        r := ConvertBlockMessage(m.role, blocks, lenient);
    }
  }

  method ConvertTools(tools: seq<Tool>, lenient: bool) returns (r: Result<Option<seq<ToolDef>>>)
    ensures r == RequestModel.ConvertTools(tools, lenient)
  {
    if |tools| == 0 {
      return Ok(None);
    }
    var out: seq<ToolDef> := [];
    var i := 0;
    while i < |tools|
      invariant i <= |tools|
      invariant ToolsOf(tools[..i], lenient) == Ok(out)
    {
      CollectStep(EachTool(lenient), tools, i);
      var one := ConvertTool(tools[i], lenient);
      if one.Err? {
        return Err(InTool(i, one.fault));
      }
      out := out + one.value;
      i := i + 1;
    }
    assert tools[..i] == tools;
    return Ok(Some(out));
  }

  // The body of the loop: one tool.
  method ConvertTool(t: Tool, lenient: bool) returns (r: Result<seq<ToolDef>>)
    ensures r == ToolOf(t, lenient)
  {
    var kind := TrimSpace(t.kind);
    if kind != "" && kind != "custom" {
      return if lenient then Ok([]) else Err(UnsupportedTool(t.kind));
    }
    if TrimSpace(t.name) == "" {
      return Err(MissingName);
    }
    if t.schema.BadSchema? {
      return Err(BadTool);
    }
    if t.cacheControl.BadCache? {
      return Err(BadCacheControl);
    }
    var def := ToolDef(t.name, t.description, None, None);
    if t.schema.Schema? {
      def := def.(parameters := Some(t.schema.json));
    }
    if t.cacheControl.CacheObject? {
      def := def.(cacheControl := Some(t.cacheControl.json));
    }
    return Ok([def]);
  }

  method ToChatRequest(request: Option<Request>, lenient: bool) returns (r: Result<ChatRequest>)
    ensures r == ToChat(request, lenient)
  {
    if request.None? {
      return Err(NoRequest);
    }
    var req := request.value;
    if TrimSpace(req.model) == "" {
      return Err(NoModel);
    }
    if req.maxTokens <= 0 {
      return Err(BadMaxTokens);
    }
    if |req.messages| == 0 {
      return Err(NoMessages);
    }
    if req.cacheControl.BadCache? {
      return Err(BadCacheControl);
    }
    var messages := ConvertMessages(req, lenient);
    if messages.Err? {
      return Err(messages.fault);
    }
    var tools := ConvertTools(req.tools, lenient);
    if tools.Err? {
      return Err(tools.fault);
    }
    return Ok(Chat(req, messages.value, tools.value));
  }
}
