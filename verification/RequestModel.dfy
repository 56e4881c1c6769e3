// An Anthropic Messages request after JSON parsing, the canonical chat request,
// and the meaning of each translation function of
// internal/anthropicapi/request.go, strict and lenient.

module RequestModel {
  import opened Prelude
  import Base64

  // ---- the request ----

  // JSON kept as sent, and the JSON values the translation builds itself.
  datatype Json = Raw(text: string) | Strings(items: seq<string>) | IsErrorMarker | ThinkingBlocks(blocks: seq<Replay>)

  datatype CacheControl = NoCache | CacheObject(json: Json) | BadCache

  // A polymorphic content value: null or missing, a string, an array of blocks,
  // or anything else.
  datatype Content = Absent | Text(text: string) | Blocks(blocks: seq<Block>) | Malformed

  datatype Kind =
    | TextBlock | ImageBlock | DocumentBlock | SearchResultBlock
    | ToolUseBlock | ToolResultBlock | ThinkingBlock | RedactedBlock
    | OtherBlock(name: string)

  // The source member: an object for images and documents, a string for search
  // results; OtherSource is any other JSON value.
  datatype SourceField = NoSource | SourceObject(source: Source) | SourceString(text: string) | OtherSource

  datatype Source = Source(
    kind: string, mediaType: string, data: string, url: string, fileId: string, content: Content)

  datatype Block = Block(
    kind: Kind, text: string, thinking: string, signature: string, data: string,
    source: SourceField, title: string,
    id: string, name: string, input: string,
    toolUseId: string, content: Content, isError: bool,
    cacheControl: CacheControl, extraContent: Option<Json>)

  datatype Message = Message(role: string, content: Content)

  datatype Schema = NoSchema | Schema(json: Json) | BadSchema

  datatype Tool = Tool(kind: string, name: string, description: string, schema: Schema, cacheControl: CacheControl)

  datatype ToolChoice = ToolChoice(kind: string, name: string, disableParallel: Option<bool>)

  datatype Thinking = Thinking(kind: string, budget: int)

  datatype Request = Request(
    model: string, messages: seq<Message>, maxTokens: int, system: Content, userId: Option<string>,
    stopSequences: seq<string>, stream: bool, temperature: Option<real>, topP: Option<real>,
    tools: seq<Tool>, toolChoice: Option<ToolChoice>, thinking: Option<Thinking>, cacheControl: CacheControl)

  // ---- the canonical chat request ----

  type Extra = map<string, Json>

  datatype File = File(name: string, data: string, url: string, id: string)

  datatype ContentPart = TextPart(text: string, extra: Extra) | ImagePart(url: string, extra: Extra) | FilePart(file: File, extra: Extra)

  datatype MessageContent = NoContent | Plain(text: string) | Parts(parts: seq<ContentPart>)

  datatype Replay = Thought(thinking: string, signature: string) | Redacted(data: string)

  datatype ToolCall = ToolCall(id: string, name: string, arguments: string, extra: Extra)

  datatype ChatMessage = ChatMessage(
    role: string, content: MessageContent, toolCallId: string, toolCalls: seq<ToolCall>, extra: Extra)

  datatype ToolDef = ToolDef(name: string, description: string, parameters: Option<Json>, cacheControl: Option<Json>)

  datatype Choice = NoChoice | ChoiceWord(word: string) | ChoiceFunction(name: string)

  // tools is None for a nil list.
  datatype ChatRequest = ChatRequest(
    model: string, messages: seq<ChatMessage>, maxTokens: int, temperature: Option<real>, topP: Option<real>,
    stream: bool, reasoning: Option<string>, user: string, includeUsage: bool,
    tools: Option<seq<ToolDef>>, toolChoice: Choice, parallelToolCalls: Option<bool>, extra: Extra)

  datatype Fault =
    | NoRequest | NoModel | BadMaxTokens | NoMessages
    | BadCacheControl | BadContent | BadRole | BadSource | MissingSource | BadImage | BadDocument
    | MissingName | MissingToolUseId | BadTool
    | Unsupported(kind: Kind) | UnsupportedTool(tool: string)
    | InMessage(index: nat, fault: Fault) | InTool(position: nat, fault: Fault)

  datatype Result<+T> = Ok(value: T) | Err(fault: Fault)

  // ---- content parts ----

  function CacheExtra(c: CacheControl): Extra {
    if c.CacheObject? then map["cache_control" := c.json] else map[]
  }

  // The non-empty texts of a string or an array of text blocks.
  function TextsOf(blocks: seq<Block>): Result<seq<string>> {
    if blocks == [] then Ok([])
    else
      var n := |blocks| - 1;
      var rest := TextsOf(blocks[..n]);
      if rest.Err? then rest
      else if blocks[n].kind != TextBlock then Err(Unsupported(blocks[n].kind))
      else Ok(rest.value + if blocks[n].text == "" then [] else [blocks[n].text])
  }

  function TextBlocksText(c: Content): Result<string> {
    match c
    case Absent => Ok("")
    case Text(text) => Ok(text)
    case Malformed => Err(BadContent)
    case Blocks(blocks) =>
      var texts := TextsOf(blocks);
      if texts.Err? then Err(texts.fault) else Ok(Join(texts.value, "\n"))
  }

  // None when the block has no source.
  function DecodeSource(s: SourceField): Result<Option<Source>> {
    match s
    case NoSource => Ok(None)
    case SourceObject(source) => Ok(Some(source))
    case SourceString(_) => Err(BadSource)
    case OtherSource => Err(BadSource)
  }

  function ImageURL(source: Option<Source>): Result<string> {
    if source.None? then Err(MissingSource)
    else
      var s := source.value;
      if s.kind == "base64" then
        if s.mediaType == "" || s.data == "" then Err(BadImage) else Ok("data:" + s.mediaType + ";base64," + s.data)
      else if s.kind == "url" then if s.url == "" then Err(BadImage) else Ok(s.url)
      else Err(BadImage)
  }

  // The bytes of a string that holds one byte per character.
  function Bytes(s: string): seq<byte> {
    seq(|s|, i requires 0 <= i < |s| => (s[i] as int) % 256)
  }

  function DocumentPart(b: Block, extra: Extra): Result<Option<ContentPart>> {
    var decoded := DecodeSource(b.source);
    if decoded.Err? then Err(decoded.fault)
    else if decoded.value.None? then Err(MissingSource)
    else
      var s := decoded.value.value;
      var title := TrimSpace(b.title);
      var file := File(title, "", "", "");
      if s.kind == "base64" then
        if s.mediaType == "" || s.data == "" then Err(BadDocument)
        else Ok(Some(FilePart(file.(data := "data:" + s.mediaType + ";base64," + s.data), extra)))
      else if s.kind == "text" then
        if s.data == "" then Err(BadDocument)
        else
          var mediaType := if s.mediaType == "" then "text/plain" else s.mediaType;
          Ok(Some(FilePart(file.(data := "data:" + mediaType + ";base64," + Base64.Encode(Bytes(s.data))), extra)))
      else if s.kind == "url" then
        if s.url == "" then Err(BadDocument) else Ok(Some(FilePart(file.(url := s.url), extra)))
      else if s.kind == "file" then
        if TrimSpace(s.fileId) == "" then Err(BadDocument)
        else Ok(Some(FilePart(file.(id := TrimSpace(s.fileId)), extra)))
      else if s.kind == "content" then
        if s.content.Absent? then Err(BadDocument)
        else
          var text := TextBlocksText(s.content);
          if text.Err? then Err(text.fault)
          else
            var whole := if title != "" && text.value != "" then title + "\n\n" + text.value else text.value;
            Ok(if whole == "" then None else Some(TextPart(whole, extra)))
      else Err(BadDocument)
  }

  function SearchResultText(b: Block): Result<string> {
    var body := TextBlocksText(b.content);
    if body.Err? then body
    else
      var title := TrimSpace(b.title);
      var source := if b.source.SourceString? then TrimSpace(b.source.text) else "";
      var head := (if title != "" then ["Title: " + title] else []) + (if source != "" then ["Source: " + source] else []);
      var tail := if body.value == "" then [] else (if head != [] then [""] else []) + [body.value];
      Ok(Join(head + tail, "\n"))
  }

  predicate IsPayload(k: Kind) {
    k == TextBlock || k == ImageBlock || k == DocumentBlock || k == SearchResultBlock
  }

  // None when the block is empty and adds nothing.
  function PayloadPart(b: Block, extra: Extra): Result<Option<ContentPart>> {
    match b.kind
    case TextBlock => Ok(if b.text == "" then None else Some(TextPart(b.text, extra)))
    case ImageBlock =>
      var source := DecodeSource(b.source);
      if source.Err? then Err(source.fault)
      else
        var url := ImageURL(source.value);
        if url.Err? then Err(url.fault) else Ok(Some(ImagePart(url.value, extra)))
    case DocumentBlock => DocumentPart(b, extra)
    case SearchResultBlock =>
      var text := SearchResultText(b);
      if text.Err? then Err(text.fault)
      else Ok(if text.value == "" then None else Some(TextPart(text.value, extra)))
    case _ => Err(Unsupported(b.kind))
  }

  predicate PlainPart(p: ContentPart) {
    p.TextPart? && p.extra == map[]
  }

  function PartTexts(parts: seq<ContentPart>): seq<string> {
    seq(|parts|, i requires 0 <= i < |parts| => if parts[i].TextPart? then parts[i].text else "")
  }

  function CollapseParts(parts: seq<ContentPart>): MessageContent {
    if parts == [] then NoContent
    else if forall i :: 0 <= i < |parts| ==> PlainPart(parts[i]) then Plain(Join(PartTexts(parts), "\n"))
    else Parts(parts)
  }

  function NonEmpty(texts: seq<string>): seq<string> {
    if texts == [] then []
    else (if texts[0] == "" then [] else [texts[0]]) + NonEmpty(texts[1..])
  }

  // core.ExtractTextContent.
  function ExtractText(c: MessageContent): string {
    match c
    case NoContent => ""
    case Plain(text) => text
    case Parts(parts) => Join(NonEmpty(PartTexts(parts)), " ")
  }

  // ---- folding a list into a list, stopping at the first error ----

  function Then<T>(a: Result<seq<T>>, b: Result<seq<T>>): Result<seq<T>> {
    if a.Err? then a else if b.Err? then b else Ok(a.value + b.value)
  }

  // What f makes of each element and its position, concatenated.
  function Collect<A, T>(f: (nat, A) -> Result<seq<T>>, xs: seq<A>): Result<seq<T>> {
    if xs == [] then Ok([])
    else
      var n := |xs| - 1;
      Then(Collect(f, xs[..n]), f(n, xs[n]))
  }

  // ---- tool results ----

  // What one block adds to the content of a tool result.
  function ResultBlock(b: Block, lenient: bool): Result<seq<ContentPart>> {
    if b.cacheControl.BadCache? then Err(BadCacheControl)
    else if IsPayload(b.kind) then PayloadParts(b)
    else if lenient then Ok([])
    else Err(Unsupported(b.kind))
  }

  function PayloadParts(b: Block): Result<seq<ContentPart>> {
    var part := PayloadPart(b, CacheExtra(b.cacheControl));
    if part.Err? then Err(part.fault) else Ok(if part.value.Some? then [part.value.value] else [])
  }

  function EachResult(lenient: bool): (nat, Block) -> Result<seq<ContentPart>> {
    (i: nat, b: Block) => ResultBlock(b, lenient)
  }

  function ResultBlocks(blocks: seq<Block>, lenient: bool): Result<seq<ContentPart>> {
    Collect(EachResult(lenient), blocks)
  }

  function ToolResultContent(c: Content, lenient: bool): Result<MessageContent> {
    match c
    case Absent => Ok(Plain(""))
    case Text(text) => Ok(Plain(text))
    case Malformed => Err(BadContent)
    case Blocks(blocks) =>
      var parts := ResultBlocks(blocks, lenient);
      if parts.Err? then Err(parts.fault)
      else
        var content := CollapseParts(parts.value);
        Ok(if content.NoContent? then Plain("") else content)
  }

  // ---- the system prompt ----

  function SystemBlock(b: Block, lenient: bool): Result<seq<ContentPart>> {
    if b.kind != TextBlock then if lenient then Ok([]) else Err(Unsupported(b.kind))
    else if b.text == "" then Ok([])
    else if b.cacheControl.BadCache? then Err(BadCacheControl)
    else Ok([TextPart(b.text, CacheExtra(b.cacheControl))])
  }

  function EachSystem(lenient: bool): (nat, Block) -> Result<seq<ContentPart>> {
    (i: nat, b: Block) => SystemBlock(b, lenient)
  }

  function SystemBlocks(blocks: seq<Block>, lenient: bool): Result<seq<ContentPart>> {
    Collect(EachSystem(lenient), blocks)
  }

  function SystemParts(parts: seq<ContentPart>): MessageContent {
    if parts == [] then NoContent
    else if forall i :: 0 <= i < |parts| ==> parts[i].extra == map[] then Plain(TrimSpace(ExtractText(Parts(parts))))
    else Parts(parts)
  }

  function SystemText(text: string): MessageContent {
    if TrimSpace(text) == "" then NoContent else Plain(TrimSpace(text))
  }

  function SystemContent(c: Content, lenient: bool): Result<MessageContent> {
    match c
    case Absent => Ok(NoContent)
    case Text(text) => Ok(SystemText(text))
    case Malformed => Err(BadContent)
    case Blocks(blocks) =>
      var parts := SystemBlocks(blocks, lenient);
      if parts.Err? then Err(parts.fault) else Ok(SystemParts(parts.value))
  }

  function SystemMessage(c: Content, lenient: bool): Result<seq<ChatMessage>> {
    var content := SystemContent(c, lenient);
    if content.Err? then Err(content.fault)
    else if ExtractText(content.value) == "" then Ok([])
    else Ok([ChatMessage("system", content.value, "", [], map[])])
  }

  // ---- block messages ----

  // What the blocks seen so far add up to.
  datatype Gathered = Gathered(
    toolMessages: seq<ChatMessage>, parts: seq<ContentPart>, toolCalls: seq<ToolCall>, thinking: seq<Replay>)

  const Empty := Gathered([], [], [], [])

  function Joined(a: Gathered, b: Gathered): Gathered {
    Gathered(a.toolMessages + b.toolMessages, a.parts + b.parts, a.toolCalls + b.toolCalls, a.thinking + b.thinking)
  }

  function ToolCallOf(b: Block): ToolCall {
    var extra := CacheExtra(b.cacheControl);
    ToolCall(b.id, b.name, b.input, if b.extraContent.Some? then extra["extra_content" := b.extraContent.value] else extra)
  }

  function ToolMessageOf(b: Block, content: MessageContent): ChatMessage {
    var extra := CacheExtra(b.cacheControl);
    ChatMessage("tool", content, TrimSpace(b.toolUseId), [],
      if b.isError then extra["extra_content" := IsErrorMarker] else extra)
  }

  function ReplayOf(b: Block): Replay {
    if b.kind == RedactedBlock then Redacted(b.data) else Thought(b.thinking, b.signature)
  }

  function ToolResultBlockOf(b: Block, lenient: bool): Result<Gathered> {
    if TrimSpace(b.toolUseId) == "" then Err(MissingToolUseId)
    else
      var content := ToolResultContent(b.content, lenient);
      if content.Err? then Err(content.fault) else Ok(Empty.(toolMessages := [ToolMessageOf(b, content.value)]))
  }

  // What one block adds to its message.
  function BlockOf(role: string, b: Block, lenient: bool): Result<Gathered> {
    if b.cacheControl.BadCache? then Err(BadCacheControl)
    else
      match b.kind
      case ToolUseBlock =>
        if TrimSpace(b.name) == "" then Err(MissingName) else Ok(Empty.(toolCalls := [ToolCallOf(b)]))
      case ToolResultBlock => ToolResultBlockOf(b, lenient)
      case ThinkingBlock => Ok(if role == "assistant" then Empty.(thinking := [ReplayOf(b)]) else Empty)
      case RedactedBlock => Ok(if role == "assistant" then Empty.(thinking := [ReplayOf(b)]) else Empty)
      case OtherBlock(_) => if lenient then Ok(Empty) else Err(Unsupported(b.kind))
      case _ =>
        var parts := PayloadParts(b);
        if parts.Err? then Err(parts.fault) else Ok(Empty.(parts := parts.value))
  }

  function AndThen(a: Result<Gathered>, b: Result<Gathered>): Result<Gathered> {
    if a.Err? then a else if b.Err? then b else Ok(Joined(a.value, b.value))
  }

  function BlocksOf(role: string, blocks: seq<Block>, lenient: bool): Result<Gathered> {
    if blocks == [] then Ok(Empty)
    else AndThen(BlocksOf(role, blocks[..|blocks| - 1], lenient), BlockOf(role, blocks[|blocks| - 1], lenient))
  }

  // Tool messages first, then what remains of the message, if anything.
  function Assemble(role: string, g: Gathered): seq<ChatMessage> {
    var content := CollapseParts(g.parts);
    if content.NoContent? && g.toolCalls == [] && g.thinking == [] then g.toolMessages
    else
      g.toolMessages
      + [ChatMessage(role, content, "", g.toolCalls,
          if g.thinking == [] then map[] else map["extra_content" := ThinkingBlocks(g.thinking)])]
  }

  function BlockMessage(role: string, blocks: seq<Block>, lenient: bool): Result<seq<ChatMessage>> {
    var g := BlocksOf(role, blocks, lenient);
    if g.Err? then Err(g.fault) else Ok(Assemble(role, g.value))
  }

  // ---- messages ----

  function MessageOf(m: Message, lenient: bool): Result<seq<ChatMessage>> {
    if m.role == "system" then SystemMessage(m.content, lenient)
    else if m.role != "user" && m.role != "assistant" then Err(BadRole)
    else
      match m.content
      case Absent => Ok([ChatMessage(m.role, Plain(""), "", [], map[])])
      case Text(text) => Ok([ChatMessage(m.role, Plain(text), "", [], map[])])
      case Malformed => Err(BadContent)
      case Blocks(blocks) => BlockMessage(m.role, blocks, lenient)
  }

  function AtMessage<T>(i: nat, r: Result<T>): Result<T> {
    if r.Err? then Err(InMessage(i, r.fault)) else r
  }

  function EachMessage(lenient: bool): (nat, Message) -> Result<seq<ChatMessage>> {
    (i: nat, m: Message) => AtMessage(i, MessageOf(m, lenient))
  }

  function MessagesOf(messages: seq<Message>, lenient: bool): Result<seq<ChatMessage>> {
    Collect(EachMessage(lenient), messages)
  }

  function ConvertMessages(req: Request, lenient: bool): Result<seq<ChatMessage>> {
    Then(SystemMessage(req.system, lenient), MessagesOf(req.messages, lenient))
  }

  // ---- tools ----

  // An Anthropic built-in tool, which no chat request can express.
  predicate ServerTool(t: Tool) {
    TrimSpace(t.kind) != "" && TrimSpace(t.kind) != "custom"
  }

  function ToolOf(t: Tool, lenient: bool): Result<seq<ToolDef>> {
    if ServerTool(t) then if lenient then Ok([]) else Err(UnsupportedTool(t.kind))
    else if TrimSpace(t.name) == "" then Err(MissingName)
    else if t.schema.BadSchema? then Err(BadTool)
    else if t.cacheControl.BadCache? then Err(BadCacheControl)
    else
      Ok([ToolDef(t.name, t.description,
          if t.schema.Schema? then Some(t.schema.json) else None,
          if t.cacheControl.CacheObject? then Some(t.cacheControl.json) else None)])
  }

  function AtTool<T>(i: nat, r: Result<T>): Result<T> {
    if r.Err? then Err(InTool(i, r.fault)) else r
  }

  function EachTool(lenient: bool): (nat, Tool) -> Result<seq<ToolDef>> {
    (i: nat, t: Tool) => AtTool(i, ToolOf(t, lenient))
  }

  function ToolsOf(tools: seq<Tool>, lenient: bool): Result<seq<ToolDef>> {
    Collect(EachTool(lenient), tools)
  }

  // A nil list for no tools at all.
  function ConvertTools(tools: seq<Tool>, lenient: bool): Result<Option<seq<ToolDef>>> {
    if tools == [] then Ok(None)
    else
      var defs := ToolsOf(tools, lenient);
      if defs.Err? then Err(defs.fault) else Ok(Some(defs.value))
  }

  // ---- the rest of the request ----

  function ChoiceOf(choice: Option<ToolChoice>): Choice {
    if choice.None? then NoChoice
    else
      var c := choice.value;
      if c.kind == "auto" then ChoiceWord("auto")
      else if c.kind == "any" then ChoiceWord("required")
      else if c.kind == "none" then ChoiceWord("none")
      else if c.kind == "tool" then if TrimSpace(c.name) != "" then ChoiceFunction(c.name) else ChoiceWord("auto")
      else NoChoice
  }

  function ParallelOf(choice: Option<ToolChoice>): Option<bool> {
    if choice.Some? && choice.value.disableParallel == Some(true) then Some(false) else None
  }

  function ReasoningOf(thinking: Option<Thinking>): Option<string> {
    if thinking.None? || thinking.value.kind == "" || thinking.value.kind == "disabled" then None
    else if thinking.value.kind == "adaptive" then Some("medium")
    else if thinking.value.budget >= 20000 then Some("high")
    else if thinking.value.budget >= 10000 then Some("medium")
    else Some("low")
  }

  function ExtraOf(req: Request): Extra {
    (if req.stopSequences == [] then map[] else map["stop" := Strings(req.stopSequences)]) + CacheExtra(req.cacheControl)
  }

  // The request once its messages and tools are translated.
  function Chat(req: Request, messages: seq<ChatMessage>, tools: Option<seq<ToolDef>>): ChatRequest {
    ChatRequest(
      req.model, messages, req.maxTokens, req.temperature, req.topP, req.stream, ReasoningOf(req.thinking),
      if req.userId.Some? && TrimSpace(req.userId.value) != "" then req.userId.value else "",
      req.stream, tools, ChoiceOf(req.toolChoice), ParallelOf(req.toolChoice), ExtraOf(req))
  }

  function ToChat(request: Option<Request>, lenient: bool): Result<ChatRequest> {
    if request.None? then Err(NoRequest)
    else
      var req := request.value;
      if TrimSpace(req.model) == "" then Err(NoModel)
      else if req.maxTokens <= 0 then Err(BadMaxTokens)
      else if req.messages == [] then Err(NoMessages)
      else if req.cacheControl.BadCache? then Err(BadCacheControl)
      else
        var messages := ConvertMessages(req, lenient);
        if messages.Err? then Err(messages.fault)
        else
          var tools := ConvertTools(req.tools, lenient);
          if tools.Err? then Err(tools.fault) else Ok(Chat(req, messages.value, tools.value))
  }
}
