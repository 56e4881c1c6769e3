// Values the Anthropic dialect exchanges and the pure meaning of every
// streamConverter operation (internal/anthropicapi/stream.go). JSON decoding is
// taken as done: a line already holds its parsed chunk.

module StreamModel {
  import opened Prelude

  // A tool-call delta. extra is the trimmed extra_content, "" when it is absent
  // or null.
  datatype ToolDelta = ToolDelta(index: int, id: string, name: string, arguments: string, extra: string)

  // One entry of the cumulative replay state. A missing signature is "". The
  // converter does not read thinking; the one-shot translation does.
  datatype ReplayBlock = ReplayBlock(kind: string, signature: string, data: string, thinking: string)

  // replay is None when the delta holds no usable Anthropic replay state.
  datatype Delta = Delta(
    content: string, reasoningContent: string, reasoning: string, stopSequence: string,
    toolCalls: seq<ToolDelta>, replay: Option<seq<ReplayBlock>>)

  datatype Choice = Choice(delta: Delta, finishReason: string)

  datatype ChatUsage = ChatUsage(
    promptTokens: int, completionTokens: int, cacheCreation: int, cacheRead: int,
    cachedDetails: Option<int>)

  datatype Chunk = Chunk(id: string, model: string, choices: seq<Choice>, usage: Option<ChatUsage>)

  const NoUsage := ChatUsage(0, 0, 0, 0, None)

  datatype UsagePayload = UsagePayload(
    output: int, input: Option<int>, cacheRead: Option<int>, cacheCreation: Option<int>)

  datatype BlockKind = TextKind | ThinkingKind | RedactedKind | ToolKind

  datatype StartBlock =
    | TextStart
    | ThinkingStart
    | RedactedStart(data: string)
    | ToolStart(id: string, name: string, extra: string)
  {
    function Kind(): BlockKind {
      match this
      case TextStart => TextKind
      case ThinkingStart => ThinkingKind
      case RedactedStart(_) => RedactedKind
      case ToolStart(_, _, _) => ToolKind
    }
  }

  datatype Event =
    | MessageStart(id: string, model: string, inputTokens: int)
    | BlockStart(index: nat, block: StartBlock)
    | ThinkingDelta(index: nat, thinking: string)
    | SignatureDelta(index: nat, signature: string)
    | TextDelta(index: nat, text: string)
    | InputDelta(index: nat, json: string)
    | BlockStop(index: nat)
    | MessageDelta(stopReason: string, stopSequence: Option<string>, usage: UsagePayload)
    | MessageStop

  // The fields of streamConverter, with everything emitted so far as a log.
  datatype Conv = Conv(
    model: string, inputEstimate: int,
    started: bool, blockOpen: bool, blockKind: BlockKind, curIndex: nat, nextIndex: nat,
    toolBlock: map<int, nat>, stopReason: string, stopSequence: string, thinkingSeen: nat,
    usage: ChatUsage, finalized: bool, log: seq<Event>)

  function NewConv(model: string, inputEstimate: int): Conv {
    Conv(model, inputEstimate, false, false, TextKind, 0, 0, map[], "", "", 0, NoUsage, false, [])
  }

  // ---- helpers shared with the one-shot translation ----

  function NormalizeMessageId(raw: string): string {
    var id := TrimSpace(raw);
    if id == "" then ""
    else if HasPrefix(id, "msg_") then id
    else "msg_" + id
  }

  function StopReasonFromFinish(finish: string, hasToolCalls: bool): string {
    if hasToolCalls then "tool_use"
    else if finish == "stop" then "end_turn"
    else if finish == "length" then "max_tokens"
    else if finish == "tool_calls" then "tool_use"
    else if finish == "content_filter" then "end_turn"
    else finish
  }

  // cmp.Or(reasoning_content, reasoning)
  function Reasoning(d: Delta): string {
    if d.reasoningContent != "" then d.reasoningContent else d.reasoning
  }

  function CacheRead(u: ChatUsage): int {
    if u.cacheRead > 0 then u.cacheRead
    else if u.cachedDetails.Some? then u.cachedDetails.value
    else 0
  }

  function Positive(n: int): Option<int> {
    if n > 0 then Some(n) else None
  }

  function PayloadOf(u: ChatUsage): UsagePayload {
    UsagePayload(u.completionTokens, Positive(u.promptTokens), Positive(CacheRead(u)), Positive(u.cacheCreation))
  }

  // ---- one method of streamConverter each ----

  function Emit(c: Conv, e: Event): Conv {
    c.(log := c.log + [e])
  }

  function EnsureStarted(c: Conv, id: string, model: string): Conv {
    if c.started then c
    else
      var msgId := NormalizeMessageId(id);
      Emit(c.(started := true), MessageStart(
        if msgId == "" then "msg_stream" else msgId,
        if model == "" then c.model else model,
        c.inputEstimate))
  }

  function CloseBlock(c: Conv): Conv {
    if !c.blockOpen then c
    else Emit(c.(blockOpen := false), BlockStop(c.curIndex))
  }

  function OpenBlock(c: Conv, block: StartBlock): Conv {
    Emit(c.(curIndex := c.nextIndex, nextIndex := c.nextIndex + 1, blockOpen := true, blockKind := block.Kind()),
         BlockStart(c.nextIndex, block))
  }

  // Only called for text and thinking blocks.
  function EnsureBlock(c: Conv, block: StartBlock): Conv {
    if c.blockOpen && c.blockKind == block.Kind() then c
    else OpenBlock(CloseBlock(c), block)
  }

  function HandleThinking(c: Conv, thinking: string): Conv {
    var d := EnsureBlock(c, ThinkingStart);
    Emit(d, ThinkingDelta(d.curIndex, thinking))
  }

  function HandleText(c: Conv, text: string): Conv {
    var d := EnsureBlock(c, TextStart);
    Emit(d, TextDelta(d.curIndex, text))
  }

  function RenderReplayBlock(c: Conv, b: ReplayBlock): Conv {
    if b.kind == "redacted_thinking" then
      CloseBlock(OpenBlock(CloseBlock(c), RedactedStart(b.data)))
    else if b.signature == "" then c
    else
      var d := EnsureBlock(c, ThinkingStart);
      CloseBlock(Emit(d, SignatureDelta(d.curIndex, b.signature)))
  }

  function RenderReplay(c: Conv, blocks: seq<ReplayBlock>): Conv {
    if blocks == [] then c
    else RenderReplayBlock(RenderReplay(c, blocks[..|blocks| - 1]), blocks[|blocks| - 1])
  }

  function HandleReplay(c: Conv, blocks: seq<ReplayBlock>): Conv {
    if |blocks| <= c.thinkingSeen then c
    else RenderReplay(c, blocks[c.thinkingSeen..]).(thinkingSeen := |blocks|)
  }

  function StartTool(c: Conv, call: ToolDelta): Conv {
    var d := OpenBlock(CloseBlock(c), ToolStart(call.id, call.name, call.extra));
    d.(toolBlock := d.toolBlock[call.index := d.curIndex])
  }

  function HandleToolCall(c: Conv, call: ToolDelta): Conv {
    var d := if call.index in c.toolBlock then c else StartTool(c, call);
    if call.arguments == "" then d
    else Emit(d, InputDelta(d.toolBlock[call.index], call.arguments))
  }

  // ---- a choice as the list of things it makes the converter do ----

  datatype Action =
    | Think(thinking: string)
    | Replay(blocks: seq<ReplayBlock>)
    | Text(text: string)
    | Tool(call: ToolDelta)
    | StopSeq(sequence: string)
    | Finish(reason: string)

  function Act(c: Conv, a: Action): Conv {
    match a
    case Think(t) => HandleThinking(c, t)
    case Replay(blocks) => HandleReplay(c, blocks)
    case Text(t) => HandleText(c, t)
    case Tool(call) => HandleToolCall(c, call)
    case StopSeq(s) => c.(stopSequence := s)
    case Finish(r) => c.(stopReason := StopReasonFromFinish(r, c.toolBlock != map[]))
  }

  function Acts(c: Conv, actions: seq<Action>): Conv {
    if actions == [] then c
    else Act(Acts(c, actions[..|actions| - 1]), actions[|actions| - 1])
  }

  function ToolActions(calls: seq<ToolDelta>): (r: seq<Action>)
    ensures |r| == |calls| && forall i :: 0 <= i < |r| ==> r[i] == Tool(calls[i])
  {
    seq(|calls|, i requires 0 <= i < |calls| => Tool(calls[i]))
  }

  function ThinkActions(d: Delta): seq<Action> {
    if Reasoning(d) != "" then [Think(Reasoning(d))] else []
  }

  function ReplayActions(d: Delta): seq<Action> {
    if d.replay.Some? then [Replay(d.replay.value)] else []
  }

  function TextActions(d: Delta): seq<Action> {
    if d.content != "" then [Text(d.content)] else []
  }

  function StopActions(sequence: string, reason: string): seq<Action> {
    (if sequence != "" then [StopSeq(sequence)] else []) + (if reason != "" then [Finish(reason)] else [])
  }

  // What one choice does, in the order handleChunk does it. Empty members do
  // nothing and are left out.
  function ChoiceActions(choice: Choice): seq<Action> {
    var d := choice.delta;
    ThinkActions(d) + ReplayActions(d) + TextActions(d) + ToolActions(d.toolCalls)
    + StopActions(d.stopSequence, choice.finishReason)
  }

  function ChoicesActions(choices: seq<Choice>): seq<Action> {
    if choices == [] then []
    else ChoicesActions(choices[..|choices| - 1]) + ChoiceActions(choices[|choices| - 1])
  }

  function BeginChunk(c: Conv, chunk: Chunk): Conv {
    var d := EnsureStarted(c, chunk.id, chunk.model);
    if chunk.usage.Some? then d.(usage := chunk.usage.value) else d
  }

  function HandleChunk(c: Conv, chunk: Chunk): Conv {
    Acts(BeginChunk(c, chunk), ChoicesActions(chunk.choices))
  }

  function HandleChunks(c: Conv, chunks: seq<Chunk>): Conv {
    if chunks == [] then c
    else HandleChunk(HandleChunks(c, chunks[..|chunks| - 1]), chunks[|chunks| - 1])
  }

  function FinalStop(c: Conv): (string, Option<string>) {
    var reason := if c.stopReason == "" then "end_turn" else c.stopReason;
    if c.stopSequence != "" && reason == "end_turn" then ("stop_sequence", Some(c.stopSequence))
    else (reason, None)
  }

  function Finalize(c: Conv): Conv {
    if c.finalized then c
    else
      var d := CloseBlock(EnsureStarted(c.(finalized := true), "", ""));
      var stop := FinalStop(d);
      Emit(Emit(d, MessageDelta(stop.0, stop.1, PayloadOf(d.usage))), MessageStop)
  }

  // The complete conversion of a chunk sequence.
  function Convert(model: string, inputEstimate: int, chunks: seq<Chunk>): Conv {
    Finalize(HandleChunks(NewConv(model, inputEstimate), chunks))
  }

  // ---- structure of runs ----

  lemma ActsAppend(c: Conv, a: seq<Action>, b: seq<Action>)
    ensures Acts(c, a + b) == Acts(Acts(c, a), b)
    decreases |b|
  {
    if b == [] {
      assert a + b == a;
    } else {
      var n := |b| - 1;
      ActsAppend(c, a, b[..n]);
      ActsSnoc(c, a + b[..n], b[n]);
      AppendLast(a, b);
    }
  }

  lemma ActsSnoc(c: Conv, actions: seq<Action>, a: Action)
    ensures Acts(c, actions + [a]) == Act(Acts(c, actions), a)
  {
    assert (actions + [a])[..|actions|] == actions;
  }

  // What a choice does before its tool calls.
  function DeltaHead(c: Conv, d: Delta): Conv {
    var c1 := if Reasoning(d) != "" then HandleThinking(c, Reasoning(d)) else c;
    var c2 := if d.replay.Some? then HandleReplay(c1, d.replay.value) else c1;
    if d.content != "" then HandleText(c2, d.content) else c2
  }

  lemma ActsOne(c: Conv, a: Action)
    ensures Acts(c, [a]) == Act(c, a)
  {
    ActsSnoc(c, [], a);
    assert [] + [a] == [a];
  }

  lemma DeltaHeadActs(c: Conv, d: Delta)
    ensures Acts(c, ThinkActions(d) + ReplayActions(d) + TextActions(d)) == DeltaHead(c, d)
  {
    var c1 := Acts(c, ThinkActions(d));
    var c2 := Acts(c1, ReplayActions(d));
    ActsAppend(c, ThinkActions(d) + ReplayActions(d), TextActions(d));
    ActsAppend(c, ThinkActions(d), ReplayActions(d));
    ActsOne(c, Think(Reasoning(d)));
    if d.replay.Some? {
      ActsOne(c1, Replay(d.replay.value));
    }
    ActsOne(c2, Text(d.content));
  }

  lemma ChoiceActionsSplit(c: Conv, choice: Choice)
    ensures
      var d := choice.delta;
      Acts(c, ChoiceActions(choice)) ==
      Acts(Acts(DeltaHead(c, d), ToolActions(d.toolCalls)), StopActions(d.stopSequence, choice.finishReason))
  {
    var d := choice.delta;
    var head := ThinkActions(d) + ReplayActions(d) + TextActions(d);
    DeltaHeadActs(c, d);
    ActsAppend(c, head + ToolActions(d.toolCalls), StopActions(d.stopSequence, choice.finishReason));
    ActsAppend(c, head, ToolActions(d.toolCalls));
  }
}
