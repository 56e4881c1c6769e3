// Nothing the upstream sent is lost or repeated by the converter: the deltas it
// emits, put back together, are the deltas it received.

module StreamConservation {
  import opened Prelude
  import opened StreamModel

  // ---- what came in ----

  function AllChoices(chunks: seq<Chunk>): seq<Choice> {
    if chunks == [] then [] else AllChoices(chunks[..|chunks| - 1]) + chunks[|chunks| - 1].choices
  }

  function ContentText(choices: seq<Choice>): string {
    if choices == [] then ""
    else ContentText(choices[..|choices| - 1]) + choices[|choices| - 1].delta.content
  }

  function ReasoningText(choices: seq<Choice>): string {
    if choices == [] then ""
    else
      var d := choices[|choices| - 1].delta;
      ReasoningText(choices[..|choices| - 1]) + (if d.reasoningContent == "" then d.reasoning else d.reasoningContent)
  }

  function Calls(choices: seq<Choice>): seq<ToolDelta> {
    if choices == [] then []
    else Calls(choices[..|choices| - 1]) + choices[|choices| - 1].delta.toolCalls
  }

  // The arguments of the call with the given index, over all its deltas.
  function ArgumentsOf(calls: seq<ToolDelta>, index: int): string {
    if calls == [] then ""
    else
      var last := calls[|calls| - 1];
      ArgumentsOf(calls[..|calls| - 1], index) + (if last.index == index then last.arguments else "")
  }

  function Indices(calls: seq<ToolDelta>): set<int> {
    set call | call in calls :: call.index
  }

  // The replay lists received, oldest first.
  function Replays(choices: seq<Choice>): seq<seq<ReplayBlock>> {
    if choices == [] then []
    else
      var d := choices[|choices| - 1].delta;
      Replays(choices[..|choices| - 1]) + (if d.replay.Some? then [d.replay.value] else [])
  }

  // Replay state is cumulative: each list extends the one before it.
  ghost predicate Growing(lists: seq<seq<ReplayBlock>>) {
    forall i, j :: 0 <= i < j < |lists| ==> lists[i] <= lists[j]
  }

  // A client can use a redacted block, or a block that is signed.
  datatype Rendered = Redacted(data: string) | Signed(signature: string)

  function RenderedBlock(b: ReplayBlock): seq<Rendered> {
    if b.kind == "redacted_thinking" then [Redacted(b.data)]
    else if b.signature == "" then []
    else [Signed(b.signature)]
  }

  function Usable(blocks: seq<ReplayBlock>): seq<Rendered> {
    if blocks == [] then []
    else Usable(blocks[..|blocks| - 1]) + RenderedBlock(blocks[|blocks| - 1])
  }

  // ---- what came out ----

  datatype Output = Output(text: string, thinking: string, input: string, rendered: seq<Rendered>)

  // input follows the block with the given index.
  function AddOutput(o: Output, e: Event, index: nat): Output {
    match e
    case TextDelta(_, t) => o.(text := o.text + t)
    case ThinkingDelta(_, t) => o.(thinking := o.thinking + t)
    case InputDelta(i, json) => if i == index then o.(input := o.input + json) else o
    case SignatureDelta(_, s) => o.(rendered := o.rendered + [Signed(s)])
    case BlockStart(_, RedactedStart(data)) => o.(rendered := o.rendered + [Redacted(data)])
    case _ => o
  }

  function Out(log: seq<Event>, index: nat): Output {
    if log == [] then Output("", "", "", [])
    else AddOutput(Out(log[..|log| - 1], index), log[|log| - 1], index)
  }

  lemma OutSnoc(log: seq<Event>, e: Event, index: nat)
    ensures Out(log + [e], index) == AddOutput(Out(log, index), e, index)
  {
    assert (log + [e])[..|log|] == log;
  }

  lemma CloseOut(c: Conv, index: nat)
    ensures Out(CloseBlock(c).log, index) == Out(c.log, index)
  {
    if c.blockOpen {
      OutSnoc(c.log, BlockStop(c.curIndex), index);
    }
  }

  lemma OpenOut(c: Conv, block: StartBlock, index: nat)
    ensures Out(OpenBlock(c, block).log, index) ==
            if block.RedactedStart? then
              Out(c.log, index).(rendered := Out(c.log, index).rendered + [Redacted(block.data)])
            else Out(c.log, index)
  {
    OutSnoc(c.log, BlockStart(c.nextIndex, block), index);
  }

  lemma EnsureOut(c: Conv, block: StartBlock, index: nat)
    requires !block.RedactedStart?
    ensures Out(EnsureBlock(c, block).log, index) == Out(c.log, index)
  {
    if !c.blockOpen || c.blockKind != block.Kind() {
      CloseOut(c, index);
      OpenOut(CloseBlock(c), block, index);
    }
  }

  lemma RenderBlockOut(c: Conv, b: ReplayBlock, index: nat)
    ensures Out(RenderReplayBlock(c, b).log, index) ==
            Out(c.log, index).(rendered := Out(c.log, index).rendered + RenderedBlock(b))
  {
    if b.kind == "redacted_thinking" {
      CloseOut(c, index);
      OpenOut(CloseBlock(c), RedactedStart(b.data), index);
      CloseOut(OpenBlock(CloseBlock(c), RedactedStart(b.data)), index);
    } else if b.signature != "" {
      var d := EnsureBlock(c, ThinkingStart);
      EnsureOut(c, ThinkingStart, index);
      OutSnoc(d.log, SignatureDelta(d.curIndex, b.signature), index);
      CloseOut(Emit(d, SignatureDelta(d.curIndex, b.signature)), index);
    }
  }

  lemma RenderOut(c: Conv, blocks: seq<ReplayBlock>, index: nat)
    ensures Out(RenderReplay(c, blocks).log, index) ==
            Out(c.log, index).(rendered := Out(c.log, index).rendered + Usable(blocks))
  {
    if blocks != [] {
      var prefix := blocks[..|blocks| - 1];
      RenderOut(c, prefix, index);
      RenderBlockOut(RenderReplay(c, prefix), blocks[|blocks| - 1], index);
    }
  }

  function Unseen(c: Conv, blocks: seq<ReplayBlock>): seq<ReplayBlock> {
    if |blocks| <= c.thinkingSeen then [] else blocks[c.thinkingSeen..]
  }

  lemma ReplayOut(c: Conv, blocks: seq<ReplayBlock>, index: nat)
    ensures Out(HandleReplay(c, blocks).log, index) ==
            Out(c.log, index).(rendered := Out(c.log, index).rendered + Usable(Unseen(c, blocks)))
  {
    RenderOut(c, Unseen(c, blocks), index);
  }

  lemma StartToolOut(c: Conv, call: ToolDelta, index: nat)
    ensures Out(StartTool(c, call).log, index) == Out(c.log, index)
  {
    CloseOut(c, index);
    OpenOut(CloseBlock(c), ToolStart(call.id, call.name, call.extra), index);
  }

  // The block a call's arguments go to.
  function BlockFor(c: Conv, call: ToolDelta): nat {
    if call.index in c.toolBlock then c.toolBlock[call.index] else c.nextIndex
  }

  lemma HandleToolForm(c: Conv, call: ToolDelta)
    ensures
      var d := if call.index in c.toolBlock then c else StartTool(c, call);
      HandleToolCall(c, call) ==
      if call.arguments == "" then d else Emit(d, InputDelta(BlockFor(c, call), call.arguments))
  {
  }

  lemma ToolOut(c: Conv, call: ToolDelta, index: nat)
    ensures Out(HandleToolCall(c, call).log, index) ==
            if BlockFor(c, call) == index then
              Out(c.log, index).(input := Out(c.log, index).input + call.arguments)
            else Out(c.log, index)
  {
    var d := if call.index in c.toolBlock then c else StartTool(c, call);
    HandleToolForm(c, call);
    StartToolOut(c, call, index);
    if call.arguments == "" {
      assert Out(c.log, index).input + "" == Out(c.log, index).input;
    } else {
      InputOut(d, BlockFor(c, call), call.arguments, index);
    }
  }

  lemma InputOut(c: Conv, block: nat, arguments: string, index: nat)
    ensures Out(Emit(c, InputDelta(block, arguments)).log, index) ==
            if block == index then Out(c.log, index).(input := Out(c.log, index).input + arguments)
            else Out(c.log, index)
  {
    OutSnoc(c.log, InputDelta(block, arguments), index);
  }

  // What one action adds to the output; input is followed for one block.
  function Added(c: Conv, a: Action, o: Output, index: nat): Output {
    match a
    case Think(t) => o.(thinking := o.thinking + t)
    case Text(t) => o.(text := o.text + t)
    case Replay(blocks) => o.(rendered := o.rendered + Usable(Unseen(c, blocks)))
    case Tool(call) => if BlockFor(c, call) == index then o.(input := o.input + call.arguments) else o
    case StopSeq(_) => o
    case Finish(_) => o
  }

  lemma ThinkingOut(c: Conv, t: string, index: nat)
    ensures Out(HandleThinking(c, t).log, index) == Out(c.log, index).(thinking := Out(c.log, index).thinking + t)
  {
    EnsureOut(c, ThinkingStart, index);
    var d := EnsureBlock(c, ThinkingStart);
    OutSnoc(d.log, ThinkingDelta(d.curIndex, t), index);
  }

  lemma TextOut(c: Conv, t: string, index: nat)
    ensures Out(HandleText(c, t).log, index) == Out(c.log, index).(text := Out(c.log, index).text + t)
  {
    EnsureOut(c, TextStart, index);
    var d := EnsureBlock(c, TextStart);
    OutSnoc(d.log, TextDelta(d.curIndex, t), index);
  }

  lemma ActOut(c: Conv, a: Action, index: nat)
    ensures Out(Act(c, a).log, index) == Added(c, a, Out(c.log, index), index)
  {
    match a
    case Think(t) => ThinkingOut(c, t, index);
    case Text(t) => TextOut(c, t, index);
    case Replay(blocks) => ReplayOut(c, blocks, index);
    case Tool(call) => ToolOut(c, call, index);
    case StopSeq(_) =>
    case Finish(_) =>
  }

  // ---- the tool-to-block map ----

  ghost predicate Injective(m: map<int, nat>) {
    forall k, l :: k in m && l in m && k != l ==> m[k] != m[l]
  }

  // Every recorded block was opened, no two calls share one, and no block that
  // is still to come has received arguments.
  ghost predicate ToolsSound(c: Conv) {
    && Injective(c.toolBlock)
    && (forall k :: k in c.toolBlock ==> c.toolBlock[k] < c.nextIndex)
    && (forall i: nat :: c.nextIndex <= i ==> Out(c.log, i).input == "")
  }

  // d differs from c in its log and its blocks only.
  predicate SameState(c: Conv, d: Conv) {
    && d.toolBlock == c.toolBlock && d.nextIndex >= c.nextIndex
    && d.thinkingSeen == c.thinkingSeen && d.started == c.started && d.finalized == c.finalized
  }

  lemma BlockStepsKeepState(c: Conv, block: StartBlock, e: Event)
    ensures SameState(c, CloseBlock(c)) && SameState(c, OpenBlock(c, block)) && SameState(c, Emit(c, e))
  {
  }

  lemma RenderBlockKeepsTools(c: Conv, b: ReplayBlock)
    ensures SameState(c, RenderReplayBlock(c, b))
  {
    BlockStepsKeepState(c, TextStart, MessageStop);
    if b.kind == "redacted_thinking" {
      var d := OpenBlock(CloseBlock(c), RedactedStart(b.data));
      BlockStepsKeepState(CloseBlock(c), RedactedStart(b.data), MessageStop);
      BlockStepsKeepState(d, TextStart, MessageStop);
    } else if b.signature != "" {
      var d := EnsureBlock(c, ThinkingStart);
      BlockStepsKeepState(CloseBlock(c), ThinkingStart, MessageStop);
      BlockStepsKeepState(d, TextStart, SignatureDelta(d.curIndex, b.signature));
      BlockStepsKeepState(Emit(d, SignatureDelta(d.curIndex, b.signature)), TextStart, MessageStop);
    }
  }

  lemma RenderKeepsTools(c: Conv, blocks: seq<ReplayBlock>)
    ensures RenderReplay(c, blocks).toolBlock == c.toolBlock
    ensures RenderReplay(c, blocks).nextIndex >= c.nextIndex
    ensures RenderReplay(c, blocks).thinkingSeen == c.thinkingSeen
    ensures RenderReplay(c, blocks).started == c.started && RenderReplay(c, blocks).finalized == c.finalized
  {
    if blocks != [] {
      var prefix := blocks[..|blocks| - 1];
      RenderKeepsTools(c, prefix);
      RenderBlockKeepsTools(RenderReplay(c, prefix), blocks[|blocks| - 1]);
    }
  }

  lemma ActTools(c: Conv, a: Action)
    ensures Act(c, a).nextIndex >= c.nextIndex
    ensures Act(c, a).toolBlock == if a.Tool? then c.toolBlock[a.call.index := BlockFor(c, a.call)] else c.toolBlock
    ensures a.Tool? && a.call.index !in c.toolBlock ==> Act(c, a).nextIndex == c.nextIndex + 1
    ensures Act(c, a).thinkingSeen == if a.Replay? && |a.blocks| > c.thinkingSeen then |a.blocks| else c.thinkingSeen
    ensures Act(c, a).started == c.started && Act(c, a).finalized == c.finalized
  {
    match a
    case Think(_) => EnsureKeepsState(c, ThinkingStart);
    case Text(_) => EnsureKeepsState(c, TextStart);
    case Replay(blocks) => RenderKeepsTools(c, Unseen(c, blocks));
    case Tool(call) =>
      HandleToolForm(c, call);
      StartToolTools(c, call);
    case StopSeq(_) =>
    case Finish(_) =>
  }

  lemma EnsureKeepsState(c: Conv, block: StartBlock)
    ensures SameState(c, EnsureBlock(c, block))
  {
    BlockStepsKeepState(c, block, MessageStop);
    BlockStepsKeepState(CloseBlock(c), block, MessageStop);
  }

  lemma StartToolTools(c: Conv, call: ToolDelta)
    ensures var d := StartTool(c, call);
      && d.toolBlock == c.toolBlock[call.index := c.nextIndex] && d.nextIndex == c.nextIndex + 1
      && d.thinkingSeen == c.thinkingSeen && d.started == c.started && d.finalized == c.finalized
  {
  }

  lemma ActSound(c: Conv, a: Action)
    requires ToolsSound(c)
    ensures ToolsSound(Act(c, a))
  {
    ActTools(c, a);
    var d := Act(c, a);
    forall i: nat | d.nextIndex <= i
      ensures Out(d.log, i).input == ""
    {
      ActOut(c, a, i);
    }
  }

  lemma BeginOut(c: Conv, chunk: Chunk, index: nat)
    ensures Out(BeginChunk(c, chunk).log, index) == Out(c.log, index)
    ensures BeginChunk(c, chunk).toolBlock == c.toolBlock && BeginChunk(c, chunk).nextIndex == c.nextIndex
    ensures BeginChunk(c, chunk).thinkingSeen == c.thinkingSeen
  {
    if !c.started {
      var d := EnsureStarted(c, chunk.id, chunk.model);
      OutSnoc(c.log, d.log[|c.log|], index);
    }
  }

  // ---- conservation over whole streams ----

  // Each call seen has a block, and that block holds the call's arguments.
  ghost predicate InputsMatch(c: Conv, calls: seq<ToolDelta>) {
    && c.toolBlock.Keys == Indices(calls)
    && (forall k :: k in c.toolBlock ==> Out(c.log, c.toolBlock[k]).input == ArgumentsOf(calls, k))
  }

  // Everything a tool-call delta does to the calls, seen from outside.
  ghost predicate ToolEffect(c: Conv, d: Conv, call: ToolDelta) {
    && d.toolBlock == c.toolBlock[call.index := BlockFor(c, call)]
    && (forall i: nat :: Out(d.log, i).input ==
         if BlockFor(c, call) == i then Out(c.log, i).input + call.arguments else Out(c.log, i).input)
  }

  lemma HandleToolEffect(c: Conv, call: ToolDelta)
    ensures ToolEffect(c, HandleToolCall(c, call), call)
  {
    ActTools(c, Tool(call));
    forall i: nat
      ensures Out(HandleToolCall(c, call).log, i).input ==
        if BlockFor(c, call) == i then Out(c.log, i).input + call.arguments else Out(c.log, i).input
    {
      ToolOut(c, call, i);
    }
  }

  lemma ArgumentsSnoc(calls: seq<ToolDelta>, call: ToolDelta, k: int)
    ensures ArgumentsOf(calls + [call], k) == ArgumentsOf(calls, k) + (if call.index == k then call.arguments else "")
    ensures Indices(calls + [call]) == Indices(calls) + {call.index}
  {
    DropLast(calls, call);
    assert ArgumentsOf(calls, k) + "" == ArgumentsOf(calls, k);
  }

  lemma ToolInput(c: Conv, d: Conv, calls: seq<ToolDelta>, call: ToolDelta, k: int)
    requires ToolsSound(c) && InputsMatch(c, calls) && ToolEffect(c, d, call) && k in d.toolBlock
    ensures Out(d.log, d.toolBlock[k]).input == ArgumentsOf(calls + [call], k)
  {
    ArgumentsSnoc(calls, call, k);
    var block := d.toolBlock[k];
    assert Out(d.log, block).input ==
      if BlockFor(c, call) == block then Out(c.log, block).input + call.arguments else Out(c.log, block).input;
    if k !in c.toolBlock {
      NoArguments(calls, k);
    }
  }

  lemma ToolInputs(c: Conv, d: Conv, calls: seq<ToolDelta>, call: ToolDelta)
    requires ToolsSound(c) && InputsMatch(c, calls) && ToolEffect(c, d, call)
    ensures InputsMatch(d, calls + [call])
  {
    ArgumentsSnoc(calls, call, 0);
    forall k | k in d.toolBlock
      ensures Out(d.log, d.toolBlock[k]).input == ArgumentsOf(calls + [call], k)
    {
      ToolInput(c, d, calls, call, k);
    }
  }

  lemma NoArguments(calls: seq<ToolDelta>, k: int)
    requires k !in Indices(calls)
    ensures ArgumentsOf(calls, k) == ""
  {
    if calls != [] {
      assert calls[|calls| - 1] in calls;
      assert forall call :: call in calls[..|calls| - 1] ==> call in calls;
      NoArguments(calls[..|calls| - 1], k);
    }
  }

  // d differs from c only in its tool blocks and their inputs.
  ghost predicate SameRest(c: Conv, d: Conv) {
    && d.thinkingSeen == c.thinkingSeen
    && Out(d.log, 0).text == Out(c.log, 0).text
    && Out(d.log, 0).thinking == Out(c.log, 0).thinking
    && Out(d.log, 0).rendered == Out(c.log, 0).rendered
  }

  lemma ToolConserves(c: Conv, calls: seq<ToolDelta>, call: ToolDelta)
    requires ToolsSound(c) && InputsMatch(c, calls)
    ensures ToolsSound(Act(c, Tool(call))) && InputsMatch(Act(c, Tool(call)), calls + [call])
    ensures SameRest(c, Act(c, Tool(call)))
  {
    ActSound(c, Tool(call));
    ActTools(c, Tool(call));
    HandleToolEffect(c, call);
    ToolInputs(c, Act(c, Tool(call)), calls, call);
    ToolOut(c, call, 0);
  }

  lemma ToolActionsConserve(c: Conv, before: seq<ToolDelta>, calls: seq<ToolDelta>)
    requires ToolsSound(c) && InputsMatch(c, before)
    ensures ToolsSound(Acts(c, ToolActions(calls))) && InputsMatch(Acts(c, ToolActions(calls)), before + calls)
    ensures SameRest(c, Acts(c, ToolActions(calls)))
  {
    if calls == [] {
      assert before + calls == before;
    } else {
      var n := |calls| - 1;
      assert ToolActions(calls) == ToolActions(calls[..n]) + [Tool(calls[n])];
      ActsSnoc(c, ToolActions(calls[..n]), Tool(calls[n]));
      ToolActionsConserve(c, before, calls[..n]);
      ToolConserves(Acts(c, ToolActions(calls[..n])), before + calls[..n], calls[n]);
      AppendLast(before, calls);
    }
  }

  // An action that is not a tool call leaves the calls as they are.
  lemma OtherInputs(c: Conv, calls: seq<ToolDelta>, a: Action)
    requires ToolsSound(c) && InputsMatch(c, calls) && !a.Tool?
    ensures ToolsSound(Act(c, a)) && InputsMatch(Act(c, a), calls)
  {
    var d := Act(c, a);
    ActSound(c, a);
    ActTools(c, a);
    forall k | k in d.toolBlock
      ensures Out(d.log, d.toolBlock[k]).input == ArgumentsOf(calls, k)
    {
      ActOut(c, a, d.toolBlock[k]);
    }
  }

  // One optional action at the head of a choice.
  lemma HeadStep(c: Conv, calls: seq<ToolDelta>, a: Action)
    requires ToolsSound(c) && InputsMatch(c, calls) && !a.Tool?
    ensures ToolsSound(Act(c, a)) && InputsMatch(Act(c, a), calls)
    ensures Out(Act(c, a).log, 0) == Added(c, a, Out(c.log, 0), 0)
    ensures Act(c, a).thinkingSeen == if a.Replay? && |a.blocks| > c.thinkingSeen then |a.blocks| else c.thinkingSeen
  {
    OtherInputs(c, calls, a);
    ActOut(c, a, 0);
    ActTools(c, a);
  }

  function LastReplay(lists: seq<seq<ReplayBlock>>): seq<ReplayBlock> {
    if lists == [] then [] else lists[|lists| - 1]
  }

  // What was rendered so far is exactly the usable part of the latest list.
  ghost predicate ReplayShown(c: Conv, lists: seq<seq<ReplayBlock>>) {
    && c.thinkingSeen == |LastReplay(lists)|
    && Out(c.log, 0).rendered == Usable(LastReplay(lists))
  }

  // The invariant of a stream whose choices so far are the given ones.
  ghost predicate Conserved(c: Conv, choices: seq<Choice>) {
    && ToolsSound(c)
    && InputsMatch(c, Calls(choices))
    && Out(c.log, 0).text == ContentText(choices)
    && Out(c.log, 0).thinking == ReasoningText(choices)
    && (Growing(Replays(choices)) ==> ReplayShown(c, Replays(choices)))
  }

  lemma UsableAppend(a: seq<ReplayBlock>, b: seq<ReplayBlock>)
    ensures Usable(a + b) == Usable(a) + Usable(b)
  {
    if b == [] {
      assert a + b == a;
    } else {
      assert (a + b)[..|a + b| - 1] == a + b[..|b| - 1];
      UsableAppend(a, b[..|b| - 1]);
    }
  }

  lemma UsableRest(last: seq<ReplayBlock>, blocks: seq<ReplayBlock>)
    requires last <= blocks
    ensures Usable(last) + Usable(blocks[|last|..]) == Usable(blocks)
  {
    assert blocks == last + blocks[|last|..];
    UsableAppend(last, blocks[|last|..]);
  }

  lemma ReplayStep(c: Conv, lists: seq<seq<ReplayBlock>>, blocks: seq<ReplayBlock>)
    requires Growing(lists + [blocks])
    requires c.thinkingSeen == |LastReplay(lists)|
    ensures Usable(LastReplay(lists)) + Usable(Unseen(c, blocks)) == Usable(blocks)
    ensures |blocks| >= c.thinkingSeen
  {
    LastGrows(lists, blocks);
    var last := LastReplay(lists);
    UsableRest(last, blocks);
    if |blocks| == |last| {
      assert blocks[|last|..] == [];
    }
  }

  lemma LastGrows(lists: seq<seq<ReplayBlock>>, blocks: seq<ReplayBlock>)
    requires Growing(lists + [blocks])
    ensures LastReplay(lists) <= blocks
  {
    if lists != [] {
      var all := lists + [blocks];
      assert all[|lists| - 1] == LastReplay(lists) && all[|lists|] == blocks;
    }
  }

  lemma GrowingPrefix(lists: seq<seq<ReplayBlock>>, more: seq<seq<ReplayBlock>>)
    requires Growing(lists + more)
    ensures Growing(lists)
  {
    forall i, j | 0 <= i < j < |lists|
      ensures lists[i] <= lists[j]
    {
      assert (lists + more)[i] <= (lists + more)[j];
    }
  }

  lemma HeadReplays(c: Conv, calls: seq<ToolDelta>, lists: seq<seq<ReplayBlock>>, blocks: seq<ReplayBlock>)
    requires ToolsSound(c) && InputsMatch(c, calls)
    requires Growing(lists) ==> ReplayShown(c, lists)
    ensures
      var e := Act(c, Replay(blocks));
      && ToolsSound(e) && InputsMatch(e, calls)
      && Out(e.log, 0).text == Out(c.log, 0).text
      && Out(e.log, 0).thinking == Out(c.log, 0).thinking
      && (Growing(lists + [blocks]) ==> ReplayShown(e, lists + [blocks]))
  {
    HeadStep(c, calls, Replay(blocks));
    if Growing(lists + [blocks]) {
      GrowingPrefix(lists, [blocks]);
      ReplayStep(c, lists, blocks);
    }
  }

  lemma HeadConserves(c: Conv, calls: seq<ToolDelta>, lists: seq<seq<ReplayBlock>>, d: Delta)
    requires ToolsSound(c) && InputsMatch(c, calls)
    requires Growing(lists) ==> ReplayShown(c, lists)
    ensures
      var e := DeltaHead(c, d);
      var more := if d.replay.Some? then [d.replay.value] else [];
      && ToolsSound(e) && InputsMatch(e, calls)
      && Out(e.log, 0).text == Out(c.log, 0).text + d.content
      && Out(e.log, 0).thinking == Out(c.log, 0).thinking + Reasoning(d)
      && (Growing(lists + more) ==> ReplayShown(e, lists + more))
  {
    var c1 := if Reasoning(d) != "" then Act(c, Think(Reasoning(d))) else c;
    if Reasoning(d) != "" {
      HeadStep(c, calls, Think(Reasoning(d)));
    }
    var c2 := if d.replay.Some? then Act(c1, Replay(d.replay.value)) else c1;
    if d.replay.Some? {
      HeadReplays(c1, calls, lists, d.replay.value);
    } else {
      assert lists + [] == lists;
    }
    if d.content != "" {
      HeadStep(c2, calls, Text(d.content));
    }
  }

  lemma StopConserves(c: Conv, calls: seq<ToolDelta>, sequence: string, reason: string)
    requires ToolsSound(c) && InputsMatch(c, calls)
    ensures
      var e := Acts(c, StopActions(sequence, reason));
      && ToolsSound(e) && InputsMatch(e, calls)
      && Out(e.log, 0) == Out(c.log, 0) && e.thinkingSeen == c.thinkingSeen
  {
    var first := if sequence != "" then [StopSeq(sequence)] else [];
    var second := if reason != "" then [Finish(reason)] else [];
    ActsAppend(c, first, second);
    ActsOne(c, StopSeq(sequence));
    ActsOne(Acts(c, first), Finish(reason));
  }

  lemma ChoiceConserves(c: Conv, choices: seq<Choice>, choice: Choice)
    requires Conserved(c, choices)
    ensures Conserved(Acts(c, ChoiceActions(choice)), choices + [choice])
  {
    var d := choice.delta;
    assert (choices + [choice])[..|choices|] == choices;
    ChoiceActionsSplit(c, choice);
    HeadConserves(c, Calls(choices), Replays(choices), d);
    var e := DeltaHead(c, d);
    ToolActionsConserve(e, Calls(choices), d.toolCalls);
    StopConserves(Acts(e, ToolActions(d.toolCalls)), Calls(choices) + d.toolCalls, d.stopSequence, choice.finishReason);
  }

  lemma ChoicesConserve(c: Conv, before: seq<Choice>, choices: seq<Choice>)
    requires Conserved(c, before)
    ensures Conserved(Acts(c, ChoicesActions(choices)), before + choices)
  {
    if choices == [] {
      assert before + choices == before;
    } else {
      var n := |choices| - 1;
      ChoicesConserve(c, before, choices[..n]);
      ActsAppend(c, ChoicesActions(choices[..n]), ChoiceActions(choices[n]));
      ChoiceConserves(Acts(c, ChoicesActions(choices[..n])), before + choices[..n], choices[n]);
      AppendLast(before, choices);
    }
  }

  lemma ChunksConserve(c: Conv, chunks: seq<Chunk>)
    requires c.log == [] && c.toolBlock == map[] && c.thinkingSeen == 0
    ensures Conserved(HandleChunks(c, chunks), AllChoices(chunks))
  {
    if chunks != [] {
      var n := |chunks| - 1;
      ChunksConserve(c, chunks[..n]);
      var d := HandleChunks(c, chunks[..n]);
      BeginConserves(d, AllChoices(chunks[..n]), chunks[n]);
      ChoicesConserve(BeginChunk(d, chunks[n]), AllChoices(chunks[..n]), chunks[n].choices);
    }
  }

  lemma BeginConserves(c: Conv, choices: seq<Choice>, chunk: Chunk)
    requires Conserved(c, choices)
    ensures Conserved(BeginChunk(c, chunk), choices)
  {
    forall i: nat
      ensures Out(BeginChunk(c, chunk).log, i) == Out(c.log, i)
    {
      BeginOut(c, chunk, i);
    }
    BeginOut(c, chunk, 0);
  }

  lemma FinalizeOut(c: Conv, index: nat)
    ensures Out(Finalize(c).log, index) == Out(c.log, index)
  {
    if !c.finalized {
      var d := EnsureStarted(c.(finalized := true), "", "");
      StartOut(c.(finalized := true), "", "", index);
      CloseOut(d, index);
      var e := CloseBlock(d);
      var stop := FinalStop(e);
      StopOut(e, MessageDelta(stop.0, stop.1, PayloadOf(e.usage)), index);
    }
  }

  lemma StartOut(c: Conv, id: string, model: string, index: nat)
    ensures Out(EnsureStarted(c, id, model).log, index) == Out(c.log, index)
  {
    if !c.started {
      OutSnoc(c.log, EnsureStarted(c, id, model).log[|c.log|], index);
    }
  }

  lemma StopOut(c: Conv, delta: Event, index: nat)
    requires delta.MessageDelta?
    ensures Out(Emit(Emit(c, delta), MessageStop).log, index) == Out(c.log, index)
  {
    OutSnoc(c.log, delta, index);
    OutSnoc(c.log + [delta], MessageStop, index);
  }

  // Every byte of text, reasoning and tool arguments, and under growing replay
  // lists every signed or redacted block, comes out exactly once and in order.
  lemma ContentConserved(model: string, inputEstimate: int, chunks: seq<Chunk>)
    ensures
      var c := Convert(model, inputEstimate, chunks);
      var choices := AllChoices(chunks);
      && Out(c.log, 0).text == ContentText(choices)
      && Out(c.log, 0).thinking == ReasoningText(choices)
      && Injective(c.toolBlock)
      && c.toolBlock.Keys == Indices(Calls(choices))
      && (forall k :: k in c.toolBlock ==> Out(c.log, c.toolBlock[k]).input == ArgumentsOf(Calls(choices), k))
      && (Growing(Replays(choices)) ==> Out(c.log, 0).rendered == Usable(LastReplay(Replays(choices))))
  {
    var d := HandleChunks(NewConv(model, inputEstimate), chunks);
    ChunksConserve(NewConv(model, inputEstimate), chunks);
    assert Finalize(d).toolBlock == d.toolBlock;
    FinalizeOut(d, 0);
    forall k | k in d.toolBlock
      ensures Out(Finalize(d).log, d.toolBlock[k]).input == ArgumentsOf(Calls(AllChoices(chunks)), k)
    {
      FinalizeOut(d, d.toolBlock[k]);
    }
  }
}
