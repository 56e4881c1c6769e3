// A client that puts the events of the stream back together gets the message
// the one-shot translation renders from the assembled response, and this module
// says for exactly which streams.

module StreamRefinement {
  import opened Prelude
  import opened StreamModel
  import opened StreamConservation
  import opened StreamGrammar
  import opened ResponseTranslation

  // ---- the client ----

  // json is the raw tool input received so far.
  datatype ClientBlock = ClientBlock(block: ContentBlock, json: string)

  datatype Client = Client(
    id: string, model: string, content: seq<ClientBlock>, stopReason: string, stopSequence: Option<string>)

  function OpenedBlock(b: StartBlock): ClientBlock {
    match b
    case TextStart => ClientBlock(TextBlock(""), "")
    case ThinkingStart => ClientBlock(ThinkingBlock(""), "")
    case RedactedStart(data) => ClientBlock(RedactedBlock(data), "")
    case ToolStart(id, name, extra) => ClientBlock(ToolUseBlock(id, name, "", extra), "")
  }

  function Extended(b: ClientBlock, e: Event): ClientBlock {
    match e
    case TextDelta(_, t) => b.(block := b.block.(text := b.block.text + t))
    case ThinkingDelta(_, t) => b.(block := b.block.(thinking := b.block.thinking + t))
    case SignatureDelta(_, s) => b.(block := b.block.(signature := Some(s)))
    case InputDelta(_, json) => b.(json := b.json + json)
    case _ => b
  }

  predicate IsDelta(e: Event) {
    e.TextDelta? || e.ThinkingDelta? || e.SignatureDelta? || e.InputDelta?
  }

  function Receive(c: Client, e: Event): Client {
    if e.MessageStart? then c.(id := e.id, model := e.model)
    else if e.BlockStart? then c.(content := c.content + [OpenedBlock(e.block)])
    else if e.MessageDelta? then c.(stopReason := e.stopReason, stopSequence := e.stopSequence)
    else if IsDelta(e) && e.index < |c.content| then
      c.(content := c.content[e.index := Extended(c.content[e.index], e)])
    else c
  }

  function Received(log: seq<Event>): Client {
    if log == [] then Client("", "", [], "", None)
    else Receive(Received(log[..|log| - 1]), log[|log| - 1])
  }

  // The JSON a client reads from what it received for a tool block: an empty
  // object when that is nothing, or no JSON.
  function ReadInput(json: string, compact: Compactor): string {
    var core := TrimSpace(json);
    if core != "" && compact(core).Some? then compact(core).value else "{}"
  }

  function FinishedBlock(b: ClientBlock, compact: Compactor): ContentBlock {
    if b.block.kind == "tool_use" then b.block.(input := Some(ReadInput(b.json, compact))) else b.block
  }

  function FinishedContent(content: seq<ClientBlock>, compact: Compactor): (r: seq<ContentBlock>)
    ensures |r| == |content|
  {
    seq(|content|, i requires 0 <= i < |content| => FinishedBlock(content[i], compact))
  }

  // ---- the assembled response ----

  datatype Merged = Merged(index: int, call: ToolCall)

  // The calls in the order of their first deltas, arguments put together; id,
  // name and replay state are those of the first delta.
  function MergeCall(merged: seq<Merged>, d: ToolDelta): seq<Merged> {
    if merged == [] then [Merged(d.index, ToolCall(d.id, d.name, d.arguments, d.extra))]
    else if merged[0].index == d.index then
      [merged[0].(call := merged[0].call.(arguments := merged[0].call.arguments + d.arguments))] + merged[1..]
    else [merged[0]] + MergeCall(merged[1..], d)
  }

  function MergeCalls(calls: seq<ToolDelta>): seq<Merged> {
    if calls == [] then [] else MergeCall(MergeCalls(calls[..|calls| - 1]), calls[|calls| - 1])
  }

  function ToolCalls(merged: seq<Merged>): (r: seq<ToolCall>)
    ensures |r| == |merged|
  {
    seq(|merged|, i requires 0 <= i < |merged| => merged[i].call)
  }

  function FinishReason(choices: seq<Choice>): string {
    if choices == [] then ""
    else if choices[|choices| - 1].finishReason != "" then choices[|choices| - 1].finishReason
    else FinishReason(choices[..|choices| - 1])
  }

  function StopSequence(choices: seq<Choice>): string {
    if choices == [] then ""
    else if choices[|choices| - 1].delta.stopSequence != "" then choices[|choices| - 1].delta.stopSequence
    else StopSequence(choices[..|choices| - 1])
  }

  function Assembled(choices: seq<Choice>): Reply {
    Reply([], ReasoningText(choices), "", ContentText(choices), ToolCalls(MergeCalls(Calls(choices))),
          FinishReason(choices), StopSequence(choices))
  }

  // ---- the conditions, on what the upstream sends ----

  // A stream that carries no replay state.
  predicate NoReplay(choices: seq<Choice>) {
    forall i :: 0 <= i < |choices| ==> choices[i].delta.replay == None
  }

  predicate Ranked(a: Action) {
    a.Think? || a.Text? || a.Tool?
  }

  function Rank(a: Action): nat {
    if a.Think? then 0 else if a.Text? then 1 else 2
  }

  // Reasoning first, then text, then tool calls.
  predicate Ordered(actions: seq<Action>) {
    forall i, j :: 0 <= i < j < |actions| && Ranked(actions[i]) && Ranked(actions[j]) ==>
      Rank(actions[i]) <= Rank(actions[j])
  }

  predicate HasTool(actions: seq<Action>) {
    exists i :: 0 <= i < |actions| && actions[i].Tool?
  }

  predicate FinishAfterTool(actions: seq<Action>) {
    exists i, j :: 0 <= i < j < |actions| && actions[i].Tool? && actions[j].Finish?
  }

  // With tool calls, some finish reason follows one of them or says tool use
  // itself; without, a stop sequence comes with a finish reason.
  predicate StopInTime(actions: seq<Action>, choices: seq<Choice>) {
    if HasTool(actions) then
      FinishAfterTool(actions) || FinishReason(choices) == "tool_calls" || FinishReason(choices) == "tool_use"
    else FinishReason(choices) != "" || StopSequence(choices) == ""
  }

  // ---- what a list of actions carries ----

  datatype Gathered = Gathered(
    thinking: string, text: string, calls: seq<ToolDelta>, finish: string, stop: string)

  const Nothing := Gathered("", "", [], "", "")

  function Gather(g: Gathered, a: Action): Gathered {
    match a
    case Think(t) => g.(thinking := g.thinking + t)
    case Text(t) => g.(text := g.text + t)
    case Tool(call) => g.(calls := g.calls + [call])
    case StopSeq(s) => g.(stop := s)
    case Finish(r) => g.(finish := r)
    case Replay(_) => g
  }

  function GatherAll(g: Gathered, actions: seq<Action>): Gathered {
    if actions == [] then g
    else Gather(GatherAll(g, actions[..|actions| - 1]), actions[|actions| - 1])
  }

  lemma GatherAppend(g: Gathered, a: seq<Action>, b: seq<Action>)
    ensures GatherAll(g, a + b) == GatherAll(GatherAll(g, a), b)
  {
    if b == [] {
      assert a + b == a;
    } else {
      assert (a + b)[..|a + b| - 1] == a + b[..|b| - 1];
      GatherAppend(g, a, b[..|b| - 1]);
    }
  }

  lemma GatherOne(g: Gathered, a: Action)
    ensures GatherAll(g, [a]) == Gather(g, a)
  {
    assert [a][..0] == [];
  }

  lemma GatherTools(g: Gathered, calls: seq<ToolDelta>)
    ensures GatherAll(g, ToolActions(calls)) == g.(calls := g.calls + calls)
  {
    if calls == [] {
      assert g.calls + calls == g.calls;
    } else {
      var n := |calls| - 1;
      assert ToolActions(calls)[..n] == ToolActions(calls[..n]);
      GatherTools(g, calls[..n]);
      AppendLast(g.calls, calls);
    }
  }

  lemma GatherChoice(g: Gathered, choice: Choice)
    ensures
      var d := choice.delta;
      GatherAll(g, ChoiceActions(choice)) == Gathered(
        g.thinking + Reasoning(d), g.text + d.content, g.calls + d.toolCalls,
        if choice.finishReason != "" then choice.finishReason else g.finish,
        if d.stopSequence != "" then d.stopSequence else g.stop)
  {
    var d := choice.delta;
    var stop := StopActions(d.stopSequence, choice.finishReason);
    var head := ThinkActions(d) + ReplayActions(d) + TextActions(d);
    GatherAppend(g, head + ToolActions(d.toolCalls), stop);
    GatherAppend(g, head, ToolActions(d.toolCalls));
    GatherHead(g, d);
    GatherTools(GatherAll(g, head), d.toolCalls);
    GatherStop(GatherAll(g, head + ToolActions(d.toolCalls)), d.stopSequence, choice.finishReason);
  }

  lemma GatherHead(g: Gathered, d: Delta)
    ensures GatherAll(g, ThinkActions(d) + ReplayActions(d) + TextActions(d)) ==
            g.(thinking := g.thinking + Reasoning(d), text := g.text + d.content)
  {
    GatherAppend(g, ThinkActions(d) + ReplayActions(d), TextActions(d));
    GatherAppend(g, ThinkActions(d), ReplayActions(d));
    GatherOne(g, Think(Reasoning(d)));
    var g1 := GatherAll(g, ThinkActions(d));
    if d.replay.Some? {
      GatherOne(g1, Replay(d.replay.value));
    }
    GatherOne(g1, Text(d.content));
  }

  lemma GatherStop(g: Gathered, sequence: string, reason: string)
    ensures GatherAll(g, StopActions(sequence, reason)) ==
            g.(finish := if reason != "" then reason else g.finish, stop := if sequence != "" then sequence else g.stop)
  {
    var first := if sequence != "" then [StopSeq(sequence)] else [];
    var second := if reason != "" then [Finish(reason)] else [];
    GatherAppend(g, first, second);
    GatherOne(g, StopSeq(sequence));
    GatherOne(GatherAll(g, first), Finish(reason));
  }

  function Carried(choices: seq<Choice>): Gathered {
    Gathered(ReasoningText(choices), ContentText(choices), Calls(choices), FinishReason(choices), StopSequence(choices))
  }

  lemma GatherChoices(before: seq<Choice>, choices: seq<Choice>)
    ensures GatherAll(Carried(before), ChoicesActions(choices)) == Carried(before + choices)
  {
    if choices == [] {
      assert before + choices == before;
    } else {
      var n := |choices| - 1;
      GatherChoices(before, choices[..n]);
      GatherAppend(Carried(before), ChoicesActions(choices[..n]), ChoiceActions(choices[n]));
      GatherChoice(Carried(before + choices[..n]), choices[n]);
      CarriedSnoc(before + choices[..n], choices[n]);
      AppendLast(before, choices);
    }
  }

  lemma CarriedSnoc(choices: seq<Choice>, choice: Choice)
    ensures
      var g := Carried(choices);
      var d := choice.delta;
      Carried(choices + [choice]) == Gathered(
        g.thinking + Reasoning(d), g.text + d.content, g.calls + d.toolCalls,
        if choice.finishReason != "" then choice.finishReason else g.finish,
        if d.stopSequence != "" then d.stopSequence else g.stop)
  {
    DropLast(choices, choice);
  }

  lemma GatherChunks(chunks: seq<Chunk>)
    ensures GatherAll(Nothing, AllActions(chunks)) == Carried(AllChoices(chunks))
  {
    if chunks != [] {
      var n := |chunks| - 1;
      GatherChunks(chunks[..n]);
      GatherAppend(Nothing, AllActions(chunks[..n]), ChoicesActions(chunks[n].choices));
      GatherChoices(AllChoices(chunks[..n]), chunks[n].choices);
    }
  }

  // Actions that come from deltas without replay state: nothing empty.
  predicate Proper(actions: seq<Action>) {
    forall i :: 0 <= i < |actions| ==> ProperAction(actions[i])
  }

  predicate ProperAction(a: Action) {
    match a
    case Think(t) => t != ""
    case Text(t) => t != ""
    case Replay(_) => false
    case _ => true
  }

  lemma ChoicesProper(choices: seq<Choice>)
    requires NoReplay(choices)
    ensures Proper(ChoicesActions(choices))
  {
    if choices != [] {
      var last := choices[|choices| - 1];
      ChoicesProper(choices[..|choices| - 1]);
      assert last.delta.replay == None;
      ChoiceProper(last);
      ProperAppend(ChoicesActions(choices[..|choices| - 1]), ChoiceActions(last));
    }
  }

  lemma ChoiceProper(choice: Choice)
    requires choice.delta.replay == None
    ensures Proper(ChoiceActions(choice))
  {
  }

  lemma ProperAppend(a: seq<Action>, b: seq<Action>)
    requires Proper(a) && Proper(b)
    ensures Proper(a + b)
  {
  }

  lemma ChunksProper(chunks: seq<Chunk>)
    requires NoReplay(AllChoices(chunks))
    ensures Proper(AllActions(chunks))
  {
    if chunks != [] {
      var n := |chunks| - 1;
      var before := AllChoices(chunks[..n]);
      forall i | 0 <= i < |before|
        ensures before[i].delta.replay == None
      {
        assert AllChoices(chunks)[i] == before[i];
      }
      forall i | 0 <= i < |chunks[n].choices|
        ensures chunks[n].choices[i].delta.replay == None
      {
        assert AllChoices(chunks)[|before| + i] == chunks[n].choices[i];
      }
      ChunksProper(chunks[..n]);
      ChoicesProper(chunks[n].choices);
    }
  }

  lemma ReceivedSnoc(log: seq<Event>, e: Event)
    ensures Received(log + [e]) == Receive(Received(log), e)
  {
    DropLast(log, e);
  }

  lemma CloseReceived(c: Conv)
    ensures Received(CloseBlock(c).log) == Received(c.log)
  {
    ReceivedSnoc(c.log, BlockStop(c.curIndex));
  }

  function Content(c: Conv): seq<ClientBlock> {
    Received(c.log).content
  }

  // Opening a block and sending one delta into it.
  lemma OpenReceived(c: Conv, block: StartBlock)
    ensures Content(OpenBlock(CloseBlock(c), block)) == Content(c) + [OpenedBlock(block)]
  {
    CloseReceived(c);
    ReceivedSnoc(CloseBlock(c).log, BlockStart(CloseBlock(c).nextIndex, block));
  }

  lemma DeltaReceived(c: Conv, e: Event)
    requires IsDelta(e) && e.index < |Content(c)|
    ensures Content(Emit(c, e)) == Content(c)[e.index := Extended(Content(c)[e.index], e)]
  {
    ReceivedSnoc(c.log, e);
  }
}
