// Streams that carry Anthropic replay state: what the client holds of the
// thinking, and when that is what the one-shot translation renders from the
// replay state of the assembled response.

module StreamReplay {
  import opened Prelude
  import opened StreamModel
  import opened StreamConservation
  import opened StreamGrammar
  import opened ResponseTranslation
  import opened StreamRefinement
  import opened StreamEquivalence

  // ---- the thinking part of the message ----

  // The blocks that are finished, and the text of the thinking block still open.
  datatype Head = Head(blocks: seq<ContentBlock>, open: Option<string>)

  function OpenText(h: Head): string {
    if h.open.Some? then h.open.value else ""
  }

  function Closed(h: Head): seq<ContentBlock> {
    h.blocks + if h.open.Some? then [ThinkingBlock(h.open.value)] else []
  }

  function Spoken(h: Head, t: string): Head {
    h.(open := Some(OpenText(h) + t))
  }

  function SignedBlock(thinking: string, signature: string): ContentBlock {
    ThinkingBlock(thinking).(signature := Some(signature))
  }

  // A redacted block ends the open one without a signature; a signature ends it signed.
  function Shown(h: Head, b: ReplayBlock): Head {
    if b.kind == "redacted_thinking" then Head(Closed(h) + [RedactedBlock(b.data)], None)
    else if b.signature == "" then h
    else Head(h.blocks + [SignedBlock(OpenText(h), b.signature)], None)
  }

  function ShownAll(h: Head, blocks: seq<ReplayBlock>): Head {
    if blocks == [] then h else Shown(ShownAll(h, blocks[..|blocks| - 1]), blocks[|blocks| - 1])
  }

  // How many replay blocks were rendered, and the head they and the reasoning make.
  function SeenOf(actions: seq<Action>): nat {
    if actions == [] then 0
    else
      var n := |actions| - 1;
      var seen := SeenOf(actions[..n]);
      if actions[n].Replay? && |actions[n].blocks| > seen then |actions[n].blocks| else seen
  }

  function NewBlocks(seen: nat, blocks: seq<ReplayBlock>): seq<ReplayBlock> {
    if |blocks| > seen then blocks[seen..] else []
  }

  function HeadStep(h: Head, seen: nat, a: Action): Head {
    match a
    case Think(t) => Spoken(h, t)
    case Replay(blocks) => ShownAll(h, NewBlocks(seen, blocks))
    case _ => h
  }

  function HeadOf(actions: seq<Action>): Head {
    if actions == [] then Head([], None)
    else
      var n := |actions| - 1;
      HeadStep(HeadOf(actions[..n]), SeenOf(actions[..n]), actions[n])
  }

  // ---- the order ----

  predicate BringsThinking(seen: nat, a: Action) {
    a.Think? || (a.Replay? && Usable(NewBlocks(seen, a.blocks)) != [])
  }

  // No reasoning and no new signed or redacted block after text or a tool call,
  // no text after a tool call.
  predicate InPlace(before: seq<Action>, a: Action) {
    var g := GatherAll(Nothing, before);
    && (BringsThinking(SeenOf(before), a) ==> g.text == "" && g.calls == [])
    && (a.Text? ==> g.calls == [])
  }

  predicate OrderedReplays(actions: seq<Action>) {
    actions == []
    || (OrderedReplays(actions[..|actions| - 1]) && InPlace(actions[..|actions| - 1], actions[|actions| - 1]))
  }

  // ---- what the client holds ----

  function AsClient(blocks: seq<ContentBlock>): (r: seq<ClientBlock>)
    ensures |r| == |blocks| && forall i :: 0 <= i < |blocks| ==> r[i] == ClientBlock(blocks[i], "")
  {
    seq(|blocks|, i requires 0 <= i < |blocks| => ClientBlock(blocks[i], ""))
  }

  function TextBlocks(text: string): seq<ContentBlock> {
    if text != "" then [TextBlock(text)] else []
  }

  ghost predicate Numbered(c: Conv) {
    c.nextIndex == |Content(c)| && (c.blockOpen ==> c.curIndex + 1 == c.nextIndex)
  }

  ghost predicate InThinking(c: Conv, h: Head) {
    && Numbered(c) && c.toolBlock == map[] && Content(c) == AsClient(Closed(h))
    && (c.blockOpen <==> h.open.Some?) && (c.blockOpen ==> c.blockKind == ThinkingKind)
  }

  ghost predicate InText(c: Conv, head: seq<ContentBlock>, text: string) {
    && Numbered(c) && c.toolBlock == map[] && Content(c) == AsClient(head) + AsClient(TextBlocks(text))
    && c.blockOpen && c.blockKind == TextKind
  }

  ghost predicate InTools(c: Conv, head: seq<ContentBlock>, text: string, merged: seq<Merged>) {
    BuiltOn(c, AsClient(head) + AsClient(TextBlocks(text)), merged)
  }

  ghost predicate Follows(c: Conv, actions: seq<Action>) {
    var g, h := GatherAll(Nothing, actions), HeadOf(actions);
    && c.thinkingSeen == SeenOf(actions)
    && if g.calls != [] then InTools(c, Closed(h), g.text, MergeCalls(g.calls))
       else if g.text != "" then InText(c, Closed(h), g.text)
       else InThinking(c, h)
  }

  lemma AsClientAppend(a: seq<ContentBlock>, b: seq<ContentBlock>)
    ensures AsClient(a + b) == AsClient(a) + AsClient(b)
  {
  }

  lemma CloseThinking(c: Conv, h: Head)
    requires InThinking(c, h)
    ensures InThinking(CloseBlock(c), Head(Closed(h), None))
  {
    CloseReceived(c);
  }

  // The thinking block a delta or a signature goes to.
  lemma EnsureThinking(c: Conv, h: Head)
    requires InThinking(c, h)
    ensures InThinking(EnsureBlock(c, ThinkingStart), h.(open := Some(OpenText(h))))
    ensures EnsureBlock(c, ThinkingStart).curIndex == |h.blocks|
  {
    EnsureContent(c, ThinkingStart);
    AsClientAppend(h.blocks, [ThinkingBlock("")]);
    if h.open.None? {
      assert Closed(h) == h.blocks;
    }
  }

  lemma LastReplaced(blocks: seq<ContentBlock>, a: ContentBlock, b: ContentBlock)
    ensures AsClient(blocks + [a])[|blocks| := ClientBlock(b, "")] == AsClient(blocks + [b])
  {
  }

  lemma ThinkStep(c: Conv, h: Head, t: string)
    requires InThinking(c, h)
    ensures InThinking(HandleThinking(c, t), Spoken(h, t))
  {
    var d, text := EnsureBlock(c, ThinkingStart), OpenText(h);
    EnsureThinking(c, h);
    DeltaReceived(d, ThinkingDelta(d.curIndex, t));
    LastReplaced(h.blocks, ThinkingBlock(text), ThinkingBlock(text + t));
  }

  lemma SignStep(c: Conv, h: Head, b: ReplayBlock)
    requires InThinking(c, h) && b.kind != "redacted_thinking" && b.signature != ""
    ensures InThinking(RenderReplayBlock(c, b), Shown(h, b))
  {
    var d, text := EnsureBlock(c, ThinkingStart), OpenText(h);
    EnsureThinking(c, h);
    var e := SignatureDelta(d.curIndex, b.signature);
    DeltaReceived(d, e);
    LastReplaced(h.blocks, ThinkingBlock(text), SignedBlock(text, b.signature));
    CloseReceived(Emit(d, e));
    assert Closed(Shown(h, b)) == h.blocks + [SignedBlock(text, b.signature)];
  }

  lemma RedactStep(c: Conv, h: Head, b: ReplayBlock)
    requires InThinking(c, h) && b.kind == "redacted_thinking"
    ensures InThinking(RenderReplayBlock(c, b), Shown(h, b))
  {
    CloseThinking(c, h);
    var redacted := OpenBlock(CloseBlock(c), RedactedStart(b.data));
    OpenReceived(c, RedactedStart(b.data));
    CloseReceived(redacted);
    AsClientAppend(Closed(h), [RedactedBlock(b.data)]);
    assert Closed(Shown(h, b)) == Closed(h) + [RedactedBlock(b.data)];
  }

  lemma ShowStep(c: Conv, h: Head, b: ReplayBlock)
    requires InThinking(c, h)
    ensures InThinking(RenderReplayBlock(c, b), Shown(h, b))
  {
    if b.kind == "redacted_thinking" {
      RedactStep(c, h, b);
    } else if b.signature != "" {
      SignStep(c, h, b);
    }
  }

  lemma {:induction false} ShowAll(c: Conv, h: Head, blocks: seq<ReplayBlock>)
    requires InThinking(c, h)
    ensures InThinking(RenderReplay(c, blocks), ShownAll(h, blocks))
  {
    if blocks != [] {
      var n := |blocks| - 1;
      ShowAll(c, h, blocks[..n]);
      ShowStep(RenderReplay(c, blocks[..n]), ShownAll(h, blocks[..n]), blocks[n]);
    }
  }

  lemma ReplayStep(c: Conv, h: Head, blocks: seq<ReplayBlock>)
    requires InThinking(c, h)
    ensures InThinking(HandleReplay(c, blocks), ShownAll(h, NewBlocks(c.thinkingSeen, blocks)))
  {
    ShowAll(c, h, NewBlocks(c.thinkingSeen, blocks));
  }

  lemma TextBlockOpened(c: Conv, h: Head)
    requires InThinking(c, h)
    ensures var d := EnsureBlock(c, TextStart);
      && Numbered(d) && d.toolBlock == map[] && d.blockOpen && d.blockKind == TextKind
      && Content(d) == AsClient(Closed(h) + [TextBlock("")]) && d.curIndex == |Closed(h)|
  {
    EnsureContent(c, TextStart);
    AsClientAppend(Closed(h), [TextBlock("")]);
  }

  lemma FirstText(c: Conv, h: Head, t: string)
    requires InThinking(c, h) && t != ""
    ensures InText(HandleText(c, t), Closed(h), t)
  {
    var d := EnsureBlock(c, TextStart);
    TextBlockOpened(c, h);
    DeltaReceived(d, TextDelta(d.curIndex, t));
    assert "" + t == t;
    LastReplaced(Closed(h), TextBlock(""), TextBlock(t));
    AsClientAppend(Closed(h), [TextBlock(t)]);
  }

  lemma MoreText(c: Conv, head: seq<ContentBlock>, text: string, t: string)
    requires InText(c, head, text) && text != ""
    ensures InText(HandleText(c, t), head, text + t)
  {
    EnsureContent(c, TextStart);
    DeltaReceived(c, TextDelta(c.curIndex, t));
    LastReplaced(head, TextBlock(text), TextBlock(text + t));
    AsClientAppend(head, [TextBlock(text)]);
    AsClientAppend(head, [TextBlock(text + t)]);
  }

  lemma BeforeTools(c: Conv, head: seq<ContentBlock>, text: string)
    requires Numbered(c) && c.toolBlock == map[] && Content(c) == AsClient(head) + AsClient(TextBlocks(text))
    ensures InTools(c, head, text, [])
  {
  }

  // ---- whole runs ----

  // Nothing empty.
  predicate Full(a: Action) {
    (a.Think? ==> a.thinking != "") && (a.Text? ==> a.text != "")
  }

  lemma GatherSnoc(actions: seq<Action>, a: Action)
    ensures GatherAll(Nothing, actions + [a]) == Gather(GatherAll(Nothing, actions), a)
    ensures HeadOf(actions + [a]) == HeadStep(HeadOf(actions), SeenOf(actions), a)
    ensures SeenOf(actions + [a])
         == if a.Replay? && |a.blocks| > SeenOf(actions) then |a.blocks| else SeenOf(actions)
  {
    DropLast(actions, a);
  }

  lemma ToolFollows(c: Conv, actions: seq<Action>, call: ToolDelta)
    requires Follows(c, actions)
    ensures Follows(HandleToolCall(c, call), actions + [Tool(call)])
  {
    var g, h := GatherAll(Nothing, actions), HeadOf(actions);
    GatherSnoc(actions, Tool(call));
    if g.calls == [] {
      BeforeTools(c, Closed(h), g.text);
    }
    BuiltTool(c, AsClient(Closed(h)) + AsClient(TextBlocks(g.text)), MergeCalls(g.calls), call);
    DropLast(g.calls, call);
    ActTools(c, Tool(call));
  }

  lemma TextFollows(c: Conv, actions: seq<Action>, t: string)
    requires Follows(c, actions) && t != "" && InPlace(actions, Text(t))
    ensures Follows(HandleText(c, t), actions + [Text(t)])
  {
    var g, h := GatherAll(Nothing, actions), HeadOf(actions);
    GatherSnoc(actions, Text(t));
    if g.text == "" {
      FirstText(c, h, t);
      assert "" + t == t;
    } else {
      MoreText(c, Closed(h), g.text, t);
    }
    ActTools(c, Text(t));
  }

  lemma ThinkFollows(c: Conv, actions: seq<Action>, t: string)
    requires Follows(c, actions) && InPlace(actions, Think(t))
    ensures Follows(HandleThinking(c, t), actions + [Think(t)])
  {
    GatherSnoc(actions, Think(t));
    ThinkStep(c, HeadOf(actions), t);
    ActTools(c, Think(t));
  }

  lemma ReplayFollows(c: Conv, actions: seq<Action>, blocks: seq<ReplayBlock>)
    requires Follows(c, actions) && InPlace(actions, Replay(blocks))
    ensures Follows(HandleReplay(c, blocks), actions + [Replay(blocks)])
  {
    GatherSnoc(actions, Replay(blocks));
    var h, more := HeadOf(actions), NewBlocks(SeenOf(actions), blocks);
    if Usable(more) == [] {
      NothingShown(c, h, more);
      FollowsSame(c, HandleReplay(c, blocks), actions, actions + [Replay(blocks)]);
    } else {
      ReplayStep(c, h, blocks);
    }
  }

  // Blocks that are neither redacted nor signed show nothing.
  lemma {:induction false} NothingShown(c: Conv, h: Head, blocks: seq<ReplayBlock>)
    requires Usable(blocks) == []
    ensures RenderReplay(c, blocks) == c && ShownAll(h, blocks) == h
  {
    if blocks != [] {
      NothingShown(c, h, blocks[..|blocks| - 1]);
    }
  }

  lemma ActFollows(c: Conv, actions: seq<Action>, a: Action)
    requires Follows(c, actions) && Full(a) && InPlace(actions, a)
    ensures Follows(Act(c, a), actions + [a])
  {
    match a
    case Think(t) => ThinkFollows(c, actions, t);
    case Replay(blocks) => ReplayFollows(c, actions, blocks);
    case Text(t) => TextFollows(c, actions, t);
    case Tool(call) => ToolFollows(c, actions, call);
    case StopSeq(_) => StopFollowsOn(c, Act(c, a), actions, a);
    case Finish(_) => StopFollowsOn(c, Act(c, a), actions, a);
  }

  lemma StopFollowsOn(c: Conv, d: Conv, actions: seq<Action>, a: Action)
    requires Follows(c, actions) && (a.StopSeq? || a.Finish?)
    requires d == c.(stopReason := d.stopReason, stopSequence := d.stopSequence)
    ensures Follows(d, actions + [a])
  {
    StopGathers(actions, a);
    FollowsSame(c, d, actions, actions + [a]);
  }

  lemma StopGathers(actions: seq<Action>, a: Action)
    requires a.StopSeq? || a.Finish?
    ensures GatherAll(Nothing, actions + [a]).text == GatherAll(Nothing, actions).text
    ensures GatherAll(Nothing, actions + [a]).calls == GatherAll(Nothing, actions).calls
    ensures HeadOf(actions + [a]) == HeadOf(actions) && SeenOf(actions + [a]) == SeenOf(actions)
  {
    GatherSnoc(actions, a);
  }

  // The two hold the same blocks and would go on in the same way.
  ghost predicate SameBlocks(c: Conv, d: Conv) {
    && Content(d) == Content(c)
    && d.nextIndex == c.nextIndex && d.curIndex == c.curIndex
    && d.blockOpen == c.blockOpen && d.blockKind == c.blockKind && d.toolBlock == c.toolBlock
  }

  lemma FollowsSame(c: Conv, d: Conv, actions: seq<Action>, more: seq<Action>)
    requires Follows(c, actions) && SameBlocks(c, d)
    requires GatherAll(Nothing, more).text == GatherAll(Nothing, actions).text
    requires GatherAll(Nothing, more).calls == GatherAll(Nothing, actions).calls
    requires HeadOf(more) == HeadOf(actions) && d.thinkingSeen == SeenOf(more)
    ensures Follows(d, more)
  {
  }

  lemma {:induction false} ActsFollow(c: Conv, before: seq<Action>, actions: seq<Action>)
    requires OrderedReplays(before + actions) && (forall i :: 0 <= i < |actions| ==> Full(actions[i]))
    requires Follows(c, before)
    ensures Follows(Acts(c, actions), before + actions)
    ensures OrderedReplays(before)
  {
    if actions == [] {
      assert before + actions == before;
    } else {
      var n := |actions| - 1;
      AppendLast(before, actions);
      DropLast(before + actions[..n], actions[n]);
      ActsFollow(c, before, actions[..n]);
      ActFollows(Acts(c, actions[..n]), before + actions[..n], actions[n]);
    }
  }

  lemma {:induction false} ChoicesFull(choices: seq<Choice>)
    ensures forall i :: 0 <= i < |ChoicesActions(choices)| ==> Full(ChoicesActions(choices)[i])
  {
    if choices != [] {
      ChoicesFull(choices[..|choices| - 1]);
      ChoiceFull(choices[|choices| - 1]);
    }
  }

  lemma ChoiceFull(choice: Choice)
    ensures forall i :: 0 <= i < |ChoiceActions(choice)| ==> Full(ChoiceActions(choice)[i])
  {
  }

  lemma BeginFollows(c: Conv, chunk: Chunk, actions: seq<Action>)
    requires Follows(c, actions)
    ensures Follows(BeginChunk(c, chunk), actions)
  {
    BeginContent(c, chunk);
    FollowsSame(c, BeginChunk(c, chunk), actions, actions);
  }

  lemma {:induction false} ChunksFollow(c: Conv, chunks: seq<Chunk>)
    requires c == NewConv(c.model, c.inputEstimate) && OrderedReplays(AllActions(chunks))
    ensures Follows(HandleChunks(c, chunks), AllActions(chunks))
  {
    if chunks == [] {
      assert Content(c) == AsClient([]);
    } else {
      var n := |chunks| - 1;
      var before, more := AllActions(chunks[..n]), ChoicesActions(chunks[n].choices);
      OrderedFirst(before, more);
      ChunksFollow(c, chunks[..n]);
      var d := HandleChunks(c, chunks[..n]);
      BeginFollows(d, chunks[n], before);
      ChoicesFull(chunks[n].choices);
      ActsFollow(BeginChunk(d, chunks[n]), before, more);
    }
  }

  lemma {:induction false} OrderedFirst(a: seq<Action>, b: seq<Action>)
    requires OrderedReplays(a + b)
    ensures OrderedReplays(a)
  {
    if b == [] {
      assert a + b == a;
    } else {
      AppendLast(a, b);
      DropLast(a + b[..|b| - 1], b[|b| - 1]);
      OrderedFirst(a, b[..|b| - 1]);
    }
  }

  // ---- the assembled response ----

  // A replay block as the one-shot translation decodes it.
  function ReplayContent(b: ReplayBlock): ContentBlock {
    ContentBlock(b.kind, "", b.thinking, if b.signature == "" then None else Some(b.signature), b.data, "", "", None, "")
  }

  function ReplayContents(blocks: seq<ReplayBlock>): (r: seq<ContentBlock>)
    ensures |r| == |blocks| && forall i :: 0 <= i < |blocks| ==> r[i] == ReplayContent(blocks[i])
  {
    seq(|blocks|, i requires 0 <= i < |blocks| => ReplayContent(blocks[i]))
  }

  // The replay state last received.
  function LastList(actions: seq<Action>): seq<ReplayBlock> {
    if actions == [] then []
    else if actions[|actions| - 1].Replay? then actions[|actions| - 1].blocks
    else LastList(actions[..|actions| - 1])
  }

  function AssembledWithReplay(chunks: seq<Chunk>): Reply {
    Assembled(AllChoices(chunks)).(replay := ReplayContents(LastList(AllActions(chunks))))
  }

  predicate NoToolBlock(blocks: seq<ContentBlock>) {
    forall i :: 0 <= i < |blocks| ==> blocks[i].kind != "tool_use"
  }

  lemma {:induction false} ShownKinds(h: Head, blocks: seq<ReplayBlock>)
    requires NoToolBlock(h.blocks)
    ensures NoToolBlock(ShownAll(h, blocks).blocks)
  {
    if blocks != [] {
      ShownKinds(h, blocks[..|blocks| - 1]);
    }
  }

  lemma {:induction false} HeadKinds(actions: seq<Action>)
    ensures NoToolBlock(HeadOf(actions).blocks)
  {
    if actions != [] {
      var n := |actions| - 1;
      HeadKinds(actions[..n]);
      if actions[n].Replay? {
        ShownKinds(HeadOf(actions[..n]), NewBlocks(SeenOf(actions[..n]), actions[n].blocks));
      }
    }
  }

  lemma FinishedClient(blocks: seq<ContentBlock>, compact: Compactor)
    requires NoToolBlock(blocks)
    ensures FinishedContent(AsClient(blocks), compact) == blocks
  {
  }

  // The client's finished content, part by part.
  lemma FinishedParts(c: Conv, actions: seq<Action>, compact: Compactor)
    requires Follows(c, actions)
    ensures var g := GatherAll(Nothing, actions);
      FinishedContent(Content(c), compact)
      == Closed(HeadOf(actions)) + TextBlocks(g.text) + ToolPart(ToolCalls(MergeCalls(g.calls)), compact)
  {
    var g, head := GatherAll(Nothing, actions), Closed(HeadOf(actions));
    var merged := MergeCalls(g.calls);
    HeadKinds(actions);
    ContentParts(c, actions);
    FinishedAppend(AsClient(head) + AsClient(TextBlocks(g.text)), ToolBlocks(merged), compact);
    FinishedAppend(AsClient(head), AsClient(TextBlocks(g.text)), compact);
    FinishedClient(head, compact);
    FinishedClient(TextBlocks(g.text), compact);
    FinishedTools(merged, compact);
  }

  lemma ContentParts(c: Conv, actions: seq<Action>)
    requires Follows(c, actions)
    ensures var g := GatherAll(Nothing, actions);
      Content(c) == AsClient(Closed(HeadOf(actions))) + AsClient(TextBlocks(g.text)) + ToolBlocks(MergeCalls(g.calls))
  {
    var g := GatherAll(Nothing, actions);
    MergedEmpty(g.calls);
    if g.calls == [] {
      assert ToolBlocks(MergeCalls(g.calls)) == [];
    }
  }

  // For every stream in order, with or without replay state: the client gets the
  // content of the one-shot translation exactly when the thinking it received,
  // signed block by block, is what the translation renders from the replay state.
  lemma OrderedStreamMatches(
    model: string, inputEstimate: int, chunks: seq<Chunk>, id: string, usage: CoreUsage, compact: Compactor)
    requires OrderedReplays(AllActions(chunks))
    ensures
      var client := Received(Convert(model, inputEstimate, chunks).log);
      var reply := AssembledWithReplay(chunks);
      var once := Translated(Some(ChatResponse(id, model, [reply], usage)), compact);
      FinishedContent(client.content, compact) == once.content
      <==> Closed(HeadOf(AllActions(chunks))) == ThinkingPart(reply)
  {
    var actions, reply := AllActions(chunks), AssembledWithReplay(chunks);
    var c := HandleChunks(NewConv(model, inputEstimate), chunks);
    ChunksKeepFinalized(NewConv(model, inputEstimate), chunks);
    FinalizeReceived(c);
    GatherChunks(chunks);
    ChunksFollow(NewConv(model, inputEstimate), chunks);
    FinishedParts(c, actions, compact);
    SameTail(Closed(HeadOf(actions)), ThinkingPart(reply), TextPart(reply), ToolPart(reply.toolCalls, compact));
  }

  lemma SameTail<T>(a: seq<T>, b: seq<T>, tail: seq<T>, more: seq<T>)
    ensures a + tail + more == b + tail + more <==> a == b
  {
    if a + tail + more == b + tail + more {
      assert |a| == |b|;
      assert a == (a + tail + more)[..|a|] && b == (b + tail + more)[..|b|];
    }
  }

  // The stop reason does not depend on order or replay state.
  lemma StopAlwaysMatches(
    model: string, inputEstimate: int, chunks: seq<Chunk>, id: string, usage: CoreUsage, compact: Compactor)
    ensures
      var client := Received(Convert(model, inputEstimate, chunks).log);
      var once := Translated(Some(ChatResponse(id, model, [AssembledWithReplay(chunks)], usage)), compact);
      (client.stopReason, client.stopSequence) == (once.stopReason, once.stopSequence)
      <==> StopInTime(AllActions(chunks), AllChoices(chunks))
  {
    ConvertReceived(model, inputEstimate, chunks);
    ConvertStops(model, inputEstimate, chunks);
  }

  // ---- an upstream that echoes its reasoning ----

  // Each replay list extends the one before.
  ghost predicate GrowingLists(actions: seq<Action>) {
    forall i, j :: 0 <= i < j < |actions| && actions[i].Replay? && actions[j].Replay? ==>
      actions[i].blocks <= actions[j].blocks
  }

  // A new block is signed and holds the reasoning streamed for it, or is
  // redacted and comes with none.
  predicate Echo(h: Head, b: ReplayBlock) {
    if b.kind == "redacted_thinking" then h.open.None? && b.thinking == "" && b.signature == ""
    else b.kind == "thinking" && b.signature != "" && b.thinking == OpenText(h) && b.data == ""
  }

  predicate EchoAll(h: Head, blocks: seq<ReplayBlock>) {
    blocks == []
    || (EchoAll(h, blocks[..|blocks| - 1]) && Echo(ShownAll(h, blocks[..|blocks| - 1]), blocks[|blocks| - 1]))
  }

  predicate Echoed(actions: seq<Action>) {
    actions == []
    || (var n := |actions| - 1;
        && Echoed(actions[..n])
        && (actions[n].Replay? ==> EchoAll(HeadOf(actions[..n]), NewBlocks(SeenOf(actions[..n]), actions[n].blocks))))
  }

  lemma {:induction false} EchoedBlocks(h: Head, blocks: seq<ReplayBlock>)
    requires EchoAll(h, blocks)
    ensures ShownAll(h, blocks).blocks == h.blocks + ReplayContents(blocks)
    ensures ResponseTranslation.Signed(ReplayContents(blocks)) == ReplayContents(blocks)
  {
    if blocks == [] {
      assert h.blocks + ReplayContents(blocks) == h.blocks;
    } else {
      var n := |blocks| - 1;
      EchoedBlocks(h, blocks[..n]);
      assert ReplayContents(blocks) == ReplayContents(blocks[..n]) + [ReplayContent(blocks[n])];
      EchoedBlock(ShownAll(h, blocks[..n]), blocks[n]);
      SignedSnoc(ReplayContents(blocks[..n]), ReplayContent(blocks[n]));
      AppendTwice(h.blocks, ReplayContents(blocks[..n]), ReplayContent(blocks[n]));
    }
  }

  lemma EchoedBlock(h: Head, b: ReplayBlock)
    requires Echo(h, b)
    ensures Shown(h, b).blocks == h.blocks + [ReplayContent(b)] && WithSignature(ReplayContent(b)) == ReplayContent(b)
  {
  }

  lemma SignedSnoc(blocks: seq<ContentBlock>, b: ContentBlock)
    ensures ResponseTranslation.Signed(blocks + [b]) == ResponseTranslation.Signed(blocks) + [WithSignature(b)]
  {
  }

  lemma AppendTwice<T>(a: seq<T>, b: seq<T>, x: T)
    ensures a + b + [x] == a + (b + [x])
  {
  }

  lemma ListGrows(actions: seq<Action>, blocks: seq<ReplayBlock>)
    requires GrowingLists(actions + [Replay(blocks)])
    ensures LastList(actions) <= blocks && GrowingLists(actions)
  {
    var all := actions + [Replay(blocks)];
    assert all[|actions|] == Replay(blocks);
    assert forall i :: 0 <= i < |actions| ==> all[i] == actions[i];
    LastListIs(actions);
  }

  lemma {:induction false} LastListIs(actions: seq<Action>)
    ensures LastList(actions) == [] || exists i :: 0 <= i < |actions| && actions[i] == Replay(LastList(actions))
  {
    if actions != [] && !actions[|actions| - 1].Replay? {
      LastListIs(actions[..|actions| - 1]);
    }
  }

  lemma {:induction false} EchoedHead(actions: seq<Action>)
    requires Echoed(actions) && GrowingLists(actions)
    ensures SeenOf(actions) == |LastList(actions)|
    ensures HeadOf(actions).blocks == ReplayContents(LastList(actions))
    ensures ResponseTranslation.Signed(ReplayContents(LastList(actions))) == ReplayContents(LastList(actions))
  {
    if actions != [] {
      var n := |actions| - 1;
      var before, a := actions[..n], actions[n];
      assert actions == before + [a];
      if a.Replay? {
        ListGrows(before, a.blocks);
        EchoedHead(before);
        MoreEchoed(before, a.blocks);
      } else {
        assert GrowingLists(before);
        EchoedHead(before);
      }
    }
  }

  lemma MoreEchoed(before: seq<Action>, blocks: seq<ReplayBlock>)
    requires LastList(before) <= blocks && SeenOf(before) == |LastList(before)|
    requires HeadOf(before).blocks == ReplayContents(LastList(before))
    requires ResponseTranslation.Signed(ReplayContents(LastList(before))) == ReplayContents(LastList(before))
    requires EchoAll(HeadOf(before), NewBlocks(SeenOf(before), blocks))
    ensures ShownAll(HeadOf(before), NewBlocks(SeenOf(before), blocks)).blocks == ReplayContents(blocks)
    ensures ResponseTranslation.Signed(ReplayContents(blocks)) == ReplayContents(blocks)
  {
    var last, rest := LastList(before), NewBlocks(SeenOf(before), blocks);
    EchoedBlocks(HeadOf(before), rest);
    assert blocks == last + rest;
    ContentsAppend(last, rest);
    SignedAppend(ReplayContents(last), ReplayContents(rest));
  }

  lemma ContentsAppend(a: seq<ReplayBlock>, b: seq<ReplayBlock>)
    ensures ReplayContents(a + b) == ReplayContents(a) + ReplayContents(b)
  {
  }

  lemma SignedAppend(a: seq<ContentBlock>, b: seq<ContentBlock>)
    ensures ResponseTranslation.Signed(a + b) == ResponseTranslation.Signed(a) + ResponseTranslation.Signed(b)
  {
  }

  // In particular with growing replay lists that echo the reasoning block by
  // block and leave none of it unsigned.
  lemma EchoedStreamMatches(
    model: string, inputEstimate: int, chunks: seq<Chunk>, id: string, usage: CoreUsage, compact: Compactor)
    requires OrderedReplays(AllActions(chunks)) && GrowingLists(AllActions(chunks)) && Echoed(AllActions(chunks))
    requires LastList(AllActions(chunks)) != [] && HeadOf(AllActions(chunks)).open.None?
    ensures
      var client := Received(Convert(model, inputEstimate, chunks).log);
      var once := Translated(Some(ChatResponse(id, model, [AssembledWithReplay(chunks)], usage)), compact);
      FinishedContent(client.content, compact) == once.content
  {
    OrderedStreamMatches(model, inputEstimate, chunks, id, usage, compact);
    EchoedHead(AllActions(chunks));
    assert Closed(HeadOf(AllActions(chunks))) == HeadOf(AllActions(chunks)).blocks;
  }
}
