// The proof that the stream refines the one-shot translation.

module StreamEquivalence {
  import opened Prelude
  import opened StreamModel
  import opened StreamConservation
  import opened StreamGrammar
  import opened ResponseTranslation
  import opened StreamRefinement

  // ---- in order: the client's content is the assembled content ----

  function ToolBlock(m: Merged): ClientBlock {
    ClientBlock(ToolUseBlock(m.call.id, m.call.name, "", m.call.extra), m.call.arguments)
  }

  function ToolBlocks(merged: seq<Merged>): (r: seq<ClientBlock>)
    ensures |r| == |merged| && forall i :: 0 <= i < |r| ==> r[i] == ToolBlock(merged[i])
  {
    seq(|merged|, i requires 0 <= i < |merged| => ToolBlock(merged[i]))
  }

  function HeadBlocks(thinking: string, text: string): seq<ClientBlock> {
    (if thinking != "" then [ClientBlock(ThinkingBlock(thinking), "")] else [])
    + (if text != "" then [ClientBlock(TextBlock(text), "")] else [])
  }

  // Where the call with the given index stands, or |merged| when it is new.
  function Position(merged: seq<Merged>, index: int): (p: nat)
    ensures p <= |merged|
    ensures p < |merged| ==> merged[p].index == index
    ensures forall q :: 0 <= q < p ==> merged[q].index != index
  {
    if merged == [] || merged[0].index == index then 0 else 1 + Position(merged[1..], index)
  }

  lemma MergeAt(merged: seq<Merged>, d: ToolDelta)
    ensures
      var p := Position(merged, d.index);
      MergeCall(merged, d) ==
      if p < |merged| then MoreInput(merged, p, d.arguments)
      else merged + [Merged(d.index, ToolCall(d.id, d.name, d.arguments, d.extra))]
  {
    if merged != [] && merged[0].index != d.index {
      var head, rest := merged[0], merged[1..];
      var p := Position(rest, d.index);
      MergeAt(rest, d);
      assert merged == [head] + rest;
      if p < |rest| {
        InputBehind(head, rest, p, d.arguments);
      } else {
        AppendBehind(head, rest, Merged(d.index, ToolCall(d.id, d.name, d.arguments, d.extra)));
      }
    } else if merged != [] {
      assert merged == [merged[0]] + merged[1..];
    }
  }

  lemma InputBehind(head: Merged, rest: seq<Merged>, p: nat, arguments: string)
    requires p < |rest|
    ensures [head] + MoreInput(rest, p, arguments) == MoreInput([head] + rest, p + 1, arguments)
  {
  }

  lemma AppendBehind(head: Merged, rest: seq<Merged>, m: Merged)
    ensures [head] + (rest + [m]) == [head] + rest + [m]
  {
  }

  ghost predicate OpenMatches(c: Conv, thinking: string, text: string) {
    if text != "" then c.blockOpen && c.blockKind == TextKind
    else if thinking != "" then c.blockOpen && c.blockKind == ThinkingKind
    else !c.blockOpen
  }

  ghost predicate BlocksMatch(blocks: map<int, nat>, base: nat, merged: seq<Merged>) {
    && (forall k :: k in blocks ==> Position(merged, k) < |merged| && blocks[k] == base + Position(merged, k))
    && (forall p :: 0 <= p < |merged| ==> merged[p].index in blocks)
  }

  // The client holds head, then a block for each call.
  ghost predicate BuiltOn(c: Conv, head: seq<ClientBlock>, merged: seq<Merged>) {
    && Content(c) == head + ToolBlocks(merged)
    && c.nextIndex == |Content(c)|
    && (c.blockOpen ==> c.curIndex + 1 == c.nextIndex)
    && BlocksMatch(c.toolBlock, |head|, merged)
  }

  ghost predicate Built(c: Conv, thinking: string, text: string, merged: seq<Merged>) {
    BuiltOn(c, HeadBlocks(thinking, text), merged) && (merged == [] ==> OpenMatches(c, thinking, text))
  }

  lemma EnsureContent(c: Conv, block: StartBlock)
    requires c.blockOpen ==> c.curIndex + 1 == c.nextIndex
    requires c.nextIndex == |Content(c)|
    ensures
      var d := EnsureBlock(c, block);
      && Content(d) == (if c.blockOpen && c.blockKind == block.Kind() then Content(c) else Content(c) + [OpenedBlock(block)])
      && d.blockOpen && d.blockKind == block.Kind() && d.curIndex + 1 == d.nextIndex == |Content(d)|
      && d.toolBlock == c.toolBlock
  {
    OpenReceived(c, block);
  }

  lemma ThinkingOpened(c: Conv, thinking: string)
    requires Built(c, thinking, "", [])
    ensures var d := EnsureBlock(c, ThinkingStart);
      && Content(d) == [ClientBlock(ThinkingBlock(thinking), "")]
      && d.blockOpen && d.blockKind == ThinkingKind && d.curIndex == 0 && d.nextIndex == 1 && d.toolBlock == c.toolBlock
  {
    EnsureContent(c, ThinkingStart);
  }

  lemma BuiltThink(c: Conv, thinking: string, t: string)
    requires Built(c, thinking, "", []) && t != ""
    ensures Built(HandleThinking(c, t), thinking + t, "", [])
  {
    ThinkingOpened(c, thinking);
    var d := EnsureBlock(c, ThinkingStart);
    DeltaReceived(d, ThinkingDelta(d.curIndex, t));
    assert Content(HandleThinking(c, t)) == [ClientBlock(ThinkingBlock(thinking + t), "")];
  }

  lemma BuiltText(c: Conv, thinking: string, text: string, t: string)
    requires Built(c, thinking, text, []) && t != ""
    ensures Built(HandleText(c, t), thinking, text + t, [])
  {
    TextOpened(c, thinking, text);
    var d := EnsureBlock(c, TextStart);
    var head := HeadBlocks(thinking, "");
    DeltaReceived(d, TextDelta(d.curIndex, t));
    assert Content(HandleText(c, t)) == head + [ClientBlock(TextBlock(text + t), "")];
  }

  lemma TextOpened(c: Conv, thinking: string, text: string)
    requires Built(c, thinking, text, [])
    ensures var d := EnsureBlock(c, TextStart); var head := HeadBlocks(thinking, "");
      && Content(d) == head + [ClientBlock(TextBlock(text), "")]
      && d.blockOpen && d.blockKind == TextKind && d.curIndex == |head| && d.nextIndex == |head| + 1
      && d.toolBlock == c.toolBlock
  {
    EnsureContent(c, TextStart);
  }

  function NewCall(call: ToolDelta, arguments: string): Merged {
    Merged(call.index, ToolCall(call.id, call.name, arguments, call.extra))
  }

  lemma BlocksMatchNew(blocks: map<int, nat>, base: nat, merged: seq<Merged>, m: Merged)
    requires BlocksMatch(blocks, base, merged) && m.index !in blocks
    ensures Position(merged, m.index) == |merged|
    ensures BlocksMatch(blocks[m.index := base + |merged|], base, merged + [m])
  {
    forall k
      ensures Position(merged + [m], k) ==
        (if Position(merged, k) < |merged| then Position(merged, k) else if m.index == k then |merged| else |merged| + 1)
    {
      NewPosition(merged, m, k);
    }
  }

  lemma StartToolFields(c: Conv, call: ToolDelta)
    ensures
      var d := StartTool(c, call);
      && d.toolBlock == c.toolBlock[call.index := c.nextIndex]
      && d.nextIndex == c.nextIndex + 1 && d.curIndex == c.nextIndex
      && Content(d) == Content(c) + [OpenedBlock(ToolStart(call.id, call.name, call.extra))]
  {
    OpenReceived(c, ToolStart(call.id, call.name, call.extra));
  }

  // The new call has its block.
  ghost predicate HasGrown(c: Conv, d: Conv, m: Merged) {
    && d.toolBlock == c.toolBlock[m.index := c.nextIndex]
    && d.nextIndex == c.nextIndex + 1 && d.curIndex == c.nextIndex
    && Content(d) == Content(c) + [ToolBlock(m)]
  }

  lemma ToolHasGrown(c: Conv, call: ToolDelta)
    ensures HasGrown(c, StartTool(c, call), NewCall(call, ""))
  {
    StartToolFields(c, call);
  }

  lemma BuiltNewTool(c: Conv, head: seq<ClientBlock>, merged: seq<Merged>, call: ToolDelta)
    requires BuiltOn(c, head, merged) && call.index !in c.toolBlock
    ensures Position(merged, call.index) == |merged|
    ensures BuiltOn(StartTool(c, call), head, merged + [NewCall(call, "")])
  {
    ToolHasGrown(c, call);
    BuiltGrown(c, StartTool(c, call), head, merged, NewCall(call, ""));
  }

  lemma BuiltGrown(c: Conv, d: Conv, head: seq<ClientBlock>, merged: seq<Merged>, m: Merged)
    requires BuiltOn(c, head, merged) && m.index !in c.toolBlock && HasGrown(c, d, m)
    ensures Position(merged, m.index) == |merged|
    ensures BuiltOn(d, head, merged + [m])
  {
    assert |Content(c)| == |head| + |merged|;
    BlocksMatchNew(c.toolBlock, |head|, merged, m);
    ToolBlocksSnoc(head, merged, m);
  }

  lemma ToolBlocksSnoc(head: seq<ClientBlock>, merged: seq<Merged>, m: Merged)
    ensures head + ToolBlocks(merged + [m]) == head + ToolBlocks(merged) + [ToolBlock(m)]
  {
  }

  lemma NewPosition(merged: seq<Merged>, m: Merged, k: int)
    ensures
      var p := Position(merged, k);
      Position(merged + [m], k) == (if p < |merged| then p else if m.index == k then |merged| else |merged| + 1)
  {
    if merged != [] {
      assert (merged + [m])[1..] == merged[1..] + [m];
      NewPosition(merged[1..], m, k);
    }
  }

  function MoreInput(merged: seq<Merged>, p: nat, arguments: string): (r: seq<Merged>)
    requires p < |merged|
    ensures |r| == |merged|
  {
    merged[p := merged[p].(call := merged[p].call.(arguments := merged[p].call.arguments + arguments))]
  }

  lemma InputContent(head: seq<ClientBlock>, merged: seq<Merged>, p: nat, block: nat, arguments: string)
    requires p < |merged|
    ensures
      var content := head + ToolBlocks(merged);
      content[|head| + p := Extended(content[|head| + p], InputDelta(block, arguments))] ==
      head + ToolBlocks(MoreInput(merged, p, arguments))
  {
    var more := MoreInput(merged, p, arguments);
    var content := head + ToolBlocks(merged);
    assert Extended(content[|head| + p], InputDelta(block, arguments)) == ToolBlock(more[p]);
  }

  lemma BlocksMatchSame(blocks: map<int, nat>, base: nat, merged: seq<Merged>, p: nat, arguments: string)
    requires BlocksMatch(blocks, base, merged) && p < |merged|
    ensures BlocksMatch(blocks, base, MoreInput(merged, p, arguments))
  {
    SamePositions(merged, MoreInput(merged, p, arguments));
  }

  lemma BuiltInput(c: Conv, head: seq<ClientBlock>, merged: seq<Merged>, index: int, arguments: string)
    requires BuiltOn(c, head, merged) && index in c.toolBlock && Position(merged, index) < |merged|
    ensures BuiltOn(Emit(c, InputDelta(c.toolBlock[index], arguments)), head,
                    MoreInput(merged, Position(merged, index), arguments))
  {
    var p := Position(merged, index);
    DeltaReceived(c, InputDelta(c.toolBlock[index], arguments));
    InputContent(head, merged, p, c.toolBlock[index], arguments);
    BlocksMatchSame(c.toolBlock, |head|, merged, p, arguments);
  }

  lemma SamePositions(merged: seq<Merged>, more: seq<Merged>)
    requires |merged| == |more| && forall p :: 0 <= p < |merged| ==> merged[p].index == more[p].index
    ensures forall k :: Position(merged, k) == Position(more, k)
  {
    if merged != [] {
      SamePositions(merged[1..], more[1..]);
    }
  }

  lemma BuiltSeenTool(c: Conv, head: seq<ClientBlock>, merged: seq<Merged>, call: ToolDelta)
    requires BuiltOn(c, head, merged) && call.index in c.toolBlock
    ensures BuiltOn(HandleToolCall(c, call), head, MergeCall(merged, call))
  {
    MergeAt(merged, call);
    var p := Position(merged, call.index);
    assert p < |merged|;
    if call.arguments == "" {
      assert merged[p].call.arguments + "" == merged[p].call.arguments;
      assert MergeCall(merged, call) == merged;
    } else {
      BuiltInput(c, head, merged, call.index, call.arguments);
    }
  }

  lemma BuiltFreshTool(c: Conv, head: seq<ClientBlock>, merged: seq<Merged>, call: ToolDelta)
    requires BuiltOn(c, head, merged) && call.index !in c.toolBlock
    ensures BuiltOn(HandleToolCall(c, call), head, MergeCall(merged, call))
  {
    BuiltNewTool(c, head, merged, call);
    MergeAt(merged, call);
    assert MergeCall(merged, call) == merged + [NewCall(call, call.arguments)];
    if call.arguments != "" {
      NewPosition(merged, NewCall(call, ""), call.index);
      BuiltInput(StartTool(c, call), head, merged + [NewCall(call, "")], call.index, call.arguments);
      FirstInput(merged, call);
    }
  }

  lemma FirstInput(merged: seq<Merged>, call: ToolDelta)
    ensures MoreInput(merged + [NewCall(call, "")], |merged|, call.arguments) == merged + [NewCall(call, call.arguments)]
  {
    assert "" + call.arguments == call.arguments;
  }

  lemma BuiltTool(c: Conv, head: seq<ClientBlock>, merged: seq<Merged>, call: ToolDelta)
    requires BuiltOn(c, head, merged)
    ensures BuiltOn(HandleToolCall(c, call), head, MergeCall(merged, call))
  {
    if call.index in c.toolBlock {
      BuiltSeenTool(c, head, merged, call);
    } else {
      BuiltFreshTool(c, head, merged, call);
    }
  }

  // The state after actions in order.
  ghost predicate BuiltFrom(c: Conv, g: Gathered) {
    Built(c, g.thinking, g.text, MergeCalls(g.calls))
  }

  lemma MergedEmpty(calls: seq<ToolDelta>)
    ensures MergeCalls(calls) == [] <==> calls == []
  {
    if calls != [] {
      MergeAt(MergeCalls(calls[..|calls| - 1]), calls[|calls| - 1]);
    }
  }

  lemma BuiltStep(c: Conv, g: Gathered, a: Action)
    requires BuiltFrom(c, g) && ProperAction(a)
    requires a.Think? ==> g.text == "" && g.calls == []
    requires a.Text? ==> g.calls == []
    ensures BuiltFrom(Act(c, a), Gather(g, a))
  {
    match a
    case Think(t) => BuiltThink(c, g.thinking, t);
    case Text(t) => BuiltText(c, g.thinking, g.text, t);
    case Tool(call) =>
      BuiltTool(c, HeadBlocks(g.thinking, g.text), MergeCalls(g.calls), call);
      DropLast(g.calls, call);
      MergedEmpty(g.calls + [call]);
    case StopSeq(_) =>
    case Finish(_) =>
  }

  // What was gathered tells which ranks occurred.
  lemma GatheredRanks(actions: seq<Action>)
    requires Proper(actions)
    ensures GatherAll(Nothing, actions).text != "" ==> exists i :: 0 <= i < |actions| && actions[i].Text?
    ensures GatherAll(Nothing, actions).calls != [] ==> exists i :: 0 <= i < |actions| && actions[i].Tool?
  {
    if actions != [] {
      var n := |actions| - 1;
      assert Proper(actions[..n]) by { assert forall i :: 0 <= i < n ==> actions[..n][i] == actions[i]; }
      GatheredRanks(actions[..n]);
      if i :| 0 <= i < n && actions[..n][i].Text? { assert actions[i].Text?; }
      if i :| 0 <= i < n && actions[..n][i].Tool? { assert actions[i].Tool?; }
    }
  }

  lemma ActsBuilt(c: Conv, before: seq<Action>, actions: seq<Action>)
    requires Proper(before + actions) && Ordered(before + actions)
    requires BuiltFrom(c, GatherAll(Nothing, before))
    ensures BuiltFrom(Acts(c, actions), GatherAll(Nothing, before + actions))
  {
    if actions == [] {
      assert before + actions == before;
    } else {
      var n := |actions| - 1;
      var prefix := before + actions[..n];
      AppendLast(before, actions);
      PrefixOrdered(prefix, actions[n]);
      ActsBuilt(c, before, actions[..n]);
      GatheredRanks(prefix);
      GatherAppend(Nothing, prefix, [actions[n]]);
      GatherOne(GatherAll(Nothing, prefix), actions[n]);
      BuiltStep(Acts(c, actions[..n]), GatherAll(Nothing, prefix), actions[n]);
    }
  }

  lemma PrefixOrdered(prefix: seq<Action>, a: Action)
    requires Proper(prefix + [a]) && Ordered(prefix + [a])
    ensures Proper(prefix) && Ordered(prefix) && ProperAction(a)
    ensures forall i :: 0 <= i < |prefix| && Ranked(prefix[i]) && Ranked(a) ==> Rank(prefix[i]) <= Rank(a)
  {
    var all := prefix + [a];
    assert all[|prefix|] == a;
    assert forall i :: 0 <= i < |prefix| ==> all[i] == prefix[i];
  }

  lemma BeginContent(c: Conv, chunk: Chunk)
    ensures Content(BeginChunk(c, chunk)) == Content(c)
  {
    if !c.started {
      ReceivedSnoc(c.log, BeginChunk(c, chunk).log[|c.log|]);
    }
  }

  lemma ChunksBuilt(c: Conv, chunks: seq<Chunk>)
    requires c == NewConv(c.model, c.inputEstimate)
    requires Proper(AllActions(chunks)) && Ordered(AllActions(chunks))
    ensures BuiltFrom(HandleChunks(c, chunks), GatherAll(Nothing, AllActions(chunks)))
  {
    if chunks != [] {
      var n := |chunks| - 1;
      var before, actions := AllActions(chunks[..n]), ChoicesActions(chunks[n].choices);
      PartOrdered(before, actions);
      ChunksBuilt(c, chunks[..n]);
      var d := HandleChunks(c, chunks[..n]);
      BeginBuilt(d, GatherAll(Nothing, before), chunks[n]);
      ActsBuilt(BeginChunk(d, chunks[n]), before, actions);
    }
  }

  lemma PartOrdered(before: seq<Action>, actions: seq<Action>)
    requires Proper(before + actions) && Ordered(before + actions)
    ensures Proper(before) && Ordered(before)
  {
    var all := before + actions;
    assert forall i :: 0 <= i < |before| ==> all[i] == before[i];
  }

  lemma BeginBuilt(c: Conv, g: Gathered, chunk: Chunk)
    requires BuiltFrom(c, g)
    ensures BuiltFrom(BeginChunk(c, chunk), g)
  {
    BeginContent(c, chunk);
  }

  // ---- out of order: the blocks come out of order too ----

  function KindRank(kind: string): nat {
    if kind == "thinking" || kind == "redacted_thinking" then 0 else if kind == "text" then 1 else 2
  }

  function Ranks(content: seq<ClientBlock>): (r: seq<nat>)
    ensures |r| == |content| && forall i :: 0 <= i < |r| ==> r[i] == KindRank(content[i].block.kind)
  {
    seq(|content|, i requires 0 <= i < |content| => KindRank(content[i].block.kind))
  }

  predicate Sorted(ranks: seq<nat>) {
    forall i, j :: 0 <= i < j < |ranks| ==> ranks[i] <= ranks[j]
  }

  // The block that is open is the last one the client holds.
  ghost predicate LastOpen(c: Conv) {
    && c.nextIndex == |Content(c)|
    && (forall k :: k in c.toolBlock ==> c.toolBlock[k] < c.nextIndex)
    && (c.blockOpen ==>
         && c.curIndex + 1 == c.nextIndex
         && Ranks(Content(c))[c.curIndex] == (if c.blockKind == TextKind then 1 else if c.blockKind == ThinkingKind then 0 else 2)
         && c.blockKind != RedactedKind)
  }

  // Blocks keep their kinds; rank is that of a newly opened one.
  ghost predicate Grows(ranks: seq<nat>, more: seq<nat>, rank: nat) {
    more == ranks || more == ranks + [rank]
  }

  lemma DeltaRanks(c: Conv, e: Event)
    requires IsDelta(e) && e.index < |Content(c)|
    ensures Ranks(Content(Emit(c, e))) == Ranks(Content(c))
  {
    DeltaReceived(c, e);
  }

  lemma ThinkRanks(c: Conv, t: string)
    requires LastOpen(c)
    ensures LastOpen(HandleThinking(c, t))
    ensures Grows(Ranks(Content(c)), Ranks(Content(HandleThinking(c, t))), 0)
    ensures var ranks := Ranks(Content(HandleThinking(c, t))); ranks != [] && ranks[|ranks| - 1] == 0
  {
    ThinkingRanks(c);
    var d := EnsureBlock(c, ThinkingStart);
    DeltaRanks(d, ThinkingDelta(d.curIndex, t));
  }

  lemma ThinkingRanks(c: Conv)
    requires LastOpen(c)
    ensures var d := EnsureBlock(c, ThinkingStart); var ranks := Ranks(Content(d));
      && LastOpen(d) && d.blockOpen && d.blockKind == ThinkingKind && d.curIndex < |Content(d)|
      && Grows(Ranks(Content(c)), ranks, 0) && ranks != [] && ranks[|ranks| - 1] == 0
  {
    EnsureContent(c, ThinkingStart);
  }

  lemma TextRanks(c: Conv, t: string)
    requires LastOpen(c)
    ensures LastOpen(HandleText(c, t))
    ensures Grows(Ranks(Content(c)), Ranks(Content(HandleText(c, t))), 1)
    ensures var ranks := Ranks(Content(HandleText(c, t))); ranks != [] && ranks[|ranks| - 1] == 1
  {
    OpenTextRanks(c);
    var d := EnsureBlock(c, TextStart);
    DeltaRanks(d, TextDelta(d.curIndex, t));
  }

  lemma OpenTextRanks(c: Conv)
    requires LastOpen(c)
    ensures var d := EnsureBlock(c, TextStart); var ranks := Ranks(Content(d));
      && LastOpen(d) && d.blockOpen && d.blockKind == TextKind && d.curIndex < |Content(d)|
      && Grows(Ranks(Content(c)), ranks, 1) && ranks != [] && ranks[|ranks| - 1] == 1
  {
    EnsureContent(c, TextStart);
  }

  lemma StartToolRanks(c: Conv, call: ToolDelta)
    requires LastOpen(c)
    ensures LastOpen(StartTool(c, call))
    ensures Ranks(Content(StartTool(c, call))) == Ranks(Content(c)) + [2]
  {
    StartToolFields(c, call);
  }

  lemma ToolRanks(c: Conv, call: ToolDelta)
    requires LastOpen(c)
    ensures LastOpen(HandleToolCall(c, call))
    ensures Grows(Ranks(Content(c)), Ranks(Content(HandleToolCall(c, call))), 2)
    ensures call.index !in c.toolBlock ==> Ranks(Content(HandleToolCall(c, call))) == Ranks(Content(c)) + [2]
  {
    HandleToolForm(c, call);
    var d := if call.index in c.toolBlock then c else StartTool(c, call);
    if call.index !in c.toolBlock {
      StartToolRanks(c, call);
      StartToolFields(c, call);
    }
    if call.arguments != "" {
      DeltaRanks(d, InputDelta(BlockFor(c, call), call.arguments));
    }
  }

  // Every action that makes a block has a block of its rank, and actions out
  // of order leave blocks out of order.
  ghost predicate RanksFollow(c: Conv, actions: seq<Action>) {
    var ranks := Ranks(Content(c));
    && LastOpen(c)
    && (forall i :: 0 <= i < |actions| && Ranked(actions[i]) ==> Rank(actions[i]) in ranks)
    && (forall k :: k in c.toolBlock ==> 2 in ranks)
    && (!Ordered(actions) ==> !Sorted(ranks))
  }

  lemma GrownUnsorted(ranks: seq<nat>, more: seq<nat>, rank: nat)
    requires Grows(ranks, more, rank)
    ensures !Sorted(ranks) ==> !Sorted(more)
    ensures forall r :: r in ranks ==> r in more
  {
    if !Sorted(ranks) {
      var i, j :| 0 <= i < j < |ranks| && ranks[i] > ranks[j];
      assert more[i] > more[j];
    }
  }

  lemma LateRank(more: seq<nat>, rank: nat, higher: nat)
    requires more != [] && more[|more| - 1] == rank && higher in more && higher > rank
    ensures !Sorted(more)
  {
    var i :| 0 <= i < |more| && more[i] == higher;
    assert i < |more| - 1;
  }

  lemma OrderedSnoc(actions: seq<Action>, a: Action)
    ensures Ordered(actions + [a]) <==>
      Ordered(actions) &&
      (forall i :: 0 <= i < |actions| && Ranked(actions[i]) && Ranked(a) ==> Rank(actions[i]) <= Rank(a))
  {
    var all := actions + [a];
    assert forall i :: 0 <= i < |actions| ==> all[i] == actions[i];
    assert all[|actions|] == a;
  }

  lemma RanksAdvance(c: Conv, d: Conv, actions: seq<Action>, a: Action)
    requires RanksFollow(c, actions) && LastOpen(d) && Ranked(a)
    requires Grows(Ranks(Content(c)), Ranks(Content(d)), Rank(a)) && Rank(a) in Ranks(Content(d))
    requires Rank(a) < 2 ==> Ranks(Content(d))[|Content(d)| - 1] == Rank(a) && d.toolBlock == c.toolBlock
    ensures RanksFollow(d, actions + [a])
  {
    var ranks, more := Ranks(Content(c)), Ranks(Content(d));
    GrownUnsorted(ranks, more, Rank(a));
    StillUnordered(ranks, more, actions, a);
    assert forall i :: 0 <= i < |actions| ==> (actions + [a])[i] == actions[i];
  }

  lemma StillUnordered(ranks: seq<nat>, more: seq<nat>, actions: seq<Action>, a: Action)
    requires Ranked(a) && Grows(ranks, more, Rank(a)) && Rank(a) in more
    requires forall i :: 0 <= i < |actions| && Ranked(actions[i]) ==> Rank(actions[i]) in ranks
    requires Rank(a) < 2 ==> more[|more| - 1] == Rank(a)
    requires !Ordered(actions) ==> !Sorted(ranks)
    ensures !Ordered(actions + [a]) ==> !Sorted(more)
  {
    OrderedSnoc(actions, a);
    GrownUnsorted(ranks, more, Rank(a));
    if i :| 0 <= i < |actions| && Ranked(actions[i]) && Rank(actions[i]) > Rank(a) {
      LateRank(more, Rank(a), Rank(actions[i]));
    }
  }

  lemma RanksStep(c: Conv, actions: seq<Action>, a: Action)
    requires RanksFollow(c, actions) && ProperAction(a)
    ensures RanksFollow(Act(c, a), actions + [a])
  {
    match a
    case Think(t) => ThinkRanksStep(c, actions, t);
    case Text(t) => TextRanksStep(c, actions, t);
    case Tool(call) => ToolRanksStep(c, actions, call);
    case StopSeq(_) => OrderedSnoc(actions, a);
    case Finish(_) => OrderedSnoc(actions, a);
  }

  lemma ThinkRanksStep(c: Conv, actions: seq<Action>, t: string)
    requires RanksFollow(c, actions)
    ensures RanksFollow(HandleThinking(c, t), actions + [Think(t)])
  {
    ThinkRanks(c, t);
    ActTools(c, Think(t));
    RanksAdvance(c, HandleThinking(c, t), actions, Think(t));
  }

  lemma TextRanksStep(c: Conv, actions: seq<Action>, t: string)
    requires RanksFollow(c, actions)
    ensures RanksFollow(HandleText(c, t), actions + [Text(t)])
  {
    TextRanks(c, t);
    ActTools(c, Text(t));
    RanksAdvance(c, HandleText(c, t), actions, Text(t));
  }

  lemma ToolRanksStep(c: Conv, actions: seq<Action>, call: ToolDelta)
    requires RanksFollow(c, actions)
    ensures RanksFollow(HandleToolCall(c, call), actions + [Tool(call)])
  {
    ToolRanks(c, call);
    var more := Ranks(Content(HandleToolCall(c, call)));
    if call.index !in c.toolBlock {
      assert more[|more| - 1] == 2;
    } else {
      GrownUnsorted(Ranks(Content(c)), more, 2);
    }
    RanksAdvance(c, HandleToolCall(c, call), actions, Tool(call));
  }

  lemma ActsRanks(c: Conv, before: seq<Action>, actions: seq<Action>)
    requires Proper(actions) && RanksFollow(c, before)
    ensures RanksFollow(Acts(c, actions), before + actions)
  {
    if actions == [] {
      assert before + actions == before;
    } else {
      var n := |actions| - 1;
      assert Proper(actions[..n]) by { assert forall i :: 0 <= i < n ==> actions[..n][i] == actions[i]; }
      ActsRanks(c, before, actions[..n]);
      RanksStep(Acts(c, actions[..n]), before + actions[..n], actions[n]);
      AppendLast(before, actions);
    }
  }

  lemma BeginRanks(c: Conv, actions: seq<Action>, chunk: Chunk)
    requires RanksFollow(c, actions)
    ensures RanksFollow(BeginChunk(c, chunk), actions)
  {
    BeginContent(c, chunk);
    BeginOut(c, chunk, 0);
  }

  lemma ChunksRanks(c: Conv, chunks: seq<Chunk>)
    requires c == NewConv(c.model, c.inputEstimate) && Proper(AllActions(chunks))
    ensures RanksFollow(HandleChunks(c, chunks), AllActions(chunks))
  {
    if chunks != [] {
      var n := |chunks| - 1;
      var before, actions := AllActions(chunks[..n]), ChoicesActions(chunks[n].choices);
      ProperParts(before, actions);
      ChunksRanks(c, chunks[..n]);
      BeginRanks(HandleChunks(c, chunks[..n]), before, chunks[n]);
      ActsRanks(BeginChunk(HandleChunks(c, chunks[..n]), chunks[n]), before, actions);
    }
  }

  lemma ProperParts(before: seq<Action>, actions: seq<Action>)
    requires Proper(before + actions)
    ensures Proper(before) && Proper(actions)
  {
    var all := before + actions;
    assert forall i :: 0 <= i < |before| ==> all[i] == before[i];
    assert forall i :: 0 <= i < |actions| ==> all[|before| + i] == actions[i];
  }

  // ---- the stop reason ----

  function StopIn(actions: seq<Action>, g: Gathered): string {
    if FinishAfterTool(actions) then "tool_use" else StopReasonFromFinish(g.finish, false)
  }

  ghost predicate StopFollows(c: Conv, actions: seq<Action>) {
    var g := GatherAll(Nothing, actions);
    && (c.toolBlock != map[] <==> HasTool(actions))
    && (HasTool(actions) <==> g.calls != [])
    && c.stopSequence == g.stop
    && c.stopReason == StopIn(actions, g)
  }

  lemma HasToolSnoc(actions: seq<Action>, a: Action)
    ensures HasTool(actions + [a]) <==> HasTool(actions) || a.Tool?
    ensures FinishAfterTool(actions + [a]) <==> FinishAfterTool(actions) || (a.Finish? && HasTool(actions))
  {
    var all := actions + [a];
    assert all[|actions|] == a;
    assert forall i :: 0 <= i < |actions| ==> all[i] == actions[i];
    if HasTool(actions) {
      var i :| 0 <= i < |actions| && actions[i].Tool?;
      assert all[i].Tool?;
    }
    if FinishAfterTool(actions) {
      var i, j :| 0 <= i < j < |actions| && actions[i].Tool? && actions[j].Finish?;
      assert all[i].Tool? && all[j].Finish?;
    }
    if FinishAfterTool(all) {
      var i, j :| 0 <= i < j < |all| && all[i].Tool? && all[j].Finish?;
      assert actions[i].Tool?;
    }
  }

  lemma StopStep(c: Conv, actions: seq<Action>, a: Action)
    requires StopFollows(c, actions)
    ensures StopFollows(Act(c, a), actions + [a])
  {
    HasToolSnoc(actions, a);
    GatherAppend(Nothing, actions, [a]);
    GatherOne(GatherAll(Nothing, actions), a);
    ActTools(c, a);
    StopFields(c, a);
  }

  lemma StopFields(c: Conv, a: Action)
    ensures Act(c, a).stopSequence == if a.StopSeq? then a.sequence else c.stopSequence
    ensures Act(c, a).stopReason == if a.Finish? then StopReasonFromFinish(a.reason, c.toolBlock != map[]) else c.stopReason
  {
    if a.Replay? {
      RenderStopFields(c, Unseen(c, a.blocks));
    }
  }

  lemma RenderStopFields(c: Conv, blocks: seq<ReplayBlock>)
    ensures RenderReplay(c, blocks).stopSequence == c.stopSequence
    ensures RenderReplay(c, blocks).stopReason == c.stopReason
  {
    if blocks != [] {
      var before := blocks[..|blocks| - 1];
      RenderStopFields(c, before);
      RenderBlockStop(RenderReplay(c, before), blocks[|blocks| - 1]);
    }
  }

  lemma RenderBlockStop(c: Conv, b: ReplayBlock)
    ensures RenderReplayBlock(c, b).stopSequence == c.stopSequence
    ensures RenderReplayBlock(c, b).stopReason == c.stopReason
  {
  }

  lemma ActsStop(c: Conv, before: seq<Action>, actions: seq<Action>)
    requires StopFollows(c, before)
    ensures StopFollows(Acts(c, actions), before + actions)
  {
    if actions == [] {
      assert before + actions == before;
    } else {
      var n := |actions| - 1;
      ActsStop(c, before, actions[..n]);
      StopStep(Acts(c, actions[..n]), before + actions[..n], actions[n]);
      AppendLast(before, actions);
    }
  }

  lemma ChunksStop(c: Conv, chunks: seq<Chunk>)
    requires c == NewConv(c.model, c.inputEstimate)
    ensures StopFollows(HandleChunks(c, chunks), AllActions(chunks))
  {
    if chunks != [] {
      var n := |chunks| - 1;
      ChunksStop(c, chunks[..n]);
      var d := HandleChunks(c, chunks[..n]);
      assert StopFollows(BeginChunk(d, chunks[n]), AllActions(chunks[..n]));
      ActsStop(BeginChunk(d, chunks[n]), AllActions(chunks[..n]), ChoicesActions(chunks[n].choices));
    }
  }

  // ---- the theorem ----

  lemma FinalizeReceived(c: Conv)
    requires !c.finalized
    ensures Content(Finalize(c)) == Content(c)
    ensures (Received(Finalize(c).log).stopReason, Received(Finalize(c).log).stopSequence) == FinalStop(c)
  {
    var s := EnsureStarted(c.(finalized := true), "", "");
    StartReceived(c);
    CloseReceived(s);
    var d := CloseBlock(s);
    var stop := FinalStop(d);
    EndReceived(d.log, stop.0, stop.1, PayloadOf(d.usage));
  }

  lemma StartReceived(c: Conv)
    ensures var s := EnsureStarted(c.(finalized := true), "", "");
      Content(s) == Content(c) && FinalStop(s) == FinalStop(c)
  {
    if !c.started {
      ReceivedSnoc(c.log, EnsureStarted(c.(finalized := true), "", "").log[|c.log|]);
    }
  }

  lemma EndReceived(log: seq<Event>, reason: string, sequence: Option<string>, payload: UsagePayload)
    ensures var client := Received(log + [MessageDelta(reason, sequence, payload)] + [MessageStop]);
      client.content == Received(log).content && client.stopReason == reason && client.stopSequence == sequence
  {
    var delta := MessageDelta(reason, sequence, payload);
    ReceivedSnoc(log, delta);
    ReceivedSnoc(log + [delta], MessageStop);
  }

  function HeadContent(thinking: string, text: string): seq<ContentBlock> {
    (if thinking != "" then [ThinkingBlock(thinking)] else []) + (if text != "" then [TextBlock(text)] else [])
  }

  lemma FinishedAppend(a: seq<ClientBlock>, b: seq<ClientBlock>, compact: Compactor)
    ensures FinishedContent(a + b, compact) == FinishedContent(a, compact) + FinishedContent(b, compact)
  {
  }

  lemma FinishedTools(merged: seq<Merged>, compact: Compactor)
    ensures FinishedContent(ToolBlocks(merged), compact) == ToolPart(ToolCalls(merged), compact)
  {
  }

  lemma FinishedHead(thinking: string, text: string, compact: Compactor)
    ensures FinishedContent(HeadBlocks(thinking, text), compact) == HeadContent(thinking, text)
  {
  }

  lemma FinishedShape(thinking: string, text: string, merged: seq<Merged>, compact: Compactor)
    ensures FinishedContent(HeadBlocks(thinking, text) + ToolBlocks(merged), compact) ==
            HeadContent(thinking, text) + ToolPart(ToolCalls(merged), compact)
  {
    FinishedAppend(HeadBlocks(thinking, text), ToolBlocks(merged), compact);
    FinishedHead(thinking, text, compact);
    FinishedTools(merged, compact);
  }

  lemma OneShotSorted(reply: Reply, compact: Compactor)
    requires forall i :: 0 <= i < |reply.replay| ==> KindRank(reply.replay[i].kind) == 0
    ensures
      var content := ThinkingPart(reply) + TextPart(reply) + ToolPart(reply.toolCalls, compact);
      forall i, j :: 0 <= i < j < |content| ==> KindRank(content[i].kind) <= KindRank(content[j].kind)
  {
    SortedAppend(ThinkingPart(reply), TextPart(reply), 1);
    SortedAppend(ThinkingPart(reply) + TextPart(reply), ToolPart(reply.toolCalls, compact), 2);
  }

  // Blocks of rank k may follow blocks of rank k or less.
  lemma SortedAppend(a: seq<ContentBlock>, b: seq<ContentBlock>, k: nat)
    requires forall i, j :: 0 <= i < j < |a| ==> KindRank(a[i].kind) <= KindRank(a[j].kind)
    requires forall i :: 0 <= i < |a| ==> KindRank(a[i].kind) <= k
    requires forall i :: 0 <= i < |b| ==> KindRank(b[i].kind) == k
    ensures forall i :: 0 <= i < |a + b| ==> KindRank((a + b)[i].kind) <= k
    ensures forall i, j :: 0 <= i < j < |a + b| ==> KindRank((a + b)[i].kind) <= KindRank((a + b)[j].kind)
  {
  }

  lemma FinishedRanks(content: seq<ClientBlock>, compact: Compactor)
    ensures forall i :: 0 <= i < |content| ==>
      KindRank(FinishedContent(content, compact)[i].kind) == Ranks(content)[i]
  {
  }

  // Putting the events back together gives the content of the one-shot
  // translation exactly when reasoning, text and tool calls come in that order,
  // and its stop reason and stop sequence exactly when StopInTime holds.
  lemma StreamMatchesOneShot(
    model: string, inputEstimate: int, chunks: seq<Chunk>, id: string, usage: CoreUsage, compact: Compactor)
    requires NoReplay(AllChoices(chunks))
    ensures
      var client := Received(Convert(model, inputEstimate, chunks).log);
      var once := Translated(Some(ChatResponse(id, model, [Assembled(AllChoices(chunks))], usage)), compact);
      && (FinishedContent(client.content, compact) == once.content <==> Ordered(AllActions(chunks)))
      && ((client.stopReason, client.stopSequence) == (once.stopReason, once.stopSequence)
          <==> StopInTime(AllActions(chunks), AllChoices(chunks)))
  {
    ConvertReceived(model, inputEstimate, chunks);
    GatherChunks(chunks);
    ChunksProper(chunks);
    SameContent(model, inputEstimate, chunks, compact);
    ConvertStops(model, inputEstimate, chunks);
  }

  lemma ConvertReceived(model: string, inputEstimate: int, chunks: seq<Chunk>)
    ensures
      var client := Received(Convert(model, inputEstimate, chunks).log);
      var c := HandleChunks(NewConv(model, inputEstimate), chunks);
      client.content == Content(c) && (client.stopReason, client.stopSequence) == FinalStop(c)
  {
    ChunksKeepFinalized(NewConv(model, inputEstimate), chunks);
    FinalizeReceived(HandleChunks(NewConv(model, inputEstimate), chunks));
  }

  lemma ConvertStops(model: string, inputEstimate: int, chunks: seq<Chunk>)
    ensures
      FinalStop(HandleChunks(NewConv(model, inputEstimate), chunks)) == ReplyStop(Assembled(AllChoices(chunks)))
      <==> StopInTime(AllActions(chunks), AllChoices(chunks))
  {
    GatherChunks(chunks);
    ChunksStop(NewConv(model, inputEstimate), chunks);
    SameStop(HandleChunks(NewConv(model, inputEstimate), chunks), AllActions(chunks), AllChoices(chunks));
  }

  lemma SameContent(model: string, inputEstimate: int, chunks: seq<Chunk>, compact: Compactor)
    requires Proper(AllActions(chunks))
    requires GatherAll(Nothing, AllActions(chunks)) == Carried(AllChoices(chunks))
    ensures
      var c := HandleChunks(NewConv(model, inputEstimate), chunks);
      var reply := Assembled(AllChoices(chunks));
      FinishedContent(Content(c), compact) == ThinkingPart(reply) + TextPart(reply) + ToolPart(reply.toolCalls, compact)
      <==> Ordered(AllActions(chunks))
  {
    var choices, actions := AllChoices(chunks), AllActions(chunks);
    var c := HandleChunks(NewConv(model, inputEstimate), chunks);
    var reply := Assembled(choices);
    if Ordered(actions) {
      ChunksBuilt(NewConv(model, inputEstimate), chunks);
      FinishedShape(ReasoningText(choices), ContentText(choices), MergeCalls(Calls(choices)), compact);
      assert HeadContent(ReasoningText(choices), ContentText(choices)) == ThinkingPart(reply) + TextPart(reply);
    } else {
      ChunksRanks(NewConv(model, inputEstimate), chunks);
      OneShotSorted(reply, compact);
      FinishedRanks(Content(c), compact);
    }
  }

  lemma SameStop(c: Conv, actions: seq<Action>, choices: seq<Choice>)
    requires StopFollows(c, actions) && GatherAll(Nothing, actions) == Carried(choices)
    ensures FinalStop(c) == ReplyStop(Assembled(choices)) <==> StopInTime(actions, choices)
  {
    MergedEmpty(Calls(choices));
    if FinishAfterTool(actions) {
      var i, j :| 0 <= i < j < |actions| && actions[i].Tool? && actions[j].Finish?;
      assert HasTool(actions);
    }
  }
}
