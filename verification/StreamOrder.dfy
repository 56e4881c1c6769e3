// Streams in any order, with or without replay state: the client gets the
// content of the one-shot translation exactly when the stream is in order and
// the thinking agrees.

module StreamOrder {
  import opened Prelude
  import opened StreamModel
  import opened StreamConservation
  import opened StreamGrammar
  import opened ResponseTranslation
  import opened StreamRefinement
  import opened StreamEquivalence
  import opened StreamReplay

  // The blocks so far stay, and what was out of order stays so.
  ghost predicate Extends(c: Conv, d: Conv) {
    |Content(c)| <= |Content(d)| && Ranks(Content(d))[..|Content(c)|] == Ranks(Content(c))
  }

  ghost predicate EndsIn(c: Conv, rank: nat) {
    Content(c) != [] && Ranks(Content(c))[|Content(c)| - 1] == rank
  }

  // The client holds a block for the text and one for the calls, and actions out
  // of order leave blocks out of order.
  ghost predicate Shaped(c: Conv, actions: seq<Action>) {
    var ranks, g := Ranks(Content(c)), GatherAll(Nothing, actions);
    && LastOpen(c) && c.thinkingSeen == SeenOf(actions)
    && (g.text != "" ==> 1 in ranks)
    && (g.calls != [] || c.toolBlock != map[] ==> 2 in ranks)
    && (!OrderedReplays(actions) ==> !Sorted(ranks))
  }

  lemma ExtendedRanks(ranks: seq<nat>, more: seq<nat>)
    requires |ranks| <= |more| && more[..|ranks|] == ranks
    ensures !Sorted(ranks) ==> !Sorted(more)
    ensures forall r :: r in ranks ==> r in more
  {
    assert forall i :: 0 <= i < |ranks| ==> more[i] == ranks[i];
    if !Sorted(ranks) {
      var i, j :| 0 <= i < j < |ranks| && ranks[i] > ranks[j];
      assert more[i] > more[j];
    }
  }

  // A block of lower rank after one of higher rank.
  lemma LateBlock(c: Conv, d: Conv, rank: nat, higher: nat)
    requires Extends(c, d) && EndsIn(d, rank) && higher in Ranks(Content(c)) && higher > rank
    ensures !Sorted(Ranks(Content(d)))
  {
    ExtendedRanks(Ranks(Content(c)), Ranks(Content(d)));
    LateRank(Ranks(Content(d)), rank, higher);
  }

  // What an action does to the blocks of the client.
  ghost predicate Moves(c: Conv, d: Conv, a: Action) {
    && LastOpen(d) && Extends(c, d)
    && d.thinkingSeen == (if a.Replay? && |a.blocks| > c.thinkingSeen then |a.blocks| else c.thinkingSeen)
    && (BringsThinking(c.thinkingSeen, a) ==> EndsIn(d, 0))
    && (a.Text? ==> EndsIn(d, 1))
    && (if a.Tool? then 2 in Ranks(Content(d)) else d.toolBlock == c.toolBlock)
  }

  lemma Advance(c: Conv, d: Conv, actions: seq<Action>, a: Action)
    requires Shaped(c, actions) && Moves(c, d, a)
    ensures Shaped(d, actions + [a])
  {
    GatherSnoc(actions, a);
    DropLast(actions, a);
    ExtendedRanks(Ranks(Content(c)), Ranks(Content(d)));
    if !InPlace(actions, a) {
      OutOfPlace(c, d, actions, a);
    }
  }

  lemma OutOfPlace(c: Conv, d: Conv, actions: seq<Action>, a: Action)
    requires Shaped(c, actions) && Moves(c, d, a) && !InPlace(actions, a)
    ensures !Sorted(Ranks(Content(d)))
  {
    var g := GatherAll(Nothing, actions);
    if BringsThinking(SeenOf(actions), a) && g.text != "" {
      LateBlock(c, d, 0, 1);
    } else {
      LateBlock(c, d, if a.Text? then 1 else 0, 2);
    }
  }

  // The blocks stay as they are; the open one may have been closed.
  ghost predicate SameRanks(c: Conv, d: Conv) {
    && Ranks(Content(d)) == Ranks(Content(c)) && d.nextIndex == c.nextIndex && d.toolBlock == c.toolBlock
    && (d.blockOpen ==> c.blockOpen && d.curIndex == c.curIndex && d.blockKind == c.blockKind)
  }

  lemma SameRanksStay(c: Conv, d: Conv)
    requires LastOpen(c) && SameRanks(c, d)
    ensures LastOpen(d) && Extends(c, d)
    ensures forall rank | EndsIn(c, rank) :: EndsIn(d, rank)
  {
  }

  lemma GrownExtends(c: Conv, d: Conv, rank: nat)
    requires Grows(Ranks(Content(c)), Ranks(Content(d)), rank)
    ensures Extends(c, d)
  {
  }

  // ---- replay state ----

  lemma RedactedRanks(c: Conv, b: ReplayBlock)
    requires LastOpen(c) && b.kind == "redacted_thinking"
    ensures var d := RenderReplayBlock(c, b); LastOpen(d) && Extends(c, d) && EndsIn(d, 0)
  {
    CloseReceived(c);
    OpenReceived(c, RedactedStart(b.data));
    CloseReceived(OpenBlock(CloseBlock(c), RedactedStart(b.data)));
  }

  lemma SignedRanks(c: Conv, b: ReplayBlock)
    requires LastOpen(c) && b.kind != "redacted_thinking" && b.signature != ""
    ensures var d := RenderReplayBlock(c, b); LastOpen(d) && Extends(c, d) && EndsIn(d, 0)
  {
    ThinkingRanks(c);
    var d := EnsureBlock(c, ThinkingStart);
    GrownExtends(c, d, 0);
    SignatureRanks(d, b.signature);
    var e := CloseBlock(Emit(d, SignatureDelta(d.curIndex, b.signature)));
    SameRanksStay(d, e);
    ExtendsFurther(c, d, e);
  }

  lemma SignatureRanks(c: Conv, signature: string)
    requires c.curIndex < |Content(c)|
    ensures SameRanks(c, CloseBlock(Emit(c, SignatureDelta(c.curIndex, signature))))
  {
    var e := SignatureDelta(c.curIndex, signature);
    DeltaRanks(c, e);
    CloseReceived(Emit(c, e));
  }

  lemma {:induction false} RenderRanks(c: Conv, blocks: seq<ReplayBlock>)
    requires LastOpen(c)
    ensures var d := RenderReplay(c, blocks); LastOpen(d) && Extends(c, d) && (Usable(blocks) != [] ==> EndsIn(d, 0))
  {
    if blocks != [] {
      var n := |blocks| - 1;
      var d := RenderReplay(c, blocks[..n]);
      RenderRanks(c, blocks[..n]);
      if blocks[n].kind == "redacted_thinking" {
        RedactedRanks(d, blocks[n]);
        ExtendsFurther(c, d, RenderReplayBlock(d, blocks[n]));
      } else if blocks[n].signature != "" {
        SignedRanks(d, blocks[n]);
        ExtendsFurther(c, d, RenderReplayBlock(d, blocks[n]));
      }
    }
  }

  lemma ExtendsFurther(c: Conv, d: Conv, e: Conv)
    requires Extends(c, d) && Extends(d, e)
    ensures Extends(c, e)
  {
    var n, m := |Content(c)|, |Content(d)|;
    assert Ranks(Content(e))[..m][..n] == Ranks(Content(e))[..n];
  }

  lemma ReplayMoves(c: Conv, blocks: seq<ReplayBlock>)
    requires LastOpen(c)
    ensures Moves(c, HandleReplay(c, blocks), Replay(blocks))
  {
    var d := RenderReplay(c, NewBlocks(c.thinkingSeen, blocks));
    RenderRanks(c, NewBlocks(c.thinkingSeen, blocks));
    RenderKeepsTools(c, NewBlocks(c.thinkingSeen, blocks));
    SameRanksStay(d, d.(thinkingSeen := |blocks|));
    ExtendsFurther(c, d, d.(thinkingSeen := |blocks|));
  }

  // ---- whole runs ----

  lemma ThinkMoves(c: Conv, t: string)
    requires LastOpen(c)
    ensures Moves(c, HandleThinking(c, t), Think(t))
  {
    ThinkRanks(c, t);
    GrownExtends(c, HandleThinking(c, t), 0);
    ActTools(c, Think(t));
  }

  lemma TextMoves(c: Conv, t: string)
    requires LastOpen(c)
    ensures Moves(c, HandleText(c, t), Text(t))
  {
    TextRanks(c, t);
    GrownExtends(c, HandleText(c, t), 1);
    ActTools(c, Text(t));
  }

  lemma ToolMoves(c: Conv, call: ToolDelta)
    requires LastOpen(c) && (c.toolBlock != map[] ==> 2 in Ranks(Content(c)))
    ensures Moves(c, HandleToolCall(c, call), Tool(call))
  {
    ToolRanks(c, call);
    ActTools(c, Tool(call));
    var ranks, more := Ranks(Content(c)), Ranks(Content(HandleToolCall(c, call)));
    if call.index in c.toolBlock {
      ExtendedRanks(ranks, more);
    } else {
      assert more[|more| - 1] == 2;
    }
  }

  lemma ActMoves(c: Conv, a: Action)
    requires LastOpen(c) && (c.toolBlock != map[] ==> 2 in Ranks(Content(c)))
    ensures Moves(c, Act(c, a), a)
  {
    match a
    case Think(t) => ThinkMoves(c, t);
    case Text(t) => TextMoves(c, t);
    case Replay(blocks) => ReplayMoves(c, blocks);
    case Tool(call) => ToolMoves(c, call);
    case StopSeq(_) =>
    case Finish(_) =>
  }

  lemma {:induction false} ActsShape(c: Conv, before: seq<Action>, actions: seq<Action>)
    requires Shaped(c, before)
    ensures Shaped(Acts(c, actions), before + actions)
  {
    if actions == [] {
      assert before + actions == before;
    } else {
      var n := |actions| - 1;
      ActsShape(c, before, actions[..n]);
      var d := Acts(c, actions[..n]);
      ActMoves(d, actions[n]);
      Advance(d, Act(d, actions[n]), before + actions[..n], actions[n]);
      AppendLast(before, actions);
    }
  }

  lemma BeginShape(c: Conv, actions: seq<Action>, chunk: Chunk)
    requires Shaped(c, actions)
    ensures Shaped(BeginChunk(c, chunk), actions)
  {
    BeginContent(c, chunk);
    BeginOut(c, chunk, 0);
    SameRanksStay(c, BeginChunk(c, chunk));
  }

  // Chunks out of order leave the client with blocks out of order.
  lemma {:induction false} ChunksShape(c: Conv, chunks: seq<Chunk>)
    requires c == NewConv(c.model, c.inputEstimate)
    ensures Shaped(HandleChunks(c, chunks), AllActions(chunks))
  {
    if chunks != [] {
      var n := |chunks| - 1;
      var d, before := HandleChunks(c, chunks[..n]), AllActions(chunks[..n]);
      ChunksShape(c, chunks[..n]);
      BeginShape(d, before, chunks[n]);
      ActsShape(BeginChunk(d, chunks[n]), before, ChoicesActions(chunks[n].choices));
    }
  }

  // ---- the theorem ----

  predicate ThinkingOnly(blocks: seq<ReplayBlock>) {
    forall i :: 0 <= i < |blocks| ==> blocks[i].kind == "thinking" || blocks[i].kind == "redacted_thinking"
  }

  lemma UnorderedMisses(model: string, inputEstimate: int, chunks: seq<Chunk>, compact: Compactor)
    requires ThinkingOnly(LastList(AllActions(chunks))) && !OrderedReplays(AllActions(chunks))
    ensures
      var reply := AssembledWithReplay(chunks);
      FinishedContent(Content(HandleChunks(NewConv(model, inputEstimate), chunks)), compact)
      != ThinkingPart(reply) + TextPart(reply) + ToolPart(reply.toolCalls, compact)
  {
    var c := HandleChunks(NewConv(model, inputEstimate), chunks);
    ChunksShape(NewConv(model, inputEstimate), chunks);
    OneShotSorted(AssembledWithReplay(chunks), compact);
    FinishedRanks(Content(c), compact);
  }

  // For every stream, in any order, whose last replay list holds thinking and
  // redacted blocks: the client gets the content of the one-shot translation
  // exactly when reasoning, text and tool calls come in that order and the
  // thinking it received, signed block by block, is what the translation
  // renders from the replay state.
  lemma AnyStreamMatches(
    model: string, inputEstimate: int, chunks: seq<Chunk>, id: string, usage: CoreUsage, compact: Compactor)
    requires ThinkingOnly(LastList(AllActions(chunks)))
    ensures
      var client := Received(Convert(model, inputEstimate, chunks).log);
      var reply := AssembledWithReplay(chunks);
      var once := Translated(Some(ChatResponse(id, model, [reply], usage)), compact);
      FinishedContent(client.content, compact) == once.content
      <==> OrderedReplays(AllActions(chunks)) && Closed(HeadOf(AllActions(chunks))) == ThinkingPart(reply)
  {
    if OrderedReplays(AllActions(chunks)) {
      OrderedStreamMatches(model, inputEstimate, chunks, id, usage, compact);
    } else {
      ConvertReceived(model, inputEstimate, chunks);
      UnorderedMisses(model, inputEstimate, chunks, compact);
    }
  }
}
