// The shape of the event stream the converter emits: one message_start, blocks
// opened and closed in turn with indices 0, 1, 2, ..., one message_delta, one
// message_stop.

module StreamGrammar {
  import opened Prelude
  import opened StreamModel
  import opened StreamConservation

  // A reader of the event stream. tools holds the indices of tool_use blocks.
  datatype Phase =
    | Fresh
    | Streaming(open: Option<BlockKind>, next: nat, tools: set<nat>)
    | Closing
    | Stopped
    | Broken

  predicate AtOpen(p: Phase, kind: BlockKind, index: nat) {
    p.Streaming? && p.open == Some(kind) && index + 1 == p.next
  }

  function Next(p: Phase, e: Event): Phase {
    match e
    case MessageStart(_, _, _) => if p.Fresh? then Streaming(None, 0, {}) else Broken
    case BlockStart(i, b) =>
      if p.Streaming? && p.open == None && i == p.next
      then Streaming(Some(b.Kind()), i + 1, if b.ToolStart? then p.tools + {i} else p.tools)
      else Broken
    case TextDelta(i, _) => if AtOpen(p, TextKind, i) then p else Broken
    case ThinkingDelta(i, _) => if AtOpen(p, ThinkingKind, i) then p else Broken
    case SignatureDelta(i, _) => if AtOpen(p, ThinkingKind, i) then p else Broken
    case InputDelta(i, _) => if p.Streaming? && i in p.tools then p else Broken
    case BlockStop(i) =>
      if p.Streaming? && p.open.Some? && i + 1 == p.next then p.(open := None) else Broken
    case MessageDelta(_, _, _) => if p.Streaming? && p.open == None then Closing else Broken
    case MessageStop => if p.Closing? then Stopped else Broken
  }

  function Scan(log: seq<Event>): Phase {
    if log == [] then Fresh else Next(Scan(log[..|log| - 1]), log[|log| - 1])
  }

  lemma ScanSnoc(log: seq<Event>, e: Event)
    ensures Scan(log + [e]) == Next(Scan(log), e)
  {
    DropLast(log, e);
  }

  // A broken stream stays broken, so a sound stream is sound at every prefix.
  lemma PrefixSound(log: seq<Event>, n: nat)
    requires n <= |log| && Scan(log) != Broken
    ensures Scan(log[..n]) != Broken
    decreases |log|
  {
    if n == |log| {
      assert log[..n] == log;
    } else {
      assert log[..|log| - 1][..n] == log[..n];
      PrefixSound(log[..|log| - 1], n);
    }
  }

  // ---- the converter's fields always agree with what a reader has seen ----

  ghost predicate Streams(c: Conv) {
    && Scan(c.log).Streaming?
    && Scan(c.log).next == c.nextIndex
    && Scan(c.log).open == (if c.blockOpen then Some(c.blockKind) else None)
    && (c.blockOpen ==> c.curIndex + 1 == c.nextIndex)
    && (forall k :: k in c.toolBlock ==> c.toolBlock[k] in Scan(c.log).tools)
    && (forall i :: i in Scan(c.log).tools ==> i < c.nextIndex)
  }

  lemma CloseStreams(c: Conv)
    requires Streams(c)
    ensures Streams(CloseBlock(c)) && !CloseBlock(c).blockOpen
    ensures Scan(CloseBlock(c).log).tools == Scan(c.log).tools
  {
    if c.blockOpen {
      ScanSnoc(c.log, BlockStop(c.curIndex));
    }
  }

  lemma OpenStreams(c: Conv, block: StartBlock)
    requires Streams(c) && !c.blockOpen
    ensures Streams(OpenBlock(c, block)) && AtOpen(Scan(OpenBlock(c, block).log), block.Kind(), c.nextIndex)
    ensures block.ToolStart? ==> c.nextIndex in Scan(OpenBlock(c, block).log).tools
  {
    ScanSnoc(c.log, BlockStart(c.nextIndex, block));
  }

  lemma EnsureStreams(c: Conv, block: StartBlock)
    requires Streams(c)
    ensures Streams(EnsureBlock(c, block))
    ensures AtOpen(Scan(EnsureBlock(c, block).log), block.Kind(), EnsureBlock(c, block).curIndex)
  {
    if !(c.blockOpen && c.blockKind == block.Kind()) {
      CloseStreams(c);
      OpenStreams(CloseBlock(c), block);
    }
  }

  lemma RenderBlockStreams(c: Conv, b: ReplayBlock)
    requires Streams(c)
    ensures Streams(RenderReplayBlock(c, b))
  {
    if b.kind == "redacted_thinking" {
      CloseStreams(c);
      OpenStreams(CloseBlock(c), RedactedStart(b.data));
      CloseStreams(OpenBlock(CloseBlock(c), RedactedStart(b.data)));
    } else if b.signature != "" {
      EnsureStreams(c, ThinkingStart);
      var d := EnsureBlock(c, ThinkingStart);
      ScanSnoc(d.log, SignatureDelta(d.curIndex, b.signature));
      CloseStreams(Emit(d, SignatureDelta(d.curIndex, b.signature)));
    }
  }

  lemma RenderStreams(c: Conv, blocks: seq<ReplayBlock>)
    requires Streams(c)
    ensures Streams(RenderReplay(c, blocks))
  {
    if blocks != [] {
      RenderStreams(c, blocks[..|blocks| - 1]);
      RenderBlockStreams(RenderReplay(c, blocks[..|blocks| - 1]), blocks[|blocks| - 1]);
    }
  }

  lemma StartToolStreams(c: Conv, call: ToolDelta)
    requires Streams(c)
    ensures Streams(StartTool(c, call))
    ensures AtOpen(Scan(StartTool(c, call).log), ToolKind, StartTool(c, call).curIndex)
    ensures StartTool(c, call).toolBlock[call.index] == StartTool(c, call).curIndex
  {
    CloseStreams(c);
    OpenStreams(CloseBlock(c), ToolStart(call.id, call.name, call.extra));
  }

  lemma ToolStreams(c: Conv, call: ToolDelta)
    requires Streams(c)
    ensures Streams(HandleToolCall(c, call))
  {
    var d := if call.index in c.toolBlock then c else StartTool(c, call);
    if call.index !in c.toolBlock {
      StartToolStreams(c, call);
    }
    assert Streams(d) && d.toolBlock[call.index] == BlockFor(c, call);
    HandleToolForm(c, call);
    InputStreams(d, BlockFor(c, call), call.arguments);
  }

  lemma InputStreams(c: Conv, index: nat, arguments: string)
    requires Streams(c) && index in Scan(c.log).tools
    ensures Streams(Emit(c, InputDelta(index, arguments)))
    ensures Scan(Emit(c, InputDelta(index, arguments)).log) == Scan(c.log)
  {
    ScanSnoc(c.log, InputDelta(index, arguments));
  }

  lemma ActStreams(c: Conv, a: Action)
    requires Streams(c)
    ensures Streams(Act(c, a))
  {
    match a
    case Think(t) =>
      EnsureStreams(c, ThinkingStart);
      var d := EnsureBlock(c, ThinkingStart);
      ScanSnoc(d.log, ThinkingDelta(d.curIndex, t));
    case Text(t) =>
      EnsureStreams(c, TextStart);
      var d := EnsureBlock(c, TextStart);
      ScanSnoc(d.log, TextDelta(d.curIndex, t));
    case Replay(blocks) => RenderStreams(c, Unseen(c, blocks));
    case Tool(call) => ToolStreams(c, call);
    case StopSeq(_) =>
    case Finish(_) =>
  }

  lemma ActsStream(c: Conv, actions: seq<Action>)
    requires Streams(c)
    ensures Streams(Acts(c, actions))
  {
    if actions != [] {
      ActsStream(c, actions[..|actions| - 1]);
      ActStreams(Acts(c, actions[..|actions| - 1]), actions[|actions| - 1]);
    }
  }

  // ---- a run as one action sequence ----

  function AllActions(chunks: seq<Chunk>): seq<Action> {
    if chunks == [] then []
    else AllActions(chunks[..|chunks| - 1]) + ChoicesActions(chunks[|chunks| - 1].choices)
  }

  // The first chunk opens the message; later ones only record their usage.
  lemma BeginFirst(c: Conv, chunk: Chunk)
    requires !c.started && c.log == [] && !c.blockOpen && c.nextIndex == 0 && c.toolBlock == map[]
    ensures Streams(BeginChunk(c, chunk)) && BeginChunk(c, chunk).started
    ensures Scan(BeginChunk(c, chunk).log) == Streaming(None, 0, {})
  {
    ScanSnoc([], BeginChunk(c, chunk).log[0]);
  }

  lemma BeginLater(c: Conv, chunk: Chunk)
    requires c.started
    ensures BeginChunk(c, chunk) == c.(usage := BeginChunk(c, chunk).usage)
  {
  }

  lemma ActsKeepFlags(c: Conv, actions: seq<Action>)
    ensures Acts(c, actions).started == c.started
    ensures Acts(c, actions).finalized == c.finalized
  {
    if actions != [] {
      ActsKeepFlags(c, actions[..|actions| - 1]);
      ActTools(Acts(c, actions[..|actions| - 1]), actions[|actions| - 1]);
    }
  }

  lemma ChunksKeepFinalized(c: Conv, chunks: seq<Chunk>)
    ensures HandleChunks(c, chunks).finalized == c.finalized
  {
    if chunks != [] {
      ChunksKeepFinalized(c, chunks[..|chunks| - 1]);
      ActsKeepFlags(BeginChunk(HandleChunks(c, chunks[..|chunks| - 1]), chunks[|chunks| - 1]),
                    ChoicesActions(chunks[|chunks| - 1].choices));
    }
  }

  lemma ChunksStream(model: string, inputEstimate: int, chunks: seq<Chunk>)
    requires chunks != []
    ensures Streams(HandleChunks(NewConv(model, inputEstimate), chunks))
    ensures HandleChunks(NewConv(model, inputEstimate), chunks).started
  {
    var n := |chunks| - 1;
    var c := HandleChunks(NewConv(model, inputEstimate), chunks[..n]);
    if n == 0 {
      BeginFirst(c, chunks[n]);
    } else {
      ChunksStream(model, inputEstimate, chunks[..n]);
      BeginLater(c, chunks[n]);
    }
    ActsStream(BeginChunk(c, chunks[n]), ChoicesActions(chunks[n].choices));
    ActsKeepFlags(BeginChunk(c, chunks[n]), ChoicesActions(chunks[n].choices));
  }

  lemma FinalizeStops(c: Conv)
    requires c.started && !c.finalized && Streams(c)
    ensures Scan(Finalize(c).log) == Stopped
  {
    var d := CloseBlock(c.(finalized := true));
    CloseStreams(c.(finalized := true));
    var stop := FinalStop(d);
    EndStops(d.log, MessageDelta(stop.0, stop.1, PayloadOf(d.usage)));
  }

  lemma EndStops(log: seq<Event>, delta: Event)
    requires Scan(log).Streaming? && Scan(log).open == None && delta.MessageDelta?
    ensures Scan(log + [delta] + [MessageStop]) == Stopped
  {
    ScanSnoc(log, delta);
    ScanSnoc(log + [delta], MessageStop);
  }

  // Whatever the upstream sends, the complete stream is well formed, and so is
  // everything the client has seen at any moment before.
  lemma StreamWellFormed(model: string, inputEstimate: int, chunks: seq<Chunk>)
    ensures Scan(Convert(model, inputEstimate, chunks).log) == Stopped
    ensures forall n: nat :: n <= |Convert(model, inputEstimate, chunks).log| ==>
      Scan(Convert(model, inputEstimate, chunks).log[..n]) != Broken
  {
    var c := NewConv(model, inputEstimate);
    var log := Convert(model, inputEstimate, chunks).log;
    if chunks == [] {
      var d := EnsureStarted(c, "", "");
      assert d.log == [] + [d.log[0]];
      ScanSnoc([], d.log[0]);
      FinalizeStops(d);
      assert Finalize(c) == Finalize(d);
    } else {
      ChunksStream(model, inputEstimate, chunks);
      ChunksKeepFinalized(c, chunks);
      FinalizeStops(HandleChunks(c, chunks));
    }
    forall n: nat | n <= |log|
      ensures Scan(log[..n]) != Broken
    {
      PrefixSound(log, n);
    }
  }
}
