// The converter object of internal/anthropicapi/stream.go: every method updates
// the fields in place and is proved against its pure meaning in StreamModel.

module StreamConverting {
  import opened Prelude
  import opened StreamModel
  import StreamGrammar

  // A line of the upstream SSE body, already classified.
  datatype Line =
    | Blank                // only white space
    | Ignored              // no data: prefix, or a payload that does not parse
    | Sentinel             // data: [DONE]
    | Data(chunk: Chunk)

  datatype ReadError = NoError | EndOfFile | Failure

  // What one reader.ReadBytes call returns.
  datatype Upstream = Upstream(line: Line, error: ReadError)

  // The body has ended once the sentinel or the end of the file was read.
  predicate Terminal(u: Upstream) {
    u.line == Sentinel || u.error == EndOfFile
  }

  function ChunksOf(us: seq<Upstream>): seq<Chunk> {
    if us == [] then []
    else
      var u := us[|us| - 1];
      ChunksOf(us[..|us| - 1]) + (if u.line.Data? then [u.line.chunk] else [])
  }

  // Only the last result read may be terminal: nothing is read after it.
  ghost predicate StopsAtEnd(us: seq<Upstream>) {
    forall i :: 0 <= i < |us| - 1 ==> !Terminal(us[i])
  }

  // What the converter must have become after reading us.
  function Converted(c: Conv, us: seq<Upstream>): Conv {
    var d := HandleChunks(c, ChunksOf(us));
    if us != [] && Terminal(us[|us| - 1]) then Finalize(d) else d
  }

  lemma HandleChunksSnoc(c: Conv, chunks: seq<Chunk>, chunk: Chunk)
    ensures HandleChunks(c, chunks + [chunk]) == HandleChunk(HandleChunks(c, chunks), chunk)
  {
    assert (chunks + [chunk])[..|chunks|] == chunks;
  }

  lemma ChunksOfSnoc(us: seq<Upstream>, u: Upstream)
    ensures ChunksOf(us + [u]) == if u.line.Data? then ChunksOf(us) + [u.line.chunk] else ChunksOf(us)
  {
    assert (us + [u])[..|us|] == us;
  }

  // One more result read, from a converter that has not ended yet.
  lemma ConvertedSnoc(c: Conv, us: seq<Upstream>, u: Upstream)
    requires us == [] || !Terminal(us[|us| - 1])
    ensures Converted(c, us + [u]) == ProcessLine(Converted(c, us), u)
  {
    ChunksOfSnoc(us, u);
    assert (us + [u])[|us + [u]| - 1] == u;
    if u.line.Data? {
      HandleChunksSnoc(c, ChunksOf(us), u.line.chunk);
    }
  }

  lemma NextChoice(c: Conv, choices: seq<Choice>, i: nat)
    requires i < |choices|
    ensures Acts(c, ChoicesActions(choices[..i + 1]))
         == Acts(Acts(c, ChoicesActions(choices[..i])), ChoiceActions(choices[i]))
  {
    assert choices[..i + 1][..i] == choices[..i];
    ActsAppend(c, ChoicesActions(choices[..i]), ChoiceActions(choices[i]));
  }

  lemma CutBuffer(delivered: seq<byte>, buffer: seq<byte>, n: nat)
    requires n <= |buffer|
    ensures delivered + buffer[..n] + buffer[n..] == delivered + buffer
  {
    assert buffer == buffer[..n] + buffer[n..];
  }

  function StopDelta(c: Conv): Event {
    MessageDelta(FinalStop(c).0, FinalStop(c).1, PayloadOf(c.usage))
  }

  // The bytes of an event sequence on the wire.
  function Wire(render: Event -> seq<byte>, log: seq<Event>): seq<byte> {
    if log == [] then [] else Wire(render, log[..|log| - 1]) + render(log[|log| - 1])
  }

  function ProcessLine(c: Conv, u: Upstream): Conv {
    var d := if u.line.Data? then HandleChunk(c, u.line.chunk) else c;
    if Terminal(u) then Finalize(d) else d
  }

  lemma ProcessedIsConverted(c0: Conv, us: seq<Upstream>, u: Upstream, c: Conv, d: Conv)
    requires us == [] || !Terminal(us[|us| - 1])
    requires !c0.finalized && c == Converted(c0, us) && d == ProcessLine(c, u)
    ensures d == Converted(c0, us + [u]) && (d.finalized <==> Terminal(u))
  {
    ConvertedSnoc(c0, us, u);
    StreamGrammar.ChunksKeepFinalized(c0, ChunksOf(us + [u]));
  }

  // Every event has a wire form: at least its "event: " line.
  ghost predicate RendersAll(render: Event -> seq<byte>) {
    forall e: Event :: render(e) != []
  }

  class StreamConverter {
    const render: Event -> seq<byte>
    const upstream: seq<Upstream>
    const model: string
    const inputEstimate: int
    var position: nat
    var buffer: seq<byte>
    var started: bool
    var blockOpen: bool
    var blockKind: BlockKind
    var curIndex: nat
    var nextIndex: nat
    var toolBlock: map<int, nat>
    var stopReason: string
    var stopSequence: string
    var thinkingSeen: nat
    var usage: ChatUsage
    var finalized: bool
    var closed: bool
    // Everything emitted, every byte already handed to the client, and every
    // ReadBytes result processed.
    ghost var log: seq<Event>
    ghost var delivered: seq<byte>
    ghost var history: seq<Upstream>

    ghost function View(): Conv
      reads this`started, this`blockOpen, this`blockKind, this`curIndex, this`nextIndex, this`toolBlock, this`stopReason,
        this`stopSequence, this`thinkingSeen, this`usage, this`finalized, this`log
    {
      Conv(model, inputEstimate, started, blockOpen, blockKind, curIndex, nextIndex, toolBlock,
           stopReason, stopSequence, thinkingSeen, usage, finalized, log)
    }

    // The buffer is a FIFO between what was emitted and what was delivered.
    ghost predicate Fifo()
      reads this`buffer, this`delivered, this`log
    {
      delivered + buffer == Wire(render, log)
    }

    // The body answers end of file again once everything in it was read.
    ghost predicate Historic()
      reads this`position, this`history
    {
      && position <= |upstream|
      && (history == upstream[..position]
          || (position == |upstream| && history == upstream + [Upstream(Blank, EndOfFile)]))
      && StopsAtEnd(history)
    }

    ghost predicate Faithful()
      reads this`started, this`blockOpen, this`blockKind, this`curIndex, this`nextIndex, this`toolBlock, this`stopReason,
        this`stopSequence, this`thinkingSeen, this`usage, this`finalized, this`log, this`history
    {
      && View() == Converted(NewConv(model, inputEstimate), history)
      && (finalized <==> history != [] && Terminal(history[|history| - 1]))
    }

    ghost predicate Valid()
      reads this
    {
      && RendersAll(render)
      && (if closed then buffer == [] && delivered <= Wire(render, log) else Fifo())
      && Historic()
      && Faithful()
    }

    constructor (render: Event -> seq<byte>, upstream: seq<Upstream>, model: string, inputEstimate: int)
      requires RendersAll(render)
      ensures Valid()
      ensures this.render == render && this.upstream == upstream
      ensures this.model == model && this.inputEstimate == inputEstimate
      ensures history == [] && delivered == [] && buffer == [] && !closed
      ensures View() == NewConv(model, inputEstimate)
    {
      this.render, this.upstream, this.model, this.inputEstimate := render, upstream, model, inputEstimate;
      position, buffer, closed := 0, [], false;
      started, blockOpen, blockKind, curIndex, nextIndex := false, false, TextKind, 0, 0;
      toolBlock, stopReason, stopSequence, thinkingSeen := map[], "", "", 0;
      usage, finalized := NoUsage, false;
      log, delivered, history := [], [], [];
    }

    method EmitEvent(e: Event)
      requires Fifo()
      modifies this`buffer, this`log
      ensures Fifo() && View() == Emit(old(View()), e)
    {
      buffer := buffer + render(e);
      log := log + [e];
      assert log[..|log| - 1] == old(log);
    }

    method EnsureStartedNow(id: string, model: string)
      requires Fifo()
      modifies this`buffer, this`log, this`started
      ensures Fifo() && View() == EnsureStarted(old(View()), id, model)
    {
      if started { return; }
      started := true;
      var msgId := NormalizeMessageId(id);
      if msgId == "" { msgId := "msg_stream"; }
      var name := model;
      if name == "" { name := this.model; }
      EmitEvent(MessageStart(msgId, name, inputEstimate));
    }

    method Close()
      requires Fifo()
      modifies this`buffer, this`log, this`blockOpen
      ensures Fifo() && View() == CloseBlock(old(View()))
    {
      if !blockOpen { return; }
      blockOpen := false;
      EmitEvent(BlockStop(curIndex));
    }

    method Open(block: StartBlock)
      requires Fifo()
      modifies this`buffer, this`log, this`blockOpen, this`blockKind, this`curIndex, this`nextIndex
      ensures Fifo() && View() == OpenBlock(old(View()), block)
    {
      curIndex := nextIndex;
      nextIndex := nextIndex + 1;
      blockOpen := true;
      blockKind := block.Kind();
      assert Fifo();
      assert View() == old(View()).(curIndex := curIndex, nextIndex := nextIndex, blockOpen := true, blockKind := blockKind);
      EmitEvent(BlockStart(curIndex, block));
    }

    method Ensure(block: StartBlock)
      requires Fifo()
      modifies this`buffer, this`log, this`blockOpen, this`blockKind, this`curIndex, this`nextIndex
      ensures Fifo() && View() == EnsureBlock(old(View()), block)
    {
      if blockOpen && blockKind == block.Kind() { return; }
      Close();
      Open(block);
    }

    method RenderBlock(block: ReplayBlock)
      requires Fifo()
      modifies this`buffer, this`log, this`blockOpen, this`blockKind, this`curIndex, this`nextIndex
      ensures Fifo() && View() == RenderReplayBlock(old(View()), block)
    {
      if block.kind == "redacted_thinking" {
        Close();
        Open(RedactedStart(block.data));
        Close();
      } else if block.signature != "" {
        Ensure(ThinkingStart);
        EmitEvent(SignatureDelta(curIndex, block.signature));
        Close();
      }
    }

    method HandleThinkingReplay(blocks: seq<ReplayBlock>)
      requires Fifo()
      modifies this`buffer, this`log, this`blockOpen, this`blockKind, this`curIndex, this`nextIndex, this`thinkingSeen
      ensures Fifo() && View() == HandleReplay(old(View()), blocks)
    {
      if |blocks| <= thinkingSeen { return; }
      var unseen := blocks[thinkingSeen..];
      for i := 0 to |unseen|
        invariant Fifo() && thinkingSeen == old(thinkingSeen)
        invariant View() == RenderReplay(old(View()), unseen[..i])
      {
        assert unseen[..i + 1][..i] == unseen[..i];
        RenderBlock(unseen[i]);
      }
      assert unseen[..|unseen|] == unseen;
      thinkingSeen := |blocks|;
    }

    method HandleTool(call: ToolDelta)
      requires Fifo()
      modifies this`buffer, this`log, this`blockOpen, this`blockKind, this`curIndex, this`nextIndex, this`toolBlock
      ensures Fifo() && View() == HandleToolCall(old(View()), call)
    {
      var index: nat;
      if call.index in toolBlock {
        index := toolBlock[call.index];
      } else {
        Close();
        Open(ToolStart(call.id, call.name, call.extra));
        toolBlock := toolBlock[call.index := curIndex];
        index := curIndex;
      }
      if call.arguments == "" { return; }
      EmitEvent(InputDelta(index, call.arguments));
    }

    method HandleThinkingDelta(thinking: string)
      requires Fifo()
      modifies this`buffer, this`log, this`blockOpen, this`blockKind, this`curIndex, this`nextIndex
      ensures Fifo() && View() == HandleThinking(old(View()), thinking)
    {
      Ensure(ThinkingStart);
      EmitEvent(ThinkingDelta(curIndex, thinking));
    }

    method HandleTextDelta(text: string)
      requires Fifo()
      modifies this`buffer, this`log, this`blockOpen, this`blockKind, this`curIndex, this`nextIndex
      ensures Fifo() && View() == HandleText(old(View()), text)
    {
      Ensure(TextStart);
      EmitEvent(TextDelta(curIndex, text));
    }

    method HandleToolCalls(calls: seq<ToolDelta>)
      requires Fifo()
      modifies this`buffer, this`log, this`blockOpen, this`blockKind, this`curIndex, this`nextIndex, this`toolBlock
      ensures Fifo() && View() == Acts(old(View()), ToolActions(calls))
    {
      ghost var before := View();
      ghost var actions := ToolActions(calls);
      assert actions[..0] == [];
      for i := 0 to |calls|
        invariant Fifo() && View() == Acts(before, actions[..i])
      {
        HandleTool(calls[i]);
        ActsSnoc(before, actions[..i], actions[i]);
        assert actions[..i + 1] == actions[..i] + [actions[i]];
      }
      assert actions[..|calls|] == actions;
    }

    method HandleStop(sequence: string, reason: string)
      modifies this`stopReason, this`stopSequence
      ensures View() == Acts(old(View()), StopActions(sequence, reason))
    {
      ghost var before := View();
      if sequence != "" {
        stopSequence := sequence;
      }
      ghost var first := if sequence != "" then [StopSeq(sequence)] else [];
      ActsSnoc(before, [], StopSeq(sequence));
      assert [] + [StopSeq(sequence)] == [StopSeq(sequence)];
      assert View() == Acts(before, first);
      if reason != "" {
        stopReason := StopReasonFromFinish(reason, |toolBlock| > 0);
        ActsSnoc(before, first, Finish(reason));
      } else {
        assert first + [] == first;
      }
    }

    // handleChunk's body for one choice.
    method HandleChoice(choice: Choice)
      requires Fifo()
      modifies this`buffer, this`log, this`blockOpen, this`blockKind, this`curIndex, this`nextIndex, this`toolBlock,
               this`thinkingSeen, this`stopReason, this`stopSequence
      ensures Fifo() && View() == Acts(old(View()), ChoiceActions(choice))
    {
      ghost var before := View();
      var d := choice.delta;
      ChoiceActionsSplit(before, choice);
      if Reasoning(d) != "" {
        HandleThinkingDelta(Reasoning(d));
      }
      if d.replay.Some? {
        HandleThinkingReplay(d.replay.value);
      }
      if d.content != "" {
        HandleTextDelta(d.content);
      }
      assert View() == DeltaHead(before, d);
      HandleToolCalls(d.toolCalls);
      HandleStop(d.stopSequence, choice.finishReason);
    }

    method HandleOneChunk(chunk: Chunk)
      requires Fifo()
      modifies this`buffer, this`log, this`started, this`blockOpen, this`blockKind, this`curIndex, this`nextIndex,
               this`toolBlock, this`thinkingSeen, this`stopReason, this`stopSequence, this`usage
      ensures Fifo() && View() == HandleChunk(old(View()), chunk)
    {
      BeginNow(chunk);
      HandleChoices(chunk.choices);
    }

    // The start, and the usage.
    method BeginNow(chunk: Chunk)
      requires Fifo()
      modifies this`buffer, this`log, this`started, this`usage
      ensures Fifo() && View() == BeginChunk(old(View()), chunk)
    {
      EnsureStartedNow(chunk.id, chunk.model);
      if chunk.usage.Some? {
        usage := chunk.usage.value;
      }
    }

    method HandleChoices(choices: seq<Choice>)
      requires Fifo()
      modifies this`buffer, this`log, this`blockOpen, this`blockKind, this`curIndex, this`nextIndex, this`toolBlock,
               this`thinkingSeen, this`stopReason, this`stopSequence
      ensures Fifo() && View() == Acts(old(View()), ChoicesActions(choices))
    {
      ghost var begun := View();
      for i := 0 to |choices|
        invariant Fifo() && View() == Acts(begun, ChoicesActions(choices[..i]))
      {
        HandleChoice(choices[i]);
        NextChoice(begun, choices, i);
      }
      assert choices[..|choices|] == choices;
    }

    method FinalizeNow()
      requires Fifo()
      modifies this`buffer, this`log, this`started, this`blockOpen, this`finalized
      ensures Fifo() && View() == Finalize(old(View()))
    {
      if finalized { return; }
      ghost var before := View();
      finalized := true;
      EnsureStartedNow("", "");
      Close();
      ghost var ended := View();
      assert ended == CloseBlock(EnsureStarted(before.(finalized := true), "", ""));
      EndMessage();
    }

    // The closing events.
    method EndMessage()
      requires Fifo()
      modifies this`buffer, this`log
      ensures Fifo() && View() == Emit(Emit(old(View()), StopDelta(old(View()))), MessageStop)
    {
      ghost var ended := View();
      var reason := stopReason;
      if reason == "" { reason := "end_turn"; }
      var sequence: Option<string> := None;
      if stopSequence != "" && reason == "end_turn" {
        reason := "stop_sequence";
        sequence := Some(stopSequence);
      }
      assert MessageDelta(reason, sequence, PayloadOf(usage)) == StopDelta(ended);
      EmitEvent(MessageDelta(reason, sequence, PayloadOf(usage)));
      EmitEvent(MessageStop);
    }

    // One reader.ReadBytes call.
    method ReadLine() returns (u: Upstream)
      requires Historic() && (history != [] ==> !Terminal(history[|history| - 1]))
      modifies this`position, this`history
      ensures Historic() && history == old(history) + [u]
      ensures old(position) < |upstream| ==> position == old(position) + 1
      ensures old(position) == |upstream| ==> u.error == EndOfFile
      ensures View() == old(View())
    {
      if position < |upstream| {
        u := upstream[position];
        position := position + 1;
      } else {
        u := Upstream(Blank, EndOfFile);
      }
      history := history + [u];
    }

    // consumeLine, and the finalize calls Read makes for the line.
    method Process(u: Upstream)
      requires Fifo() && !finalized
      modifies this`buffer, this`log, this`started, this`blockOpen, this`blockKind, this`curIndex, this`nextIndex,
               this`toolBlock, this`thinkingSeen, this`stopReason, this`stopSequence, this`usage, this`finalized
      ensures Fifo() && View() == ProcessLine(old(View()), u)
    {
      if u.line.Data? {
        HandleOneChunk(u.line.chunk);
      }
      if u.line == Sentinel {
        FinalizeNow();
      }
      if u.error == EndOfFile {
        FinalizeNow();
      }
    }

    // The line just read joins the history.
    method Absorb(ghost before: seq<Upstream>, u: Upstream)
      requires Fifo() && !finalized && history == before + [u]
      requires before != [] ==> !Terminal(before[|before| - 1])
      requires View() == Converted(NewConv(model, inputEstimate), before)
      modifies this`buffer, this`log, this`started, this`blockOpen, this`blockKind, this`curIndex, this`nextIndex,
               this`toolBlock, this`thinkingSeen, this`stopReason, this`stopSequence, this`usage, this`finalized
      ensures Fifo() && Faithful()
    {
      ghost var c := View();
      Process(u);
      ProcessedIsConverted(NewConv(model, inputEstimate), before, u, c, View());
    }

    method Drain(capacity: nat) returns (data: seq<byte>)
      requires Fifo() && Historic() && Faithful()
      modifies this`buffer, this`delivered
      ensures Fifo()
      ensures Historic()
      ensures Faithful()
      ensures delivered == old(delivered) + data && |data| <= capacity
      ensures capacity > 0 && old(buffer) != [] ==> data != []
    {
      var n := if capacity < |buffer| then capacity else |buffer|;
      data := buffer[..n];
      CutBuffer(delivered, buffer, n);
      buffer := buffer[n..];
      delivered := delivered + data;
      assert View() == old(View());
    }

    // One turn of the loop in Read.
    method Advance() returns (u: Upstream)
      requires Valid() && !finalized && !closed
      modifies this`position, this`history, this`buffer, this`log, this`started, this`blockOpen, this`blockKind,
               this`curIndex, this`nextIndex, this`toolBlock, this`thinkingSeen, this`stopReason, this`stopSequence,
               this`usage, this`finalized
      ensures Fifo()
      ensures Historic()
      ensures Faithful()
      ensures history == old(history) + [u]
      ensures position > old(position) || u.error == EndOfFile
    {
      ghost var before := history;
      u := ReadLine();
      Absorb(before, u);
    }

    lemma DrainedIsComplete()
      requires Valid() && finalized && !closed && buffer == []
      ensures StopsAtEnd(history)
      ensures delivered == Wire(render, Convert(model, inputEstimate, ChunksOf(history)).log)
    {
      assert View().log == Convert(model, inputEstimate, ChunksOf(history)).log;
    }

    // Copies buffered bytes to the client.
    method Deliver(capacity: nat) returns (data: seq<byte>)
      requires Valid() && !closed
      modifies this`buffer, this`delivered
      ensures Valid()
      ensures delivered == old(delivered) + data && |data| <= capacity
      ensures capacity > 0 && old(buffer) != [] ==> data != []
    {
      data := Drain(capacity);
    }

    // The loop of Read: lines are processed until there is something to deliver
    // or nothing more to come.
    method Fill() returns (error: ReadError)
      requires Valid() && !finalized && !closed && buffer == []
      modifies this
      ensures Valid() && !closed && delivered == old(delivered)
      ensures error == NoError ==> buffer != []
      ensures error == EndOfFile ==> finalized && buffer == []
    {
      while true
        invariant Valid() && !finalized && !closed && buffer == [] && delivered == old(delivered)
        decreases |upstream| - position
      {
        var u := Advance();
        if u.error == EndOfFile {
          return if |buffer| > 0 then NoError else EndOfFile;
        }
        if u.error == Failure {
          return Failure;
        }
        if |buffer| > 0 {
          return NoError;
        }
        if finalized {
          return EndOfFile;
        }
      }
    }

    // Reading hands the client the wire form of the conversion, in order and
    // without gaps; end of file is reported only once all of it was handed out.
    method Read(capacity: nat) returns (data: seq<byte>, error: ReadError)
      requires Valid()
      modifies this
      ensures Valid() && closed == old(closed)
      ensures delivered == old(delivered) + data && |data| <= capacity
      ensures error != NoError ==> data == []
      ensures error == NoError && capacity > 0 ==> data != []
      ensures error == EndOfFile && !closed ==>
        StopsAtEnd(history) && delivered == Wire(render, Convert(model, inputEstimate, ChunksOf(history)).log)
      ensures old(finalized) ==> history == old(history)
    {
      if |buffer| > 0 {
        data := Deliver(capacity);
        return data, NoError;
      }
      if finalized || closed {
        if !closed { DrainedIsComplete(); }
        return [], EndOfFile;
      }
      error := Fill();
      match error {
        case NoError =>
          data := Deliver(capacity);
        case EndOfFile =>
          DrainedIsComplete();
          data := [];
        case Failure =>
          data := [];
      }
    }

    // bodyFails: closing the upstream body returns an error; it is closed once.
    method CloseBody(bodyFails: bool) returns (failed: bool)
      requires Valid()
      modifies this`closed, this`buffer
      ensures Valid() && closed && View() == old(View()) && delivered == old(delivered)
      ensures failed <==> bodyFails && !old(closed)
      ensures buffer == if old(closed) then old(buffer) else []
    {
      if closed { return false; }
      closed := true;
      buffer := [];
      return bodyFails;
    }
  }
}
