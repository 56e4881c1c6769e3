// Where the argument deltas of tool calls go. The converter sends each to the
// block recorded for its call, even when that block is no longer open; this
// module says exactly for which streams every delta meets an open block.

module StreamInterleaving {
  import opened Prelude
  import opened StreamModel
  import opened StreamConservation
  import opened StreamGrammar

  // Every input delta is for the tool_use block that is open when it arrives.
  predicate OnOpenBlock(log: seq<Event>) {
    log == [] ||
    (var prefix, e := log[..|log| - 1], log[|log| - 1];
     OnOpenBlock(prefix) && (e.InputDelta? ==> AtOpen(Scan(prefix), ToolKind, e.index)))
  }

  // ---- the condition, on what the upstream sends ----

  predicate FirstUse(actions: seq<Action>, m: nat)
    requires m < |actions|
  {
    && actions[m].Tool?
    && (forall i :: 0 <= i < m && actions[i].Tool? ==> actions[i].call.index != actions[m].call.index)
  }

  function MaxReplay(actions: seq<Action>): nat {
    if actions == [] then 0
    else
      var before := MaxReplay(actions[..|actions| - 1]);
      var a := actions[|actions| - 1];
      if a.Replay? && |a.blocks| > before then |a.blocks| else before
  }

  // Replay blocks not seen before that a client has a use for.
  predicate NewReplay(actions: seq<Action>, m: nat)
    requires m < |actions| && actions[m].Replay?
  {
    var seen := MaxReplay(actions[..m]);
    |actions[m].blocks| > seen && Usable(actions[m].blocks[seen..]) != []
  }

  // The actions that open a block of their own.
  predicate Opens(actions: seq<Action>, m: nat)
    requires m < |actions|
  {
    match actions[m]
    case Think(_) => true
    case Text(_) => true
    case Tool(_) => FirstUse(actions, m)
    case Replay(_) => NewReplay(actions, m)
    case StopSeq(_) => false
    case Finish(_) => false
  }

  predicate SameCall(actions: seq<Action>, i: nat, j: nat)
    requires i < |actions| && j < |actions|
  {
    actions[i].Tool? && actions[j].Tool? && actions[i].call.index == actions[j].call.index
  }

  predicate Quiet(actions: seq<Action>, i: nat, j: nat)
    requires j <= |actions|
  {
    forall m :: i < m < j ==> !Opens(actions, m)
  }

  // Between two deltas of one call, the second of them with arguments, nothing
  // opens another block.
  predicate Contiguous(actions: seq<Action>) {
    forall i, j :: 0 <= i < j < |actions| && SameCall(actions, i, j) && actions[j].call.arguments != "" ==>
      Quiet(actions, i, j)
  }

  // ---- the same, followed step by step ----

  // The call whose block was the last to be opened and is still open.
  function Current(actions: seq<Action>): Option<int> {
    if actions == [] then None
    else
      var n := |actions| - 1;
      if !Opens(actions, n) then Current(actions[..n])
      else if actions[n].Tool? then Some(actions[n].call.index)
      else None
  }

  predicate Uninterrupted(actions: seq<Action>) {
    actions == [] ||
    (var n := |actions| - 1;
     && Uninterrupted(actions[..n])
     && (actions[n].Tool? && actions[n].call.arguments != "" ==> Current(actions) == Some(actions[n].call.index)))
  }

  lemma OpensPrefix(actions: seq<Action>, n: nat, m: nat)
    requires m < n <= |actions|
    ensures Opens(actions[..n], m) == Opens(actions, m)
  {
    assert actions[..n][..m] == actions[..m];
    assert actions[..n][m] == actions[m];
    if actions[m].Tool? {
      assert forall i :: 0 <= i < m ==> actions[..n][i] == actions[i];
    }
  }

  lemma FirstUseExists(actions: seq<Action>, j: nat) returns (i: nat)
    requires j < |actions| && actions[j].Tool?
    ensures i <= j && FirstUse(actions, i) && SameCall(actions, i, j)
  {
    if FirstUse(actions, j) {
      i := j;
    } else {
      var k: nat :| k < j && actions[k].Tool? && actions[k].call.index == actions[j].call.index;
      i := FirstUseExists(actions, k);
    }
  }

  // Current names the call whose first delta was followed by nothing that opens.
  lemma CurrentIs(actions: seq<Action>, i: nat)
    requires i < |actions| && FirstUse(actions, i)
    ensures Current(actions) == Some(actions[i].call.index) <==> Quiet(actions, i, |actions|)
  {
    var n := |actions| - 1;
    if i == n {
    } else {
      OpensPrefix(actions, n, i);
      CurrentIs(actions[..n], i);
      forall m | i < m < n
        ensures Opens(actions[..n], m) == Opens(actions, m)
      {
        OpensPrefix(actions, n, m);
      }
      assert Quiet(actions[..n], i, n) <==> forall m :: i < m < n ==> !Opens(actions, m);
      if Opens(actions, n) {
        assert !Quiet(actions, i, |actions|);
        if actions[n].Tool? {
          assert actions[i].Tool? && actions[i].call.index != actions[n].call.index;
        }
      } else {
        assert Quiet(actions, i, |actions|) <==> Quiet(actions[..n], i, n);
      }
    }
  }

  lemma ContiguousPrefix(actions: seq<Action>)
    requires actions != []
    ensures Contiguous(actions) <==>
      (var n := |actions| - 1;
       Contiguous(actions[..n]) &&
       (actions[n].Tool? && actions[n].call.arguments != "" ==>
         forall i :: 0 <= i < n && SameCall(actions, i, n) ==> Quiet(actions, i, n)))
  {
    var n := |actions| - 1;
    var prefix := actions[..n];
    forall i, j | 0 <= i < j < n
      ensures SameCall(prefix, i, j) == SameCall(actions, i, j)
      ensures Quiet(prefix, i, j) == Quiet(actions, i, j)
    {
      forall m | i < m < j
        ensures Opens(prefix, m) == Opens(actions, m)
      {
        OpensPrefix(actions, n, m);
      }
    }
  }

  // The last delta of a call keeps to an open block exactly when it does so
  // with respect to the call's first delta.
  lemma LastDelta(actions: seq<Action>)
    requires actions != [] && actions[|actions| - 1].Tool?
    ensures
      var n := |actions| - 1;
      Current(actions) == Some(actions[n].call.index) <==>
      forall i :: 0 <= i < n && SameCall(actions, i, n) ==> Quiet(actions, i, n)
  {
    var n := |actions| - 1;
    var first := FirstUseExists(actions, n);
    CurrentIs(actions, first);
    if first < n {
      assert !FirstUse(actions, n) by {
        assert SameCall(actions, first, n);
      }
      assert !Opens(actions, n);
      assert Quiet(actions, first, |actions|) <==> Quiet(actions, first, n);
      forall i | 0 <= i < n && SameCall(actions, i, n) && Quiet(actions, first, n)
        ensures Quiet(actions, i, n)
      {
        assert first <= i;
      }
    } else {
      assert forall i :: 0 <= i < n ==> !SameCall(actions, i, n);
    }
  }

  lemma UninterruptedIsContiguous(actions: seq<Action>)
    ensures Uninterrupted(actions) <==> Contiguous(actions)
  {
    if actions != [] {
      UninterruptedIsContiguous(actions[..|actions| - 1]);
      ContiguousPrefix(actions);
      if actions[|actions| - 1].Tool? {
        LastDelta(actions);
      }
    }
  }

  // ---- the converter follows Current ----

  function ToolIndices(actions: seq<Action>): set<int> {
    if actions == [] then {}
    else
      var a := actions[|actions| - 1];
      ToolIndices(actions[..|actions| - 1]) + (if a.Tool? then {a.call.index} else {})
  }

  lemma ToolIndicesIn(actions: seq<Action>, k: int)
    ensures k in ToolIndices(actions) <==> exists i :: 0 <= i < |actions| && actions[i].Tool? && actions[i].call.index == k
  {
    if actions != [] {
      var n := |actions| - 1;
      ToolIndicesIn(actions[..n], k);
      if k in ToolIndices(actions[..n]) {
        var i :| 0 <= i < n && actions[..n][i].Tool? && actions[..n][i].call.index == k;
        assert actions[i].Tool? && actions[i].call.index == k;
      }
      if i :| 0 <= i < |actions| && actions[i].Tool? && actions[i].call.index == k {
        assert i < n ==> actions[..n][i] == actions[i];
      }
    }
  }

  ghost predicate CurrentHolds(c: Conv, current: Option<int>) {
    match current
    case None => !(c.blockOpen && c.blockKind == ToolKind)
    case Some(k) => c.blockOpen && c.blockKind == ToolKind && k in c.toolBlock && c.toolBlock[k] == c.curIndex
  }

  ghost predicate Tracks(c: Conv, actions: seq<Action>) {
    && c.started && Streams(c)
    && ToolsSound(c)
    && c.thinkingSeen == MaxReplay(actions)
    && c.toolBlock.Keys == ToolIndices(actions)
    && CurrentHolds(c, Current(actions))
    && (OnOpenBlock(c.log) <==> Uninterrupted(actions))
  }

  lemma OnOpenSnoc(log: seq<Event>, e: Event)
    ensures OnOpenBlock(log + [e]) <==>
            OnOpenBlock(log) && (e.InputDelta? ==> AtOpen(Scan(log), ToolKind, e.index))
  {
    DropLast(log, e);
  }

  lemma CloseOnOpen(c: Conv)
    ensures OnOpenBlock(CloseBlock(c).log) == OnOpenBlock(c.log)
  {
    OnOpenSnoc(c.log, BlockStop(c.curIndex));
  }

  lemma OpenOnOpen(c: Conv, block: StartBlock)
    ensures OnOpenBlock(OpenBlock(c, block).log) == OnOpenBlock(c.log)
  {
    OnOpenSnoc(c.log, BlockStart(c.nextIndex, block));
  }

  lemma EnsureOnOpen(c: Conv, block: StartBlock)
    ensures OnOpenBlock(EnsureBlock(c, block).log) == OnOpenBlock(c.log)
  {
    CloseOnOpen(c);
    OpenOnOpen(CloseBlock(c), block);
  }

  lemma RenderBlockOnOpen(c: Conv, b: ReplayBlock)
    ensures OnOpenBlock(RenderReplayBlock(c, b).log) == OnOpenBlock(c.log)
    ensures RenderedBlock(b) != [] ==> !RenderReplayBlock(c, b).blockOpen
    ensures RenderedBlock(b) == [] ==> RenderReplayBlock(c, b) == c
  {
    if b.kind == "redacted_thinking" {
      CloseOnOpen(c);
      OpenOnOpen(CloseBlock(c), RedactedStart(b.data));
      CloseOnOpen(OpenBlock(CloseBlock(c), RedactedStart(b.data)));
    } else if b.signature != "" {
      EnsureOnOpen(c, ThinkingStart);
      var d := EnsureBlock(c, ThinkingStart);
      OnOpenSnoc(d.log, SignatureDelta(d.curIndex, b.signature));
      CloseOnOpen(Emit(d, SignatureDelta(d.curIndex, b.signature)));
    }
  }

  lemma RenderOnOpen(c: Conv, blocks: seq<ReplayBlock>)
    ensures OnOpenBlock(RenderReplay(c, blocks).log) == OnOpenBlock(c.log)
    ensures Usable(blocks) != [] ==> !RenderReplay(c, blocks).blockOpen
    ensures Usable(blocks) == [] ==> RenderReplay(c, blocks) == c
  {
    if blocks != [] {
      RenderOnOpen(c, blocks[..|blocks| - 1]);
      RenderBlockOnOpen(RenderReplay(c, blocks[..|blocks| - 1]), blocks[|blocks| - 1]);
    }
  }

  // What an action that is not a tool call does to the open block.
  lemma OtherTracks(c: Conv, actions: seq<Action>, a: Action)
    requires Tracks(c, actions) && !a.Tool?
    ensures CurrentHolds(Act(c, a), Current(actions + [a]))
    ensures OnOpenBlock(Act(c, a).log) == OnOpenBlock(c.log)
  {
    DropLast(actions, a);
    match a
    case Think(t) =>
      EnsureOnOpen(c, ThinkingStart);
      var d := EnsureBlock(c, ThinkingStart);
      OnOpenSnoc(d.log, ThinkingDelta(d.curIndex, t));
    case Text(t) =>
      EnsureOnOpen(c, TextStart);
      var d := EnsureBlock(c, TextStart);
      OnOpenSnoc(d.log, TextDelta(d.curIndex, t));
    case Replay(blocks) =>
      RenderOnOpen(c, Unseen(c, blocks));
      assert NewReplay(actions + [a], |actions|) <==> Usable(Unseen(c, blocks)) != [];
    case StopSeq(_) =>
    case Finish(_) =>
  }

  lemma FirstUseIsNew(actions: seq<Action>, call: ToolDelta)
    ensures FirstUse(actions + [Tool(call)], |actions|) <==> call.index !in ToolIndices(actions)
  {
    var all := actions + [Tool(call)];
    ToolIndicesIn(actions, call.index);
    assert forall i :: 0 <= i < |actions| ==> all[i] == actions[i];
  }

  lemma StartToolOnOpen(c: Conv, call: ToolDelta)
    ensures OnOpenBlock(StartTool(c, call).log) == OnOpenBlock(c.log)
  {
    CloseOnOpen(c);
    OpenOnOpen(CloseBlock(c), ToolStart(call.id, call.name, call.extra));
  }

  // The block a delta goes to, once it is known to exist.
  lemma DeltaTracks(d: Conv, current: Option<int>, call: ToolDelta)
    requires Streams(d) && Injective(d.toolBlock) && call.index in d.toolBlock && CurrentHolds(d, current)
    ensures OnOpenBlock(Emit(d, InputDelta(d.toolBlock[call.index], call.arguments)).log) <==>
            OnOpenBlock(d.log) && current == Some(call.index)
  {
    OnOpenSnoc(d.log, InputDelta(d.toolBlock[call.index], call.arguments));
  }

  lemma ToolTracks(c: Conv, actions: seq<Action>, call: ToolDelta)
    requires Tracks(c, actions)
    ensures CurrentHolds(HandleToolCall(c, call), Current(actions + [Tool(call)]))
    ensures OnOpenBlock(HandleToolCall(c, call).log) <==>
            OnOpenBlock(c.log) && (call.arguments != "" ==> Current(actions + [Tool(call)]) == Some(call.index))
  {
    DropLast(actions, Tool(call));
    FirstUseIsNew(actions, call);
    HandleToolForm(c, call);
    if call.index in c.toolBlock {
      DeltaTracks(c, Current(actions), call);
    } else {
      var d := StartTool(c, call);
      StartToolOnOpen(c, call);
      StartToolStreams(c, call);
      OnOpenSnoc(d.log, InputDelta(BlockFor(c, call), call.arguments));
      assert Current(actions + [Tool(call)]) == Some(call.index);
    }
  }

  lemma ActTracks(c: Conv, actions: seq<Action>, a: Action)
    requires Tracks(c, actions)
    ensures Tracks(Act(c, a), actions + [a])
  {
    ActStreams(c, a);
    ActSound(c, a);
    ActRecords(c, actions, a);
    ActOnOpen(c, actions, a);
  }

  lemma ActRecords(c: Conv, actions: seq<Action>, a: Action)
    requires Tracks(c, actions)
    ensures Act(c, a).started && Act(c, a).thinkingSeen == MaxReplay(actions + [a])
    ensures Act(c, a).toolBlock.Keys == ToolIndices(actions + [a])
  {
    DropLast(actions, a);
    ActTools(c, a);
  }

  lemma ActOnOpen(c: Conv, actions: seq<Action>, a: Action)
    requires Tracks(c, actions)
    ensures CurrentHolds(Act(c, a), Current(actions + [a]))
    ensures OnOpenBlock(Act(c, a).log) <==> Uninterrupted(actions + [a])
  {
    DropLast(actions, a);
    if a.Tool? {
      ToolTracks(c, actions, a.call);
    } else {
      OtherTracks(c, actions, a);
    }
  }

  lemma ActsTrack(c: Conv, before: seq<Action>, actions: seq<Action>)
    requires Tracks(c, before)
    ensures Tracks(Acts(c, actions), before + actions)
  {
    if actions == [] {
      assert before + actions == before;
    } else {
      ActsTrack(c, before, actions[..|actions| - 1]);
      ActTracks(Acts(c, actions[..|actions| - 1]), before + actions[..|actions| - 1], actions[|actions| - 1]);
      AppendLast(before, actions);
    }
  }

  lemma ChunksTrack(model: string, inputEstimate: int, chunks: seq<Chunk>)
    requires chunks != []
    ensures Tracks(HandleChunks(NewConv(model, inputEstimate), chunks), AllActions(chunks))
  {
    var n := |chunks| - 1;
    var c := HandleChunks(NewConv(model, inputEstimate), chunks[..n]);
    if n == 0 {
      BeginTracks(c, chunks[n]);
    } else {
      ChunksTrack(model, inputEstimate, chunks[..n]);
      BeginLater(c, chunks[n]);
    }
    ActsTrack(BeginChunk(c, chunks[n]), AllActions(chunks[..n]), ChoicesActions(chunks[n].choices));
  }

  lemma BeginTracks(c: Conv, chunk: Chunk)
    requires c == NewConv(c.model, c.inputEstimate)
    ensures Tracks(BeginChunk(c, chunk), [])
  {
    var b := BeginChunk(c, chunk);
    BeginFirst(c, chunk);
    OnOpenSnoc([], b.log[0]);
    assert b.log == [] + [b.log[0]];
    forall i: nat
      ensures Out(b.log, i).input == ""
    {
      BeginOut(c, chunk, i);
    }
  }

  lemma FinalizeOnOpen(c: Conv)
    requires c.started && !c.finalized
    ensures OnOpenBlock(Finalize(c).log) == OnOpenBlock(c.log)
  {
    var d := CloseBlock(c.(finalized := true));
    CloseOnOpen(c.(finalized := true));
    var stop := FinalStop(d);
    var delta := MessageDelta(stop.0, stop.1, PayloadOf(d.usage));
    OnOpenSnoc(d.log, delta);
    OnOpenSnoc(d.log + [delta], MessageStop);
  }

  // Every input delta of the stream meets its own open block exactly when the
  // upstream does not interleave a call with anything that opens a block.
  lemma InputOnOpenBlock(model: string, inputEstimate: int, chunks: seq<Chunk>)
    ensures OnOpenBlock(Convert(model, inputEstimate, chunks).log) <==> Contiguous(AllActions(chunks))
  {
    var c := NewConv(model, inputEstimate);
    if chunks == [] {
      var d := EnsureStarted(c, "", "");
      assert d.log == [] + [d.log[0]];
      OnOpenSnoc([], d.log[0]);
      FinalizeOnOpen(d);
      assert Finalize(c) == Finalize(d);
    } else {
      ChunksTrack(model, inputEstimate, chunks);
      ChunksKeepFinalized(c, chunks);
      FinalizeOnOpen(HandleChunks(c, chunks));
      UninterruptedIsContiguous(AllActions(chunks));
    }
  }

  // Interleaved calls do happen: the second delta of call 0 is sent to block 0
  // after block 1 was opened.
  lemma InterleavedCallsMiss()
    ensures
      var calls := [ToolDelta(0, "a", "f", "x", ""), ToolDelta(1, "b", "g", "", ""), ToolDelta(0, "", "", "y", "")];
      var delta := Delta("", "", "", "", calls, None);
      var chunks := [Chunk("", "", [Choice(delta, "")], None)];
      !OnOpenBlock(Convert("m", 0, chunks).log)
  {
    var calls := [ToolDelta(0, "a", "f", "x", ""), ToolDelta(1, "b", "g", "", ""), ToolDelta(0, "", "", "y", "")];
    var delta := Delta("", "", "", "", calls, None);
    var choice := Choice(delta, "");
    var chunks := [Chunk("", "", [choice], None)];
    var actions := [Tool(calls[0]), Tool(calls[1]), Tool(calls[2])];
    assert ChoiceActions(choice) == actions;
    assert chunks[0].choices[..0] == [] && chunks[..0] == [];
    assert ChoicesActions([choice]) == [] + actions == actions;
    assert AllActions(chunks) == [] + actions == actions;
    assert Opens(actions, 1);
    assert SameCall(actions, 0, 2) && !Quiet(actions, 0, 2);
    InputOnOpenBlock("m", 0, chunks);
  }
}
