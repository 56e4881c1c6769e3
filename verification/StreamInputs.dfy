// The tool input a client puts together from the stream is the one the one-shot
// translation renders, character for character where the upstream sends compact
// JSON.

module StreamInputs {
  import opened Prelude
  import opened Strings
  import opened StreamModel
  import opened StreamConservation
  import opened StreamGrammar
  import opened ResponseTranslation
  import opened ResponseContent
  import opened StreamRefinement
  import opened StreamEquivalence
  import opened StreamReplay

  // ---- the calls of the assembled response ----

  function IndexSet(merged: seq<Merged>): set<int> {
    set m | m in merged :: m.index
  }

  // One call for each index, with the arguments of all its deltas.
  ghost predicate Complete(merged: seq<Merged>, calls: seq<ToolDelta>) {
    && IndexSet(merged) == Indices(calls)
    && (forall p, q :: 0 <= p < q < |merged| ==> merged[p].index != merged[q].index)
    && (forall p :: 0 <= p < |merged| ==> merged[p].call.arguments == ArgumentsOf(calls, merged[p].index))
  }

  lemma NoArguments(calls: seq<ToolDelta>, index: int)
    requires index !in Indices(calls)
    ensures ArgumentsOf(calls, index) == ""
  {
    if calls != [] {
      var n := |calls| - 1;
      assert calls[n] in calls;
      assert calls[n].index in Indices(calls);
      assert Indices(calls[..n]) <= Indices(calls) by {
        forall k | k in Indices(calls[..n])
          ensures k in Indices(calls)
        {
          var call :| call in calls[..n] && call.index == k;
          assert call in calls;
        }
      }
      NoArguments(calls[..n], index);
    }
  }

  lemma CompleteSnoc(merged: seq<Merged>, calls: seq<ToolDelta>, d: ToolDelta)
    requires Complete(merged, calls)
    ensures Complete(MergeCall(merged, d), calls + [d])
  {
    var p, more := Position(merged, d.index), MergeCall(merged, d);
    MergeAt(merged, d);
    forall k
      ensures ArgumentsOf(calls + [d], k) == ArgumentsOf(calls, k) + (if d.index == k then d.arguments else "")
    {
      ArgumentsSnoc(calls, d, k);
    }
    ArgumentsSnoc(calls, d, d.index);
    if p < |merged| {
      SameIndexSet(merged, more);
      assert merged[p] in merged && d.index in IndexSet(merged);
      forall q | 0 <= q < |more|
        ensures more[q].call.arguments == ArgumentsOf(calls + [d], more[q].index)
      {
        assert ArgumentsOf(calls, merged[q].index) + "" == ArgumentsOf(calls, merged[q].index);
      }
    } else {
      NewIndex(merged, calls, d, more);
    }
  }

  lemma SameIndexSet(merged: seq<Merged>, more: seq<Merged>)
    requires |merged| == |more| && forall i :: 0 <= i < |merged| ==> more[i].index == merged[i].index
    ensures IndexSet(more) == IndexSet(merged)
  {
    forall k
      ensures k in IndexSet(more) <==> k in IndexSet(merged)
    {
      if k in IndexSet(merged) {
        var i :| 0 <= i < |merged| && merged[i].index == k;
        assert more[i] in more;
      }
      if k in IndexSet(more) {
        var i :| 0 <= i < |more| && more[i].index == k;
        assert merged[i] in merged;
      }
    }
  }

  lemma NewIndex(merged: seq<Merged>, calls: seq<ToolDelta>, d: ToolDelta, more: seq<Merged>)
    requires Complete(merged, calls) && Position(merged, d.index) == |merged|
    requires more == merged + [Merged(d.index, ToolCall(d.id, d.name, d.arguments, d.extra))]
    requires forall k ::
      ArgumentsOf(calls + [d], k) == ArgumentsOf(calls, k) + (if d.index == k then d.arguments else "")
    ensures IndexSet(more) == IndexSet(merged) + {d.index}
    ensures forall p, q :: 0 <= p < q < |more| ==> more[p].index != more[q].index
    ensures forall q :: 0 <= q < |more| ==> more[q].call.arguments == ArgumentsOf(calls + [d], more[q].index)
  {
    var m := more[|merged|];
    assert more[|merged|] in more;
    assert IndexSet(more) == IndexSet(merged) + {d.index};
    assert d.index !in IndexSet(merged);
    NoArguments(calls, d.index);
    assert "" + d.arguments == d.arguments;
    forall q | 0 <= q < |more|
      ensures more[q].call.arguments == ArgumentsOf(calls + [d], more[q].index)
    {
      if q < |merged| {
        assert merged[q] in merged;
        assert ArgumentsOf(calls, merged[q].index) + "" == ArgumentsOf(calls, merged[q].index);
      }
    }
  }

  lemma {:induction false} MergedIsComplete(calls: seq<ToolDelta>)
    ensures Complete(MergeCalls(calls), calls)
  {
    if calls != [] {
      var n := |calls| - 1;
      MergedIsComplete(calls[..n]);
      CompleteSnoc(MergeCalls(calls[..n]), calls[..n], calls[n]);
      assert calls == calls[..n] + [calls[n]];
    }
  }

  // ---- the inputs ----

  // JSON as compacting leaves it.
  predicate CompactJson(json: string, compact: Compactor) {
    json != "" && Bare(json) && compact(json) == Some(json)
  }

  lemma CompactInput(input: Option<string>, json: string, compact: Compactor)
    requires InputIs(input, json, compact) && CompactJson(json, compact)
    ensures input == Some(json)
  {
    assert "" + json + "" == json;
    TrimSpaceOnly("", json, "");
    BlankIsTrimmed(json);
  }

  // The last |merged| blocks of content.
  function ToolTail<T>(content: seq<T>, merged: seq<Merged>): seq<T>
    requires |merged| <= |content|
  {
    content[|content| - |merged|..]
  }

  // For every stream in order, with or without replay state: the client's tool
  // blocks hold exactly the concatenated argument deltas of their calls, and the
  // one-shot translation renders their JSON, unchanged when it is compact.
  lemma InputsAreReceived(
    model: string, inputEstimate: int, chunks: seq<Chunk>, id: string, usage: CoreUsage, compact: Compactor)
    requires OrderedReplays(AllActions(chunks))
    ensures
      var client := Received(Convert(model, inputEstimate, chunks).log);
      var once := Translated(Some(ChatResponse(id, model, [AssembledWithReplay(chunks)], usage)), compact);
      var calls := Calls(AllChoices(chunks));
      var merged := MergeCalls(calls);
      && Complete(merged, calls) && |merged| <= |client.content| && |merged| <= |once.content|
      && forall p :: 0 <= p < |merged| ==>
           var json := ToolTail(client.content, merged)[p].json;
           var input := ToolTail(once.content, merged)[p].input;
           && json == ArgumentsOf(calls, merged[p].index)
           && InputIs(input, json, compact)
           && (CompactJson(json, compact) ==> input == Some(json))
  {
    var actions, c := AllActions(chunks), HandleChunks(NewConv(model, inputEstimate), chunks);
    var calls := Calls(AllChoices(chunks));
    var merged := MergeCalls(calls);
    MergedIsComplete(calls);
    ConvertReceived(model, inputEstimate, chunks);
    GatherChunks(chunks);
    ChunksFollow(NewConv(model, inputEstimate), chunks);
    ContentParts(c, actions);
    var reply := AssembledWithReplay(chunks);
    UsesAre(reply.toolCalls, compact);
    TailIs(AsClient(Closed(HeadOf(actions))) + AsClient(TextBlocks(GatherAll(Nothing, actions).text)), ToolBlocks(merged), merged);
    TailIs(ThinkingPart(reply) + TextPart(reply), ToolPart(reply.toolCalls, compact), merged);
    var once := Translated(Some(ChatResponse(id, model, [reply], usage)), compact);
    forall p | 0 <= p < |merged|
      ensures
        var json := ToolTail(Content(c), merged)[p].json;
        var input := ToolTail(once.content, merged)[p].input;
        && json == ArgumentsOf(calls, merged[p].index)
        && InputIs(input, json, compact)
        && (CompactJson(json, compact) ==> input == Some(json))
    {
      var json := merged[p].call.arguments;
      assert IsUse(ToolPart(reply.toolCalls, compact)[p], reply.toolCalls[p], compact);
      if CompactJson(json, compact) {
        CompactInput(ToolPart(reply.toolCalls, compact)[p].input, json, compact);
      }
    }
  }

  lemma TailIs<T>(head: seq<T>, tail: seq<T>, merged: seq<Merged>)
    requires |tail| == |merged|
    ensures |merged| <= |head + tail| && ToolTail(head + tail, merged) == tail
  {
  }
}
