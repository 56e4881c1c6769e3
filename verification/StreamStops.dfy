// Which stop reason a message ends with, in the stream and in the one-shot
// translation, told from the finish reasons of the upstream alone.

module StreamStops {
  import opened Prelude
  import opened StreamModel
  import opened StreamConservation
  import opened StreamGrammar
  import opened ResponseTranslation
  import opened StreamRefinement
  import opened StreamEquivalence

  // ---- what the upstream's finish reason means ----

  predicate NormalEnd(finish: string) {
    finish == "" || finish == "stop" || finish == "content_filter" || finish == "end_turn"
  }

  predicate CutShort(finish: string) {
    finish == "length" || finish == "max_tokens"
  }

  predicate CallsTools(finish: string) {
    finish == "tool_calls" || finish == "tool_use"
  }

  // The stop fields of a message are those that finish, the last stop sequence
  // and tool calls in time ask for. quiet is the case of a stop sequence that is
  // not reported.
  predicate StopsAs(
    reason: string, stopSequence: Option<string>, finish: string, sequence: string, tools: bool, quiet: bool)
  {
    && (reason == "max_tokens" <==> !tools && CutShort(finish))
    && (reason == "tool_use" <==> tools || CallsTools(finish))
    && (reason == "stop_sequence" <==>
         !tools && ((NormalEnd(finish) && sequence != "" && !quiet) || finish == "stop_sequence"))
    && (reason == "end_turn" <==> !tools && NormalEnd(finish) && (sequence == "" || quiet))
    && (!tools && !NormalEnd(finish) && !CutShort(finish) && !CallsTools(finish) ==> reason == finish)
    && stopSequence == (if !tools && NormalEnd(finish) && sequence != "" && !quiet then Some(sequence) else None)
  }

  // ---- the one-shot translation ----

  // Every reply with a tool call stops for it; without one a length limit is
  // never taken for a normal end, nor the other way round.
  lemma OneShotStops(resp: ChatResponse, compact: Compactor)
    requires resp.choices != []
    ensures
      var reply, out := resp.choices[0], Translated(Some(resp), compact);
      StopsAs(out.stopReason, out.stopSequence, reply.finishReason, reply.stopSequence,
        reply.toolCalls != [], reply.finishReason == "")
  {
  }

  // ---- the stream ----

  // A finish reason comes with or after a tool call.
  predicate ToolBeforeFinish(choices: seq<Choice>) {
    exists i, j :: 0 <= i <= j < |choices| && choices[i].delta.toolCalls != [] && choices[j].finishReason != ""
  }

  predicate AnyTool(choices: seq<Choice>) {
    exists i :: 0 <= i < |choices| && choices[i].delta.toolCalls != []
  }

  lemma AnyToolSnoc(choices: seq<Choice>, choice: Choice)
    ensures AnyTool(choices + [choice]) <==> AnyTool(choices) || choice.delta.toolCalls != []
  {
    var all := choices + [choice];
    assert all[|choices|] == choice && forall i :: 0 <= i < |choices| ==> all[i] == choices[i];
    if AnyTool(choices) {
      var i :| 0 <= i < |choices| && choices[i].delta.toolCalls != [];
      assert all[i].delta.toolCalls != [];
    }
  }

  lemma ToolBeforeFinishSnoc(choices: seq<Choice>, choice: Choice)
    ensures ToolBeforeFinish(choices + [choice]) <==>
      ToolBeforeFinish(choices) || (AnyTool(choices + [choice]) && choice.finishReason != "")
  {
    var all := choices + [choice];
    assert all[|choices|] == choice && forall i :: 0 <= i < |choices| ==> all[i] == choices[i];
    if ToolBeforeFinish(choices) {
      var i, j :| 0 <= i <= j < |choices| && choices[i].delta.toolCalls != [] && choices[j].finishReason != "";
      assert all[i].delta.toolCalls != [] && all[j].finishReason != "";
    }
    if AnyTool(all) && choice.finishReason != "" {
      var i :| 0 <= i < |all| && all[i].delta.toolCalls != [];
      assert all[|choices|].finishReason != "";
    }
  }

  lemma {:induction false} ActsHaveTool(actions: seq<Action>, more: seq<Action>)
    ensures HasTool(actions + more) <==> HasTool(actions) || HasTool(more)
  {
    if more == [] {
      assert actions + more == actions;
    } else {
      var n := |more| - 1;
      ActsHaveTool(actions, more[..n]);
      AppendLast(actions, more);
      HasToolSnoc(actions + more[..n], more[n]);
      assert more == more[..n] + [more[n]];
      HasToolSnoc(more[..n], more[n]);
    }
  }

  lemma ToolActionsOnly(calls: seq<ToolDelta>)
    ensures HasTool(ToolActions(calls)) <==> calls != []
    ensures forall i :: 0 <= i < |ToolActions(calls)| ==> !ToolActions(calls)[i].Finish?
  {
    if calls != [] {
      assert ToolActions(calls)[0].Tool?;
    }
  }

  lemma NoFinishAppend(actions: seq<Action>, more: seq<Action>)
    requires forall i :: 0 <= i < |more| ==> !more[i].Finish?
    ensures FinishAfterTool(actions + more) <==> FinishAfterTool(actions)
  {
    var all := actions + more;
    assert forall i :: 0 <= i < |actions| ==> all[i] == actions[i];
    assert forall i :: |actions| <= i < |all| ==> all[i] == more[i - |actions|];
    if FinishAfterTool(actions) {
      var i, j :| 0 <= i < j < |actions| && actions[i].Tool? && actions[j].Finish?;
      assert all[i].Tool? && all[j].Finish?;
    }
  }

  // The actions of one choice before its stop fields.
  function Body(d: Delta): seq<Action> {
    ThinkActions(d) + ReplayActions(d) + TextActions(d) + ToolActions(d.toolCalls)
  }

  lemma BodyHas(d: Delta)
    ensures HasTool(Body(d)) <==> d.toolCalls != []
    ensures forall i :: 0 <= i < |Body(d)| ==> !Body(d)[i].Finish?
  {
    var head := ThinkActions(d) + ReplayActions(d) + TextActions(d);
    ActsHaveTool(head, ToolActions(d.toolCalls));
    ToolActionsOnly(d.toolCalls);
  }

  lemma ChoiceStops(actions: seq<Action>, choice: Choice)
    ensures HasTool(actions + ChoiceActions(choice)) <==> HasTool(actions) || choice.delta.toolCalls != []
    ensures FinishAfterTool(actions + ChoiceActions(choice)) <==>
      FinishAfterTool(actions)
      || (choice.finishReason != "" && (HasTool(actions) || choice.delta.toolCalls != []))
  {
    var d := choice.delta;
    var body := Body(d);
    BodyHas(d);
    ActsHaveTool(actions, body);
    NoFinishAppend(actions, body);
    StopActionsStop(actions + body, d.stopSequence, choice.finishReason);
    AppendThree(actions, body, StopActions(d.stopSequence, choice.finishReason));
  }

  lemma StopActionsStop(actions: seq<Action>, sequence: string, reason: string)
    ensures HasTool(actions + StopActions(sequence, reason)) <==> HasTool(actions)
    ensures FinishAfterTool(actions + StopActions(sequence, reason)) <==>
      FinishAfterTool(actions) || (reason != "" && HasTool(actions))
  {
    var first := if sequence != "" then [StopSeq(sequence)] else [];
    var second := if reason != "" then [Finish(reason)] else [];
    ActsHaveTool(actions, first);
    NoFinishAppend(actions, first);
    AppendThree(actions, first, second);
    if second == [] {
      assert actions + first + second == actions + first;
    } else {
      HasToolSnoc(actions + first, Finish(reason));
    }
  }

  ghost predicate SameTools(actions: seq<Action>, choices: seq<Choice>) {
    && (HasTool(actions) <==> AnyTool(choices))
    && (FinishAfterTool(actions) <==> ToolBeforeFinish(choices))
  }

  lemma SameToolsSnoc(actions: seq<Action>, choices: seq<Choice>, choice: Choice, acted: seq<Action>, all: seq<Choice>)
    requires SameTools(actions, choices)
    requires acted == actions + ChoiceActions(choice) && all == choices + [choice]
    ensures SameTools(acted, all)
  {
    ChoiceStops(actions, choice);
    AnyToolSnoc(choices, choice);
    ToolBeforeFinishSnoc(choices, choice);
  }

  lemma {:induction false} ChoicesStop(before: seq<Choice>, actions: seq<Action>, choices: seq<Choice>)
    requires SameTools(actions, before)
    ensures SameTools(actions + ChoicesActions(choices), before + choices)
  {
    if choices == [] {
      assert before + choices == before && actions + ChoicesActions(choices) == actions;
    } else {
      var n := |choices| - 1;
      ChoicesStop(before, actions, choices[..n]);
      AppendLast(before, choices);
      AppendThree(actions, ChoicesActions(choices[..n]), ChoiceActions(choices[n]));
      SameToolsSnoc(actions + ChoicesActions(choices[..n]), before + choices[..n], choices[n],
        actions + ChoicesActions(choices), before + choices);
    }
  }

  lemma {:induction false} ChunksToolInTime(chunks: seq<Chunk>)
    ensures SameTools(AllActions(chunks), AllChoices(chunks))
  {
    if chunks != [] {
      var n := |chunks| - 1;
      ChunksToolInTime(chunks[..n]);
      ChoicesStop(AllChoices(chunks[..n]), AllActions(chunks[..n]), chunks[n].choices);
    }
  }

  // For every chunk sequence: the client's stop fields are those the last finish
  // reason asks for, a tool call counting when a finish reason comes with or
  // after it.
  lemma StreamStopsAs(model: string, inputEstimate: int, chunks: seq<Chunk>)
    ensures
      var client := Received(Convert(model, inputEstimate, chunks).log);
      var choices := AllChoices(chunks);
      StopsAs(client.stopReason, client.stopSequence, FinishReason(choices), StopSequence(choices),
        ToolBeforeFinish(choices), false)
  {
    var c := HandleChunks(NewConv(model, inputEstimate), chunks);
    ConvertReceived(model, inputEstimate, chunks);
    ChunksToolInTime(chunks);
    GatherChunks(chunks);
    ChunksStop(NewConv(model, inputEstimate), chunks);
    FinalStops(c, AllActions(chunks), AllChoices(chunks));
  }

  lemma FinalStops(c: Conv, actions: seq<Action>, choices: seq<Choice>)
    requires StopFollows(c, actions) && GatherAll(Nothing, actions) == Carried(choices)
    ensures StopsAs(FinalStop(c).0, FinalStop(c).1, FinishReason(choices), StopSequence(choices),
              FinishAfterTool(actions), false)
  {
  }
}
