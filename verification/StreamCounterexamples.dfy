// Concrete streams on which the client does not get the one-shot message: one
// for each condition under which it does.

module StreamCounterexamples {
  import opened Prelude
  import opened StreamModel
  import opened StreamConservation
  import opened StreamGrammar
  import opened StreamInterleaving
  import opened ResponseTranslation
  import opened StreamRefinement
  import opened StreamEquivalence

  function CallDelta(call: ToolDelta): Delta {
    Delta("", "", "", "", [call], None)
  }

  function TextOnly(text: string): Delta {
    Delta(text, "", "", "", [], None)
  }

  function StopOnly(sequence: string): Delta {
    Delta("", "", "", sequence, [], None)
  }

  function One(d: Delta): Chunk {
    Chunk("", "", [Choice(d, "")], None)
  }

  lemma ActionsOfOne(d: Delta)
    ensures AllActions([One(d)]) == ChoiceActions(Choice(d, ""))
    ensures AllChoices([One(d)]) == [Choice(d, "")]
  {
    var chunk, choice := One(d), Choice(d, "");
    assert [chunk][..0] == [] && chunk.choices == [choice] && [choice][..0] == [];
    assert ChoicesActions([choice]) == [] + ChoiceActions(choice);
    assert AllActions([chunk]) == [] + ChoicesActions([choice]);
    assert AllChoices([chunk]) == [] + [choice];
  }

  lemma ActionsOfTwo(d: Delta, e: Delta)
    ensures AllActions([One(d), One(e)]) == ChoiceActions(Choice(d, "")) + ChoiceActions(Choice(e, ""))
    ensures AllChoices([One(d), One(e)]) == [Choice(d, ""), Choice(e, "")]
  {
    var chunks, last := [One(d), One(e)], Choice(e, "");
    ActionsOfOne(d);
    assert chunks[..1] == [One(d)] && One(e).choices == [last] && [last][..0] == [];
    assert ChoicesActions([last]) == [] + ChoiceActions(last);
  }

  // Text after a tool call: the client holds the text last, the translation renders it first.
  lemma TextAfterTool(compact: Compactor)
    ensures
      var chunks := [One(CallDelta(ToolDelta(0, "a", "f", "{}", ""))), One(TextOnly("hi"))];
      var client := Received(Convert("m", 0, chunks).log);
      var usage := CoreUsage(0, 0, 0, 0);
      var once := Translated(Some(ChatResponse("", "m", [Assembled(AllChoices(chunks))], usage)), compact);
      FinishedContent(client.content, compact) != once.content
  {
    var call := ToolDelta(0, "a", "f", "{}", "");
    var d, e := CallDelta(call), TextOnly("hi");
    ActionsOfTwo(d, e);
    assert ToolActions([call]) == [Tool(call)] && ToolActions([]) == [];
    assert ChoiceActions(Choice(d, "")) == [Tool(call)];
    assert ChoiceActions(Choice(e, "")) == [Text("hi")];
    var actions := [Tool(call)] + [Text("hi")];
    assert actions[0] == Tool(call) && actions[1] == Text("hi");
    assert !Ordered(actions);
    StreamMatchesOneShot("m", 0, [One(d), One(e)], "", CoreUsage(0, 0, 0, 0), compact);
  }

  // A tool call and no finish reason: end_turn for the client, tool_use in the translation.
  lemma ToolWithoutFinish(compact: Compactor)
    ensures
      var chunks := [One(CallDelta(ToolDelta(0, "a", "f", "{}", "")))];
      var client := Received(Convert("m", 0, chunks).log);
      var usage := CoreUsage(0, 0, 0, 0);
      var once := Translated(Some(ChatResponse("", "m", [Assembled(AllChoices(chunks))], usage)), compact);
      client.stopReason == "end_turn" && once.stopReason == "tool_use"
  {
    var call := ToolDelta(0, "a", "f", "{}", "");
    var d := CallDelta(call);
    ActionsOfOne(d);
    assert ToolActions([call]) == [Tool(call)];
    assert ChoiceActions(Choice(d, "")) == [Tool(call)];
    StopOfOne(d, [Tool(call)]);
    var choices := [Choice(d, "")];
    assert choices[..0] == [];
    assert Calls(choices) == [call];
    MergedEmpty(Calls(choices));
  }

  // A stop sequence and no finish reason: stop_sequence for the client, end_turn
  // in the translation.
  lemma StopSequenceWithoutFinish(compact: Compactor)
    ensures
      var chunks := [One(StopOnly("END"))];
      var client := Received(Convert("m", 0, chunks).log);
      var usage := CoreUsage(0, 0, 0, 0);
      var once := Translated(Some(ChatResponse("", "m", [Assembled(AllChoices(chunks))], usage)), compact);
      client.stopReason == "stop_sequence" && once.stopReason == "end_turn"
  {
    var d := StopOnly("END");
    ActionsOfOne(d);
    assert ToolActions([]) == [];
    assert ChoiceActions(Choice(d, "")) == [StopSeq("END")];
    StopOfOne(d, [StopSeq("END")]);
    var choices := [Choice(d, "")];
    assert choices[..0] == [];
    assert Calls(choices) == [];
    MergedEmpty(Calls(choices));
  }

  // The client's stop reason after a stream of one action.
  lemma StopOfOne(d: Delta, actions: seq<Action>)
    requires AllActions([One(d)]) == actions && |actions| == 1 && (actions[0].Tool? || actions[0].StopSeq?)
    ensures Received(Convert("m", 0, [One(d)]).log).stopReason
         == if actions[0].StopSeq? && actions[0].sequence != "" then "stop_sequence" else "end_turn"
  {
    var c := HandleChunks(NewConv("m", 0), [One(d)]);
    ChunksKeepFinalized(NewConv("m", 0), [One(d)]);
    FinalizeReceived(c);
    ChunksStop(NewConv("m", 0), [One(d)]);
    StopAfterOne(c, actions);
  }

  lemma StopAfterOne(c: Conv, actions: seq<Action>)
    requires StopFollows(c, actions) && |actions| == 1 && (actions[0].Tool? || actions[0].StopSeq?)
    ensures FinalStop(c).0 == if actions[0].StopSeq? && actions[0].sequence != "" then "stop_sequence" else "end_turn"
  {
    assert actions == [actions[0]];
    GatherOne(Nothing, actions[0]);
  }
}
