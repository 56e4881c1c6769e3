// Tool calls and tool results survive the request translation: each exactly
// once, in order, with its own members, every tool message ahead of the rest of
// its message.

module RequestTools {
  import opened Prelude
  import opened RequestModel
  import opened RequestMeaning

  // ---- what a request holds ----

  function BlocksIn(m: Message): seq<Block> {
    if m.role != "system" && m.content.Blocks? then m.content.blocks else []
  }

  function AllUses(messages: seq<Message>): seq<Block> {
    if messages == [] then []
    else AllUses(messages[..|messages| - 1]) + Uses(BlocksIn(messages[|messages| - 1]))
  }

  function AllResults(messages: seq<Message>): seq<Block> {
    if messages == [] then []
    else AllResults(messages[..|messages| - 1]) + Results(BlocksIn(messages[|messages| - 1]))
  }

  // ---- what a chat request holds ----

  function Calls(ms: seq<ChatMessage>): seq<ToolCall> {
    if ms == [] then [] else Calls(ms[..|ms| - 1]) + ms[|ms| - 1].toolCalls
  }

  function Answers(ms: seq<ChatMessage>): seq<ChatMessage> {
    if ms == [] then []
    else Answers(ms[..|ms| - 1]) + if ms[|ms| - 1].role == "tool" then [ms[|ms| - 1]] else []
  }

  lemma {:induction false} CallsAppend(a: seq<ChatMessage>, b: seq<ChatMessage>)
    ensures Calls(a + b) == Calls(a) + Calls(b)
    ensures Answers(a + b) == Answers(a) + Answers(b)
  {
    if b == [] {
      assert a + b == a;
    } else {
      var n := |b| - 1;
      assert (a + b)[..|a + b| - 1] == a + b[..n];
      CallsAppend(a, b[..n]);
    }
  }

  // ---- one message ----

  predicate PlainAnswer(m: ChatMessage) {
    m.role == "tool" && m.toolCalls == []
  }

  lemma {:induction false} PlainAnswersOnly(ms: seq<ChatMessage>)
    requires forall i :: 0 <= i < |ms| ==> PlainAnswer(ms[i])
    ensures Calls(ms) == [] && Answers(ms) == ms
  {
    if ms != [] {
      PlainAnswersOnly(ms[..|ms| - 1]);
      assert PlainAnswer(ms[|ms| - 1]);
      assert ms[..|ms| - 1] + [ms[|ms| - 1]] == ms;
    }
  }

  // The tool messages come first, in order, then at most one message with the
  // role of the original, holding every tool call.
  lemma ToolMessagesFirst(role: string, blocks: seq<Block>, lenient: bool)
    requires role == "user" || role == "assistant"
    requires BlockMessage(role, blocks, lenient).Ok?
    ensures var out, n := BlockMessage(role, blocks, lenient).value, |Results(blocks)|;
      && n <= |out| <= n + 1 && AnswersAre(Results(blocks), out[..n])
      && (|out| > n ==> out[n].role == role && CallsAre(Uses(blocks), out[n].toolCalls))
      && (|out| == n ==> Uses(blocks) == [])
      && CallsAre(Uses(blocks), Calls(out)) && Answers(out) == out[..n]
  {
    BlockMessageHolds(role, blocks, lenient);
    var out, n := BlockMessage(role, blocks, lenient).value, |Results(blocks)|;
    AnswersThenRest(role, blocks, out[..n], out[n..]);
    assert out == out[..n] + out[n..];
  }

  lemma AnswersThenRest(role: string, blocks: seq<Block>, answers: seq<ChatMessage>, rest: seq<ChatMessage>)
    requires role != "tool" && AnswersAre(Results(blocks), answers) && RestIs(role, blocks, rest)
    ensures |rest| <= 1 && (rest == [] ==> Uses(blocks) == [])
    ensures rest != [] ==> rest[0].role == role && CallsAre(Uses(blocks), rest[0].toolCalls)
    ensures CallsAre(Uses(blocks), Calls(answers + rest)) && Answers(answers + rest) == answers
  {
    RestShape(role, blocks, rest);
    PlainAnswers(blocks, answers);
    AnswersAndRest(answers, rest);
  }

  lemma RestShape(role: string, blocks: seq<Block>, rest: seq<ChatMessage>)
    requires RestIs(role, blocks, rest)
    ensures |rest| <= 1 && (rest == [] ==> Uses(blocks) == [])
    ensures rest != [] ==> rest[0].role == role && CallsAre(Uses(blocks), rest[0].toolCalls)
  {
  }

  lemma AnswersAndRest(answers: seq<ChatMessage>, rest: seq<ChatMessage>)
    requires forall i :: 0 <= i < |answers| ==> PlainAnswer(answers[i])
    requires |rest| <= 1 && (rest != [] ==> rest[0].role != "tool")
    ensures Calls(answers + rest) == (if rest != [] then rest[0].toolCalls else [])
    ensures Answers(answers + rest) == answers
  {
    PlainAnswersOnly(answers);
    CallsAppend(answers, rest);
    OneOrNone(rest);
    assert [] + Calls(rest) == Calls(rest) && answers + [] == answers;
  }

  lemma PlainAnswers(blocks: seq<Block>, answers: seq<ChatMessage>)
    requires AnswersAre(Results(blocks), answers)
    ensures forall i :: 0 <= i < |answers| ==> PlainAnswer(answers[i])
  {
    forall i | 0 <= i < |answers|
      ensures PlainAnswer(answers[i])
    {
      assert AnswerIs(Results(blocks)[i], answers[i]);
    }
  }

  lemma OneOrNone(ms: seq<ChatMessage>)
    requires |ms| <= 1
    ensures Calls(ms) == if ms == [] then [] else ms[0].toolCalls
    ensures Answers(ms) == if ms == [] || ms[0].role != "tool" then [] else ms
  {
    if ms != [] {
      JustOne(ms[0]);
      assert ms == [ms[0]];
    }
  }

  lemma JustOne(m: ChatMessage)
    ensures Calls([m]) == m.toolCalls
    ensures Answers([m]) == if m.role == "tool" then [m] else []
  {
    var none: seq<ChatMessage> := [m][..0];
    assert none == [];
    assert Calls(none) + m.toolCalls == m.toolCalls;
    assert Answers(none) + [m] == [m];
  }

  ghost predicate ToolsOfAre(uses: seq<Block>, results: seq<Block>, out: seq<ChatMessage>) {
    CallsAre(uses, Calls(out)) && AnswersAre(results, Answers(out))
  }

  lemma MessageTools(m: Message, lenient: bool)
    requires MessageOf(m, lenient).Ok?
    ensures ToolsOfAre(Uses(BlocksIn(m)), Results(BlocksIn(m)), MessageOf(m, lenient).value)
  {
    if m.role != "system" && m.content.Blocks? {
      ToolMessagesFirst(m.role, m.content.blocks, lenient);
    } else {
      PlainMessage(m, lenient);
      NoTools(MessageOf(m, lenient).value);
    }
  }

  lemma PlainMessage(m: Message, lenient: bool)
    requires MessageOf(m, lenient).Ok? && !(m.role != "system" && m.content.Blocks?)
    ensures var out := MessageOf(m, lenient).value;
      |out| <= 1 && (out != [] ==> out[0].role != "tool" && out[0].toolCalls == [])
  {
  }

  lemma NoTools(out: seq<ChatMessage>)
    requires |out| <= 1 && (out != [] ==> out[0].role != "tool" && out[0].toolCalls == [])
    ensures ToolsOfAre(Uses([]), Results([]), out)
  {
    OneOrNone(out);
  }

  lemma ToolsJoin(
    uses: seq<Block>, results: seq<Block>, out: seq<ChatMessage>,
    moreUses: seq<Block>, moreResults: seq<Block>, more: seq<ChatMessage>)
    requires ToolsOfAre(uses, results, out) && ToolsOfAre(moreUses, moreResults, more)
    ensures ToolsOfAre(uses + moreUses, results + moreResults, out + more)
  {
    CallsAppend(out, more);
  }

  // ---- the whole conversation ----

  lemma {:induction false} MessagesTools(messages: seq<Message>, lenient: bool)
    requires MessagesOf(messages, lenient).Ok?
    ensures ToolsOfAre(AllUses(messages), AllResults(messages), MessagesOf(messages, lenient).value)
  {
    if messages != [] {
      var n := |messages| - 1;
      MessagesTools(messages[..n], lenient);
      MessageTools(messages[n], lenient);
      ToolsJoin(
        AllUses(messages[..n]), AllResults(messages[..n]), MessagesOf(messages[..n], lenient).value,
        Uses(BlocksIn(messages[n])), Results(BlocksIn(messages[n])), MessageOf(messages[n], lenient).value);
    }
  }

  // Every tool_use of the request is one tool call of the chat request, with its
  // own ID, name, input and marks, and every tool_result one tool message, with
  // its own call ID, content, error flag and marks, in the original order; and
  // there are no others.
  lemma ToolsSurvive(req: Request, lenient: bool)
    requires ConvertMessages(req, lenient).Ok?
    ensures CallsAre(AllUses(req.messages), Calls(ConvertMessages(req, lenient).value))
    ensures AnswersAre(AllResults(req.messages), Answers(ConvertMessages(req, lenient).value))
  {
    var head := SystemMessage(req.system, lenient).value;
    MessagesTools(req.messages, lenient);
    OneOrNone(head);
    CallsAppend(head, MessagesOf(req.messages, lenient).value);
    assert [] + Calls(MessagesOf(req.messages, lenient).value) == Calls(MessagesOf(req.messages, lenient).value);
    assert [] + Answers(MessagesOf(req.messages, lenient).value) == Answers(MessagesOf(req.messages, lenient).value);
  }
}
