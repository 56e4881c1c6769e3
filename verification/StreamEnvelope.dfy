// What surrounds the content: message ID, model and usage, as the client of the
// stream gets them and as the one-shot translation renders them.

module StreamEnvelope {
  import opened Prelude
  import opened StreamModel
  import opened StreamConservation
  import opened StreamGrammar
  import opened ResponseTranslation
  import opened Strings
  import opened ResponseContent

  // The ID, model and input estimate of message_start, and the usage of message_delta.
  datatype Envelope = Envelope(id: string, model: string, estimate: int, usage: Option<UsagePayload>)

  function Read(envelope: Envelope, e: Event): Envelope {
    match e
    case MessageStart(id, model, estimate) => envelope.(id := id, model := model, estimate := estimate)
    case MessageDelta(_, _, usage) => envelope.(usage := Some(usage))
    case _ => envelope
  }

  function EnvelopeOf(log: seq<Event>): Envelope {
    if log == [] then Envelope("", "", 0, None)
    else Read(EnvelopeOf(log[..|log| - 1]), log[|log| - 1])
  }

  lemma EnvelopeSnoc(log: seq<Event>, e: Event)
    ensures EnvelopeOf(log + [e]) == Read(EnvelopeOf(log), e)
  {
    DropLast(log, e);
  }

  // The block events and the stop event say nothing of it.
  predicate Inner(e: Event) {
    !e.MessageStart? && !e.MessageDelta?
  }

  // d comes from c by block events only.
  ghost predicate SameEnvelope(c: Conv, d: Conv) {
    EnvelopeOf(d.log) == EnvelopeOf(c.log) && d.usage == c.usage && d.started == c.started
  }

  lemma EmitInner(c: Conv, e: Event)
    requires Inner(e)
    ensures SameEnvelope(c, Emit(c, e))
  {
    EnvelopeSnoc(c.log, e);
  }

  lemma CloseEnvelope(c: Conv)
    ensures SameEnvelope(c, CloseBlock(c))
  {
    EnvelopeSnoc(c.log, BlockStop(c.curIndex));
  }

  lemma OpenEnvelope(c: Conv, block: StartBlock)
    ensures SameEnvelope(c, OpenBlock(c, block))
  {
    EnvelopeSnoc(c.log, BlockStart(c.nextIndex, block));
  }

  lemma BlockEnvelope(c: Conv, block: StartBlock)
    ensures SameEnvelope(c, CloseBlock(c)) && SameEnvelope(c, EnsureBlock(c, block))
    ensures SameEnvelope(c, OpenBlock(CloseBlock(c), block))
  {
    CloseEnvelope(c);
    OpenEnvelope(CloseBlock(c), block);
  }

  lemma RenderBlockEnvelope(c: Conv, b: ReplayBlock)
    ensures SameEnvelope(c, RenderReplayBlock(c, b))
  {
    if b.kind == "redacted_thinking" {
      BlockEnvelope(c, RedactedStart(b.data));
      BlockEnvelope(OpenBlock(CloseBlock(c), RedactedStart(b.data)), TextStart);
    } else if b.signature != "" {
      var d := EnsureBlock(c, ThinkingStart);
      BlockEnvelope(c, ThinkingStart);
      EmitInner(d, SignatureDelta(d.curIndex, b.signature));
      BlockEnvelope(Emit(d, SignatureDelta(d.curIndex, b.signature)), TextStart);
    }
  }

  lemma {:induction false} RenderEnvelope(c: Conv, blocks: seq<ReplayBlock>)
    ensures SameEnvelope(c, RenderReplay(c, blocks))
  {
    if blocks != [] {
      var n := |blocks| - 1;
      RenderEnvelope(c, blocks[..n]);
      RenderBlockEnvelope(RenderReplay(c, blocks[..n]), blocks[n]);
    }
  }

  lemma ToolEnvelope(c: Conv, call: ToolDelta)
    ensures SameEnvelope(c, HandleToolCall(c, call))
  {
    BlockEnvelope(c, ToolStart(call.id, call.name, call.extra));
    var d := if call.index in c.toolBlock then c else StartTool(c, call);
    if call.arguments != "" {
      EmitInner(d, InputDelta(d.toolBlock[call.index], call.arguments));
    }
  }

  lemma ActEnvelope(c: Conv, a: Action)
    ensures SameEnvelope(c, Act(c, a))
  {
    match a
    case Think(t) =>
      BlockEnvelope(c, ThinkingStart);
      EmitInner(EnsureBlock(c, ThinkingStart), ThinkingDelta(EnsureBlock(c, ThinkingStart).curIndex, t));
    case Text(t) =>
      BlockEnvelope(c, TextStart);
      EmitInner(EnsureBlock(c, TextStart), TextDelta(EnsureBlock(c, TextStart).curIndex, t));
    case Replay(blocks) => RenderEnvelope(c, Unseen(c, blocks));
    case Tool(call) => ToolEnvelope(c, call);
    case StopSeq(_) =>
    case Finish(_) =>
  }

  lemma {:induction false} ActsEnvelope(c: Conv, actions: seq<Action>)
    ensures SameEnvelope(c, Acts(c, actions))
  {
    if actions != [] {
      var n := |actions| - 1;
      ActsEnvelope(c, actions[..n]);
      ActEnvelope(Acts(c, actions[..n]), actions[n]);
    }
  }

  // ---- what the upstream says ----

  function FirstId(chunks: seq<Chunk>): string {
    if chunks == [] then "" else chunks[0].id
  }

  function FirstModel(chunks: seq<Chunk>): string {
    if chunks == [] then "" else chunks[0].model
  }

  function LastUsage(chunks: seq<Chunk>): ChatUsage {
    if chunks == [] then NoUsage
    else if chunks[|chunks| - 1].usage.Some? then chunks[|chunks| - 1].usage.value
    else LastUsage(chunks[..|chunks| - 1])
  }

  function StartId(id: string): string {
    if NormalizeMessageId(id) == "" then "msg_stream" else NormalizeMessageId(id)
  }

  function StartModel(requested: string, model: string): string {
    if model == "" then requested else model
  }

  // After the first chunk the start is out, with the first chunk's ID and model.
  ghost predicate Opened(c: Conv, requested: string, estimate: int, chunks: seq<Chunk>) {
    && c.started && c.usage == LastUsage(chunks)
    && EnvelopeOf(c.log) == Envelope(StartId(FirstId(chunks)), StartModel(requested, FirstModel(chunks)), estimate, None)
  }

  lemma StartEnvelope(c: Conv, id: string, model: string)
    requires !c.started && c.log == []
    ensures EnvelopeOf(EnsureStarted(c, id, model).log) ==
      Envelope(StartId(id), StartModel(c.model, model), c.inputEstimate, None)
  {
    EnvelopeSnoc([], EnsureStarted(c, id, model).log[0]);
  }

  lemma {:induction false} ChunksOpen(model: string, inputEstimate: int, chunks: seq<Chunk>)
    requires chunks != []
    ensures Opened(HandleChunks(NewConv(model, inputEstimate), chunks), model, inputEstimate, chunks)
  {
    var n := |chunks| - 1;
    var c := HandleChunks(NewConv(model, inputEstimate), chunks[..n]);
    var chunk := chunks[n];
    if n == 0 {
      assert chunks[..0] == [];
      StartEnvelope(c, chunk.id, chunk.model);
    } else {
      ChunksOpen(model, inputEstimate, chunks[..n]);
    }
    ActsEnvelope(BeginChunk(c, chunk), ChoicesActions(chunk.choices));
  }

  lemma EnvelopeForm(model: string, inputEstimate: int, chunks: seq<Chunk>)
    ensures EnvelopeOf(Convert(model, inputEstimate, chunks).log) ==
      Envelope(StartId(FirstId(chunks)), StartModel(model, FirstModel(chunks)), inputEstimate,
        Some(PayloadOf(LastUsage(chunks))))
  {
    var c := HandleChunks(NewConv(model, inputEstimate), chunks);
    ChunksKeepFinalized(NewConv(model, inputEstimate), chunks);
    var s := EnsureStarted(c.(finalized := true), "", "");
    if chunks == [] {
      StartEnvelope(c.(finalized := true), "", "");
    } else {
      ChunksOpen(model, inputEstimate, chunks);
    }
    BlockEnvelope(s, TextStart);
    var d := CloseBlock(s);
    var stop := FinalStop(d);
    var delta := MessageDelta(stop.0, stop.1, PayloadOf(d.usage));
    EnvelopeSnoc(d.log, delta);
    EnvelopeSnoc(d.log + [delta], MessageStop);
  }

  // A count is reported when it is above zero.
  predicate CountIs(reported: Option<int>, n: int) {
    reported == if n > 0 then Some(n) else None
  }

  // The cache tokens read are the provider's own count, or else those of the
  // prompt details.
  predicate PayloadIs(p: UsagePayload, u: ChatUsage) {
    && p.output == u.completionTokens && CountIs(p.input, u.promptTokens) && CountIs(p.cacheCreation, u.cacheCreation)
    && (if u.cacheRead > 0 || u.cachedDetails.None? then CountIs(p.cacheRead, u.cacheRead)
        else CountIs(p.cacheRead, u.cachedDetails.value))
  }

  // Every complete stream carries the first chunk's ID and model, or their
  // fallbacks, the estimate it was given and the last usage the upstream reported.
  lemma EnvelopeIs(model: string, inputEstimate: int, chunks: seq<Chunk>)
    ensures var e := EnvelopeOf(Convert(model, inputEstimate, chunks).log);
      && (if Blank(FirstId(chunks)) then e.id == "msg_stream" else MessageIdIs(e.id, FirstId(chunks)))
      && e.model == (if FirstModel(chunks) == "" then model else FirstModel(chunks))
      && e.estimate == inputEstimate
      && e.usage.Some? && PayloadIs(e.usage.value, LastUsage(chunks))
  {
    EnvelopeForm(model, inputEstimate, chunks);
    NormalizedIs(FirstId(chunks));
    BlankIsTrimmed(FirstId(chunks));
  }

  // ---- against the one-shot translation ----

  // The usage a client reads off the payload: a missing count is zero.
  function UsageOf(p: UsagePayload): Usage {
    Usage(CountOf(p.input), p.output, CountOf(p.cacheCreation), CountOf(p.cacheRead))
  }

  function CountOf(n: Option<int>): int {
    if n.Some? then n.value else 0
  }

  // The same report as the provider's usage object.
  function AsCore(u: ChatUsage): CoreUsage {
    CoreUsage(u.promptTokens, u.completionTokens, u.cacheCreation, u.cacheRead)
  }

  // The stream falls back to the cached tokens of the prompt details, which the
  // one-shot translation does not look at, and leaves out counts below one.
  predicate SameCounts(u: ChatUsage) {
    && u.promptTokens >= 0 && u.cacheCreation >= 0
    && u.cacheRead >= 0 && (u.cacheRead == 0 && u.cachedDetails.Some? ==> u.cachedDetails.value <= 0)
  }

  // ID, model and usage are those of the one-shot translation, each exactly when
  // its condition holds.
  lemma EnvelopeMatchesOneShot(
    model: string, inputEstimate: int, chunks: seq<Chunk>, reply: Reply, compact: Compactor)
    ensures
      var envelope := EnvelopeOf(Convert(model, inputEstimate, chunks).log);
      var u := LastUsage(chunks);
      var once := Translated(Some(ChatResponse(FirstId(chunks), FirstModel(chunks), [reply], AsCore(u))), compact);
      && envelope.usage.Some?
      && (envelope.id == once.id <==> !Blank(FirstId(chunks)))
      && (envelope.model == once.model <==> FirstModel(chunks) != "" || model == "")
      && (UsageOf(envelope.usage.value) == once.usage <==> SameCounts(u))
  {
    EnvelopeForm(model, inputEstimate, chunks);
    BlankIsTrimmed(FirstId(chunks));
  }
}
