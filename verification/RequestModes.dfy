// Strict and lenient translation agree. Lenient accepts a request exactly when
// strict accepts it with the unsupported blocks and tools deleted, and then both
// build the same chat request; strict accepts exactly when lenient accepts and
// there is nothing to delete.

module RequestModes {
  import opened Prelude
  import opened RequestModel

  // ---- deleting what has no canonical form ----

  function PruneResult(blocks: seq<Block>): seq<Block> {
    if blocks == [] then []
    else
      var n := |blocks| - 1;
      PruneResult(blocks[..n]) + if IsPayload(blocks[n].kind) then [blocks[n]] else []
  }

  function PruneResultContent(c: Content): Content {
    if c.Blocks? then Blocks(PruneResult(c.blocks)) else c
  }

  function PruneBlock(b: Block): Block {
    if b.kind == ToolResultBlock then b.(content := PruneResultContent(b.content)) else b
  }

  function PruneBlocks(blocks: seq<Block>): seq<Block> {
    if blocks == [] then []
    else
      var n := |blocks| - 1;
      PruneBlocks(blocks[..n]) + if blocks[n].kind.OtherBlock? then [] else [PruneBlock(blocks[n])]
  }

  function PruneSystemBlocks(blocks: seq<Block>): seq<Block> {
    if blocks == [] then []
    else
      var n := |blocks| - 1;
      PruneSystemBlocks(blocks[..n]) + if blocks[n].kind == TextBlock then [blocks[n]] else []
  }

  function PruneSystem(c: Content): Content {
    if c.Blocks? then Blocks(PruneSystemBlocks(c.blocks)) else c
  }

  function PruneMessage(m: Message): Message {
    if m.role == "system" then m.(content := PruneSystem(m.content))
    else if m.content.Blocks? then m.(content := Blocks(PruneBlocks(m.content.blocks)))
    else m
  }

  function PruneMessages(messages: seq<Message>): seq<Message> {
    if messages == [] then []
    else
      var n := |messages| - 1;
      PruneMessages(messages[..n]) + [PruneMessage(messages[n])]
  }

  function PruneTools(tools: seq<Tool>): seq<Tool> {
    if tools == [] then []
    else
      var n := |tools| - 1;
      PruneTools(tools[..n]) + if ServerTool(tools[n]) then [] else [tools[n]]
  }

  function Prune(req: Request): Request {
    req.(system := PruneSystem(req.system), messages := PruneMessages(req.messages), tools := PruneTools(req.tools))
  }

  // ---- a deleted block must still carry a well-formed cache_control ----

  predicate DroppedResultFits(blocks: seq<Block>) {
    forall i :: 0 <= i < |blocks| ==> DroppedResultBlockFits(blocks[i])
  }

  predicate DroppedBlockFits(b: Block) {
    && (b.kind.OtherBlock? ==> !b.cacheControl.BadCache?)
    && (b.kind == ToolResultBlock && b.content.Blocks? ==> DroppedResultFits(b.content.blocks))
  }

  predicate DroppedFits(blocks: seq<Block>) {
    forall i :: 0 <= i < |blocks| ==> DroppedBlockFits(blocks[i])
  }

  predicate DroppedMessageFits(m: Message) {
    m.role != "system" && m.content.Blocks? ==> DroppedFits(m.content.blocks)
  }

  predicate DroppedMessagesFit(messages: seq<Message>) {
    forall i :: 0 <= i < |messages| ==> DroppedMessageFits(messages[i])
  }

  // ---- agreement, level by level ----

  // a (lenient) and b (strict, on the pruned input): b accepts and fits, exactly
  // when a accepts, and the results are the same.
  predicate Agree<T(==)>(a: Result<T>, b: Result<T>, fits: bool) {
    (a.Ok? <==> b.Ok? && fits) && (a.Ok? ==> a == b)
  }

  // s (strict) and a (lenient) on the same input: strict accepts exactly when
  // lenient does and nothing is unsupported.
  predicate Stricter<T(==)>(s: Result<T>, a: Result<T>, supported: bool) {
    (s.Ok? <==> a.Ok? && supported) && (s.Ok? ==> s == a)
  }

  lemma ThenEmpty<T>(r: Result<seq<T>>)
    ensures Then(r, Ok([])) == r
  {
    if r.Ok? {
      assert r.value + [] == r.value;
    }
  }

  predicate DroppedResultBlockFits(b: Block) {
    !IsPayload(b.kind) ==> !b.cacheControl.BadCache?
  }

  lemma ResultBlockModes(b: Block)
    ensures IsPayload(b.kind) ==> ResultBlock(b, true) == ResultBlock(b, false) && DroppedResultBlockFits(b)
    ensures !IsPayload(b.kind) ==>
      ResultBlock(b, true) == (if DroppedResultBlockFits(b) then Ok([]) else Err(BadCacheControl))
    ensures !IsPayload(b.kind) ==> ResultBlock(b, false).Err?
  {
  }

  lemma DroppedResultStep(blocks: seq<Block>)
    requires blocks != []
    ensures DroppedResultFits(blocks) <==>
      DroppedResultFits(blocks[..|blocks| - 1]) && DroppedResultBlockFits(blocks[|blocks| - 1])
  {
    var n := |blocks| - 1;
    if DroppedResultFits(blocks[..n]) && DroppedResultBlockFits(blocks[n]) {
      assert forall i :: 0 <= i < n ==> blocks[..n][i] == blocks[i];
    }
  }

  lemma {:induction false} ResultModes(blocks: seq<Block>)
    ensures Agree(ResultBlocks(blocks, true), ResultBlocks(PruneResult(blocks), false), DroppedResultFits(blocks))
  {
    if blocks != [] {
      var n := |blocks| - 1;
      var kept := PruneResult(blocks[..n]);
      ResultModes(blocks[..n]);
      DroppedResultStep(blocks);
      ResultBlockModes(blocks[n]);
      if IsPayload(blocks[n].kind) {
        DropLast(kept, blocks[n]);
      } else {
        assert PruneResult(blocks) == kept;
        ThenEmpty(ResultBlocks(blocks[..n], true));
      }
    }
  }

  predicate AllPayload(blocks: seq<Block>) {
    forall i :: 0 <= i < |blocks| ==> IsPayload(blocks[i].kind)
  }

  lemma AllPayloadStep(blocks: seq<Block>)
    requires blocks != []
    ensures AllPayload(blocks) <==> AllPayload(blocks[..|blocks| - 1]) && IsPayload(blocks[|blocks| - 1].kind)
  {
  }

  lemma {:induction false} ResultStricter(blocks: seq<Block>)
    ensures Stricter(ResultBlocks(blocks, false), ResultBlocks(blocks, true), AllPayload(blocks))
    ensures AllPayload(blocks) <==> PruneResult(blocks) == blocks
    ensures |PruneResult(blocks)| <= |blocks|
  {
    if blocks != [] {
      var n := |blocks| - 1;
      ResultStricter(blocks[..n]);
      ResultBlockModes(blocks[n]);
      AllPayloadStep(blocks);
      assert blocks == blocks[..n] + [blocks[n]];
    }
  }

  lemma ContentModes(c: Content)
    ensures Agree(ToolResultContent(c, true), ToolResultContent(PruneResultContent(c), false),
              c.Blocks? ==> DroppedResultFits(c.blocks))
    ensures Stricter(ToolResultContent(c, false), ToolResultContent(c, true), PruneResultContent(c) == c)
  {
    if c.Blocks? {
      ResultModes(c.blocks);
      ResultStricter(c.blocks);
    }
  }

  lemma BlockModes(role: string, b: Block)
    ensures !b.kind.OtherBlock? ==> Agree(BlockOf(role, b, true), BlockOf(role, PruneBlock(b), false), DroppedBlockFits(b))
    ensures b.kind.OtherBlock? ==> (BlockOf(role, b, true) == Ok(Empty) <==> DroppedBlockFits(b))
    ensures b.kind.OtherBlock? ==> (BlockOf(role, b, true).Ok? <==> DroppedBlockFits(b))
    ensures Stricter(BlockOf(role, b, false), BlockOf(role, b, true), !b.kind.OtherBlock? && PruneBlock(b) == b)
  {
    ContentModes(b.content);
  }

  lemma {:induction false} BlocksModes(role: string, blocks: seq<Block>)
    ensures Agree(BlocksOf(role, blocks, true), BlocksOf(role, PruneBlocks(blocks), false), DroppedFits(blocks))
  {
    if blocks != [] {
      var n := |blocks| - 1;
      var b, kept := blocks[n], PruneBlocks(blocks[..n]);
      BlocksModes(role, blocks[..n]);
      BlockModes(role, b);
      DroppedStep(blocks);
      if b.kind.OtherBlock? {
        assert PruneBlocks(blocks) == kept;
        JoinedEmpty(BlocksOf(role, blocks[..n], true));
      } else {
        DropLast(kept, PruneBlock(b));
        JoinAgrees(BlocksOf(role, blocks[..n], true), BlocksOf(role, kept, false), DroppedFits(blocks[..n]),
          BlockOf(role, b, true), BlockOf(role, PruneBlock(b), false), DroppedBlockFits(b));
      }
    }
  }

  lemma DroppedStep(blocks: seq<Block>)
    requires blocks != []
    ensures DroppedFits(blocks) <==> DroppedFits(blocks[..|blocks| - 1]) && DroppedBlockFits(blocks[|blocks| - 1])
  {
  }

  lemma JoinAgrees(
    a: Result<Gathered>, b: Result<Gathered>, fits: bool, c: Result<Gathered>, d: Result<Gathered>, more: bool)
    requires Agree(a, b, fits) && Agree(c, d, more)
    ensures Agree(AndThen(a, c), AndThen(b, d), fits && more)
  {
  }

  lemma JoinedEmpty(r: Result<Gathered>)
    ensures AndThen(r, Ok(Empty)) == r
  {
    if r.Ok? {
      assert r.value.toolMessages + [] == r.value.toolMessages;
      assert r.value.parts + [] == r.value.parts;
      assert r.value.toolCalls + [] == r.value.toolCalls;
      assert r.value.thinking + [] == r.value.thinking;
    }
  }

  // Nothing to delete in one block.
  predicate Clean(b: Block) {
    !b.kind.OtherBlock? && PruneBlock(b) == b
  }

  lemma {:induction false} BlocksStricter(role: string, blocks: seq<Block>)
    ensures Stricter(BlocksOf(role, blocks, false), BlocksOf(role, blocks, true), PruneBlocks(blocks) == blocks)
    ensures |PruneBlocks(blocks)| <= |blocks|
  {
    if blocks != [] {
      var n := |blocks| - 1;
      BlocksStricter(role, blocks[..n]);
      BlockModes(role, blocks[n]);
      PruneBlocksSame(blocks);
    }
  }

  lemma PruneBlocksSame(blocks: seq<Block>)
    requires blocks != [] && |PruneBlocks(blocks[..|blocks| - 1])| <= |blocks| - 1
    ensures var n := |blocks| - 1;
      PruneBlocks(blocks) == blocks <==> PruneBlocks(blocks[..n]) == blocks[..n] && Clean(blocks[n])
    ensures |PruneBlocks(blocks)| <= |blocks|
  {
    var n := |blocks| - 1;
    var kept := PruneBlocks(blocks[..n]);
    assert blocks == blocks[..n] + [blocks[n]];
    if !blocks[n].kind.OtherBlock? && kept + [PruneBlock(blocks[n])] == blocks {
      DropLast(kept, PruneBlock(blocks[n]));
    }
  }

  lemma {:induction false} SystemBlocksModes(blocks: seq<Block>)
    ensures Agree(SystemBlocks(blocks, true), SystemBlocks(PruneSystemBlocks(blocks), false), true)
    ensures Stricter(SystemBlocks(blocks, false), SystemBlocks(blocks, true), PruneSystemBlocks(blocks) == blocks)
    ensures |PruneSystemBlocks(blocks)| <= |blocks|
  {
    if blocks != [] {
      var n := |blocks| - 1;
      var kept := PruneSystemBlocks(blocks[..n]);
      SystemBlocksModes(blocks[..n]);
      assert blocks == blocks[..n] + [blocks[n]];
      if blocks[n].kind == TextBlock {
        DropLast(kept, blocks[n]);
      } else {
        assert PruneSystemBlocks(blocks) == kept;
        ThenEmpty(SystemBlocks(blocks[..n], true));
      }
    }
  }

  lemma SystemModes(c: Content)
    ensures Agree(SystemMessage(c, true), SystemMessage(PruneSystem(c), false), true)
    ensures Stricter(SystemMessage(c, false), SystemMessage(c, true), PruneSystem(c) == c)
  {
    if c.Blocks? {
      SystemBlocksModes(c.blocks);
    }
  }

  lemma MessageModes(m: Message)
    ensures Agree(MessageOf(m, true), MessageOf(PruneMessage(m), false), DroppedMessageFits(m))
    ensures Stricter(MessageOf(m, false), MessageOf(m, true), PruneMessage(m) == m)
  {
    SystemModes(m.content);
    if m.content.Blocks? {
      BlocksModes(m.role, m.content.blocks);
      BlocksStricter(m.role, m.content.blocks);
    }
  }

  lemma DroppedMessagesStep(messages: seq<Message>)
    requires messages != []
    ensures DroppedMessagesFit(messages) <==>
      DroppedMessagesFit(messages[..|messages| - 1]) && DroppedMessageFits(messages[|messages| - 1])
  {
    var n := |messages| - 1;
    if DroppedMessagesFit(messages[..n]) && DroppedMessageFits(messages[n]) {
      assert forall i :: 0 <= i < n ==> messages[..n][i] == messages[i];
    }
  }

  lemma ThenAgrees<T>(a: Result<seq<T>>, b: Result<seq<T>>, fits: bool, c: Result<seq<T>>, d: Result<seq<T>>, more: bool)
    requires Agree(a, b, fits) && Agree(c, d, more)
    ensures Agree(Then(a, c), Then(b, d), fits && more)
  {
  }

  lemma ThenStricter<T>(a: Result<seq<T>>, b: Result<seq<T>>, clean: bool, c: Result<seq<T>>, d: Result<seq<T>>, more: bool)
    requires Stricter(a, b, clean) && Stricter(c, d, more)
    ensures Stricter(Then(a, c), Then(b, d), clean && more)
  {
  }

  lemma {:induction false} MessagesModes(messages: seq<Message>)
    ensures Agree(MessagesOf(messages, true), MessagesOf(PruneMessages(messages), false), DroppedMessagesFit(messages))
    ensures |PruneMessages(messages)| == |messages|
  {
    if messages != [] {
      var n := |messages| - 1;
      var kept := PruneMessages(messages[..n]);
      MessagesModes(messages[..n]);
      MessageModes(messages[n]);
      DroppedMessagesStep(messages);
      DropLast(kept, PruneMessage(messages[n]));
      ThenAgrees(MessagesOf(messages[..n], true), MessagesOf(kept, false), DroppedMessagesFit(messages[..n]),
        AtMessage(n, MessageOf(messages[n], true)), AtMessage(n, MessageOf(PruneMessage(messages[n]), false)),
        DroppedMessageFits(messages[n]));
    }
  }

  lemma PrunedSame(messages: seq<Message>, m: Message, pruned: seq<Message>, p: Message)
    requires |pruned| == |messages|
    ensures pruned + [p] == messages + [m] <==> pruned == messages && p == m
  {
    if pruned + [p] == messages + [m] {
      DropLast(pruned, p);
      DropLast(messages, m);
    }
  }

  ghost predicate MessagesAreStricter(messages: seq<Message>) {
    && Stricter(MessagesOf(messages, false), MessagesOf(messages, true), PruneMessages(messages) == messages)
    && |PruneMessages(messages)| == |messages|
  }

  lemma {:induction false} MessagesStricter(messages: seq<Message>)
    ensures MessagesAreStricter(messages)
  {
    if messages != [] {
      var n := |messages| - 1;
      MessagesStricter(messages[..n]);
      StricterSnoc(messages[..n], messages[n], messages);
    }
  }

  lemma StricterSnoc(messages: seq<Message>, m: Message, more: seq<Message>)
    requires MessagesAreStricter(messages) && more == messages + [m]
    ensures MessagesAreStricter(more)
  {
    DropLast(messages, m);
    var n := |messages|;
    MessageModes(m);
    PrunedSame(messages, m, PruneMessages(messages), PruneMessage(m));
    ThenStricter(MessagesOf(messages, false), MessagesOf(messages, true), PruneMessages(messages) == messages,
      AtMessage(n, MessageOf(m, false)), AtMessage(n, MessageOf(m, true)), PruneMessage(m) == m);
  }

  // ---- tools ----

  lemma ToolModes(t: Tool, i: nat, j: nat)
    ensures ServerTool(t) ==> ToolOf(t, true) == Ok([])
    ensures !ServerTool(t) ==> Agree(AtTool(i, ToolOf(t, true)), AtTool(j, ToolOf(t, false)), true)
  {
  }

  lemma {:induction false} ToolsModes(tools: seq<Tool>)
    ensures Agree(ToolsOf(tools, true), ToolsOf(PruneTools(tools), false), true)
  {
    if tools != [] {
      var n := |tools| - 1;
      var t, kept := tools[n], PruneTools(tools[..n]);
      ToolsModes(tools[..n]);
      ToolModes(t, n, |kept|);
      if ServerTool(t) {
        assert PruneTools(tools) == kept;
        ThenEmpty(ToolsOf(tools[..n], true));
      } else {
        DropLast(kept, t);
        ThenAgrees(ToolsOf(tools[..n], true), ToolsOf(kept, false), true,
          AtTool(n, ToolOf(t, true)), AtTool(|kept|, ToolOf(t, false)), true);
      }
    }
  }

  lemma {:induction false} ToolsStricter(tools: seq<Tool>)
    ensures Stricter(ToolsOf(tools, false), ToolsOf(tools, true), PruneTools(tools) == tools)
    ensures |PruneTools(tools)| <= |tools|
  {
    if tools != [] {
      var n := |tools| - 1;
      var t := tools[n];
      ToolsStricter(tools[..n]);
      PruneToolsSame(tools[..n], t, PruneTools(tools[..n]), ServerTool(t));
      assert tools == tools[..n] + [t];
      ToolStricter(t, n);
      ThenStricter(ToolsOf(tools[..n], false), ToolsOf(tools[..n], true), PruneTools(tools[..n]) == tools[..n],
        AtTool(n, ToolOf(t, false)), AtTool(n, ToolOf(t, true)), !ServerTool(t));
    }
  }

  lemma ToolStricter(t: Tool, i: nat)
    ensures Stricter(AtTool(i, ToolOf(t, false)), AtTool(i, ToolOf(t, true)), !ServerTool(t))
  {
  }

  lemma PruneToolsSame(tools: seq<Tool>, t: Tool, kept: seq<Tool>, drop: bool)
    requires |kept| <= |tools|
    ensures kept + (if drop then [] else [t]) == tools + [t] <==> kept == tools && !drop
  {
    if !drop && kept + [t] == tools + [t] {
      DropLast(kept, t);
      DropLast(tools, t);
    }
  }

  // ---- the whole request ----

  // The tools of the request are all built-in ones, and there are some.
  predicate OnlyServerTools(tools: seq<Tool>) {
    tools != [] && forall i :: 0 <= i < |tools| ==> ServerTool(tools[i])
  }

  lemma PruneToolsStep(tools: seq<Tool>)
    requires tools != []
    ensures PruneTools(tools) == [] <==> PruneTools(tools[..|tools| - 1]) == [] && ServerTool(tools[|tools| - 1])
  {
  }

  lemma {:induction false} PrunedToNothing(tools: seq<Tool>)
    ensures PruneTools(tools) == [] <==> forall i :: 0 <= i < |tools| ==> ServerTool(tools[i])
  {
    if tools != [] {
      var n := |tools| - 1;
      PruneToolsStep(tools);
      PrunedToNothing(tools[..n]);
      assert forall i :: 0 <= i < n ==> tools[..n][i] == tools[i];
    }
  }

  predicate DroppedFitsIn(request: Option<Request>) {
    request.Some? ==> DroppedMessagesFit(request.value.messages)
  }

  function PruneRequest(request: Option<Request>): Option<Request> {
    if request.Some? then Some(Prune(request.value)) else None
  }

  // Lenient accepts a request exactly when strict accepts the pruned request
  // and no deleted block has a malformed cache_control.
  lemma LenientAccepts(request: Option<Request>)
    ensures ToChat(request, true).Ok? <==> ToChat(PruneRequest(request), false).Ok? && DroppedFitsIn(request)
  {
    if request.Some? {
      var req := request.value;
      RequestParts(req);
      RequestAccepted(req, true);
      RequestAccepted(Prune(req), false);
    }
  }

  // The checks of a request that do not depend on the mode.
  predicate Plausible(req: Request) {
    TrimSpace(req.model) != "" && req.maxTokens > 0 && req.messages != [] && !req.cacheControl.BadCache?
  }

  lemma RequestAccepted(req: Request, lenient: bool)
    ensures ToChat(Some(req), lenient).Ok? <==>
      Plausible(req) && ConvertMessages(req, lenient).Ok? && ConvertTools(req.tools, lenient).Ok?
    ensures ToChat(Some(req), lenient).Ok? ==>
      ToChat(Some(req), lenient)
        == Ok(Chat(req, ConvertMessages(req, lenient).value, ConvertTools(req.tools, lenient).value))
  {
  }

  lemma RequestParts(req: Request)
    ensures Agree(ConvertMessages(req, true), ConvertMessages(Prune(req), false), DroppedMessagesFit(req.messages))
    ensures |PruneMessages(req.messages)| == |req.messages|
    ensures ConvertTools(req.tools, true).Ok? <==> ConvertTools(PruneTools(req.tools), false).Ok?
  {
    SystemModes(req.system);
    MessagesModes(req.messages);
    ThenAgrees(SystemMessage(req.system, true), SystemMessage(PruneSystem(req.system), false), true,
      MessagesOf(req.messages, true), MessagesOf(PruneMessages(req.messages), false), DroppedMessagesFit(req.messages));
    ToolsModes(req.tools);
  }

  // And then both build the same chat request, except that a request whose
  // tools are all built-in ones keeps an empty tool list where the pruned one
  // has none.
  lemma LenientIsStrictOnPruned(request: Option<Request>)
    requires ToChat(request, true).Ok?
    ensures ToChat(PruneRequest(request), false).Ok?
    ensures var lenient, strict := ToChat(request, true).value, ToChat(PruneRequest(request), false).value;
      && lenient == strict.(tools := lenient.tools)
      && (lenient == strict <==> !OnlyServerTools(request.value.tools))
      && (OnlyServerTools(request.value.tools) ==> lenient.tools == Some([]) && strict.tools == None)
  {
    var req := request.value;
    RequestParts(req);
    LenientAccepts(request);
    RequestAccepted(req, true);
    RequestAccepted(Prune(req), false);
    PrunedTools(req.tools);
    SameChat(req, Prune(req));
  }

  lemma PrunedTools(tools: seq<Tool>)
    requires ConvertTools(tools, true).Ok?
    ensures var lenient, strict := ConvertTools(tools, true), ConvertTools(PruneTools(tools), false);
      && strict.Ok?
      && (lenient == strict <==> !OnlyServerTools(tools))
      && (OnlyServerTools(tools) ==> lenient == Ok(Some([])) && strict == Ok(None))
  {
    PrunedToNothing(tools);
    ToolsModes(tools);
  }

  lemma SameChat(a: Request, b: Request)
    requires b == a.(system := b.system, messages := b.messages, tools := b.tools)
    ensures forall messages, tools :: Chat(a, messages, tools) == Chat(b, messages, tools)
  {
  }

  // Strict accepts a request exactly when lenient does and there is nothing to
  // delete, and then lenient builds the same chat request.
  lemma StrictAccepts(request: Option<Request>)
    ensures ToChat(request, false).Ok? <==> ToChat(request, true).Ok? && PruneRequest(request) == request
    ensures ToChat(request, false).Ok? ==> ToChat(request, false) == ToChat(request, true)
  {
    if request.Some? {
      var req := request.value;
      RequestAccepted(req, true);
      RequestAccepted(req, false);
      PartsStricter(req);
      PruneIsSame(req);
    }
  }

  lemma PartsStricter(req: Request)
    ensures Stricter(ConvertMessages(req, false), ConvertMessages(req, true),
      PruneSystem(req.system) == req.system && PruneMessages(req.messages) == req.messages)
    ensures Stricter(ConvertTools(req.tools, false), ConvertTools(req.tools, true), PruneTools(req.tools) == req.tools)
  {
    SystemModes(req.system);
    MessagesStricter(req.messages);
    ToolsStricter(req.tools);
    ThenStricter(SystemMessage(req.system, false), SystemMessage(req.system, true), PruneSystem(req.system) == req.system,
      MessagesOf(req.messages, false), MessagesOf(req.messages, true), PruneMessages(req.messages) == req.messages);
  }

  lemma PruneIsSame(req: Request)
    ensures Prune(req) == req <==>
      PruneSystem(req.system) == req.system && PruneMessages(req.messages) == req.messages && PruneTools(req.tools) == req.tools
  {
  }
}
