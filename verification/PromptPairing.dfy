// Tool calls and their results after removals: what a nil Validate means, and
// repairing a prompt by removing the partner it reports.

module PromptPairing {
  import opened Prelude
  import opened PromptModel
  import opened PromptFaithful
  import opened Prompts

  // The message holds the call (or the result) with this ID.
  ghost predicate HasTool(m: MessageV, results: bool, callId: string) {
    exists k :: 0 <= k < |m.parts| && Holds(m.parts[k], results, callId)
  }

  ghost predicate Present(ms: seq<MessageV>, results: bool, callId: string) {
    exists i :: 0 <= i < |ms| && HasTool(ms[i], results, callId)
  }

  // Every call has its result and every result its call.
  ghost predicate Paired(ms: seq<MessageV>) {
    forall callId :: Present(ms, false, callId) <==> Present(ms, true, callId)
  }

  // No call, and no result, is on both sides.
  ghost predicate Disjoint(a: seq<MessageV>, b: seq<MessageV>) {
    forall results, callId :: !(Present(a, results, callId) && Present(b, results, callId))
  }

  ghost predicate ToolFree(m: MessageV) {
    forall results, callId :: !HasTool(m, results, callId)
  }

  // No two messages hold the same call, and no two the same result.
  ghost predicate UniqueHolders(ms: seq<MessageV>) {
    forall i, j, results, callId ::
      0 <= i < j < |ms| ==> !(HasTool(ms[i], results, callId) && HasTool(ms[j], results, callId))
  }

  // ---- what Validate finds ----

  // No part that was removed has its partner, of the other kind, still present.
  ghost predicate Broken(v: PromptV, results: bool, callId: string) {
    Present(v.removed, results, callId) && Present(v.messages, !results, callId)
  }

  ghost predicate NothingBroken(v: PromptV) {
    forall results, callId :: !Broken(v, results, callId)
  }

  // Pairs are broken, and the first holder of every partner left behind is a
  // message without an ID.
  ghost predicate Hidden(v: PromptV) {
    && (exists results, callId :: Broken(v, results, callId))
    && (forall results, callId :: Broken(v, results, callId) ==> Holder(v.messages, !results, callId) == "")
  }

  // Message i is the first that holds the call or the result.
  ghost predicate FirstHolder(ms: seq<MessageV>, i: nat, results: bool, callId: string) {
    && i < |ms| && HasTool(ms[i], results, callId)
    && (forall j :: 0 <= j < i ==> !HasTool(ms[j], results, callId))
  }

  lemma {:induction false} HolderIsFirst(ms: seq<MessageV>, results: bool, callId: string)
    ensures !Present(ms, results, callId) ==> Holder(ms, results, callId) == ""
    ensures Present(ms, results, callId) ==>
      exists i: nat :: FirstHolder(ms, i, results, callId) && ms[i].id == Holder(ms, results, callId)
  {
    if ms != [] {
      var k := FindPart(ms[0].parts, results, callId);
      if k < |ms[0].parts| {
        assert HasTool(ms[0], results, callId);
        assert FirstHolder(ms, 0, results, callId);
      } else {
        assert !HasTool(ms[0], results, callId);
        PresentSplit(ms, results, callId);
        HolderIsFirst(ms[1..], results, callId);
        if Present(ms[1..], results, callId) {
          var i: nat :| FirstHolder(ms[1..], i, results, callId) && ms[1..][i].id == Holder(ms, results, callId);
          LaterHolder(ms, i, results, callId);
        }
      }
    }
  }

  lemma LaterHolder(ms: seq<MessageV>, i: nat, results: bool, callId: string)
    requires ms != [] && !HasTool(ms[0], results, callId) && FirstHolder(ms[1..], i, results, callId)
    ensures FirstHolder(ms, i + 1, results, callId) && ms[i + 1] == ms[1..][i]
  {
    forall j | 0 <= j < i + 1
      ensures !HasTool(ms[j], results, callId)
    {
      assert j > 0 ==> ms[j] == ms[1..][j - 1];
    }
  }

  lemma PresentSplit(ms: seq<MessageV>, results: bool, callId: string)
    requires ms != []
    ensures Present(ms, results, callId) <==> HasTool(ms[0], results, callId) || Present(ms[1..], results, callId)
  {
    if Present(ms[1..], results, callId) {
      var i :| 0 <= i < |ms[1..]| && HasTool(ms[1..][i], results, callId);
      assert HasTool(ms[i + 1], results, callId);
    }
    if i :| 0 <= i < |ms| && HasTool(ms[i], results, callId) && i > 0 {
      assert HasTool(ms[1..][i - 1], results, callId);
    }
  }

  lemma PresentAppend(a: seq<MessageV>, b: seq<MessageV>, results: bool, callId: string)
    ensures Present(a + b, results, callId) <==> Present(a, results, callId) || Present(b, results, callId)
  {
    if i :| 0 <= i < |a| && HasTool(a[i], results, callId) {
      assert HasTool((a + b)[i], results, callId);
    }
    if i :| 0 <= i < |b| && HasTool(b[i], results, callId) {
      assert HasTool((a + b)[|a| + i], results, callId);
    }
    if i :| 0 <= i < |a + b| && HasTool((a + b)[i], results, callId) {
      if i < |a| {
        assert HasTool(a[i], results, callId);
      } else {
        assert HasTool(b[i - |a|], results, callId);
      }
    }
  }

  lemma PresentOne(m: MessageV, results: bool, callId: string)
    ensures Present([m], results, callId) <==> HasTool(m, results, callId)
  {
    assert [m][0] == m;
  }

  // The lookup finds no partner of the part.
  ghost predicate PartnerUnseen(ms: seq<MessageV>, p: Part) {
    forall results, callId :: Holds(p, results, callId) ==> Holder(ms, !results, callId) == ""
  }

  lemma PartnerOfMeans(ms: seq<MessageV>, m: MessageV, p: Part)
    ensures PartnerOf(ms, m, p).None? <==> PartnerUnseen(ms, p)
  {
    if p.kind == ToolCallPart && p.call.Some? {
      assert Holds(p, false, p.call.value.id);
    } else if p.kind == ToolResultPart && p.result.Some? {
      assert Holds(p, true, p.result.value.callId);
    }
  }

  lemma {:induction false} DanglingPartMeans(ms: seq<MessageV>, m: MessageV, parts: seq<Part>)
    ensures DanglingPart(ms, m, parts).None? <==> forall k :: 0 <= k < |parts| ==> PartnerUnseen(ms, parts[k])
  {
    if parts != [] {
      PartnerOfMeans(ms, m, parts[0]);
      DanglingPartMeans(ms, m, parts[1..]);
      assert forall k :: 1 <= k < |parts| ==> parts[k] == parts[1..][k - 1];
    }
  }

  // The lookup finds no partner of any part of m.
  ghost predicate Detached(ms: seq<MessageV>, m: MessageV) {
    forall results, callId :: HasTool(m, results, callId) ==> Holder(ms, !results, callId) == ""
  }

  lemma DanglingMeans(ms: seq<MessageV>, m: MessageV)
    ensures DanglingIn(ms, m).None? <==> Detached(ms, m)
  {
    DanglingPartMeans(ms, m, m.parts);
    if Detached(ms, m) {
      forall k | 0 <= k < |m.parts|
        ensures PartnerUnseen(ms, m.parts[k])
      {
        assert forall results, callId :: Holds(m.parts[k], results, callId) ==> HasTool(m, results, callId);
      }
    }
  }

  lemma {:induction false} ValidateFromMeans(ms: seq<MessageV>, removed: seq<MessageV>)
    ensures ValidateFrom(ms, removed).None? <==> forall i :: 0 <= i < |removed| ==> Detached(ms, removed[i])
  {
    if removed != [] {
      DanglingMeans(ms, removed[0]);
      ValidateFromMeans(ms, removed[1..]);
      assert forall i :: 1 <= i < |removed| ==> removed[i] == removed[1..][i - 1];
    }
  }

  // No lookup for a removed part finds a partner.
  ghost predicate NothingSeen(v: PromptV) {
    forall results, callId :: Present(v.removed, results, callId) ==> Holder(v.messages, !results, callId) == ""
  }

  lemma ValidateSees(v: PromptV)
    ensures Validate(v).None? <==> NothingSeen(v)
  {
    ValidateFromMeans(v.messages, v.removed);
    if Validate(v).None? {
      forall results, callId | Present(v.removed, results, callId)
        ensures Holder(v.messages, !results, callId) == ""
      {
        var i :| 0 <= i < |v.removed| && HasTool(v.removed[i], results, callId);
        assert Detached(v.messages, v.removed[i]);
      }
    }
    if NothingSeen(v) {
      forall i | 0 <= i < |v.removed|
        ensures Detached(v.messages, v.removed[i])
      {
        assert forall results, callId :: HasTool(v.removed[i], results, callId) ==> Present(v.removed, results, callId);
      }
    }
  }

  // For every prompt: Validate is nil exactly when no pair is broken, or pairs
  // are broken and every partner left behind is hidden in a message without an ID.
  lemma ValidateMeans(v: PromptV)
    ensures Validate(v).None? <==> NothingBroken(v) || Hidden(v)
    ensures (Validate(v).None? <==> NothingBroken(v)) <==> !Hidden(v)
  {
    ValidateSees(v);
    if NothingSeen(v) && !NothingBroken(v) {
      assert Hidden(v);
    }
    if NothingBroken(v) || Hidden(v) {
      forall results, callId | Present(v.removed, results, callId)
        ensures Holder(v.messages, !results, callId) == ""
      {
        HolderIsFirst(v.messages, !results, callId);
        assert !Present(v.messages, !results, callId) || Broken(v, results, callId);
      }
    }
  }

  // Every message that holds a tool part has an ID.
  ghost predicate NamedHolders(ms: seq<MessageV>) {
    forall i :: 0 <= i < |ms| && ms[i].id == "" ==> ToolFree(ms[i])
  }

  lemma NamedIsSeen(v: PromptV)
    requires NamedHolders(v.messages)
    ensures !Hidden(v)
  {
    forall results, callId | Present(v.messages, results, callId)
      ensures Holder(v.messages, results, callId) != ""
    {
      HolderIsFirst(v.messages, results, callId);
    }
    if results, callId :| Broken(v, results, callId) {
      assert Holder(v.messages, !results, callId) != "";
    }
  }

  // ---- the invariant of a run that inserts no tool parts ----

  predicate InsertsMessage(e: Edit) {
    e.InsertEdit? || e.AppendEdit?
  }

  ghost predicate InsertsNoTool(e: Edit) {
    InsertsMessage(e) ==> ToolFree(e.m)
  }

  // Calls and results are conserved: present or removed.
  ghost predicate AccountedFor(original: seq<MessageV>, v: PromptV) {
    forall results, callId ::
      Present(original, results, callId) <==> Present(v.messages, results, callId) || Present(v.removed, results, callId)
  }

  ghost predicate InsertedAreFree(v: PromptV) {
    forall m :: m in v.messages && InsertedHere(v.changes, m.id) ==> ToolFree(m)
  }

  ghost predicate ToolsKept(original: PromptV, v: PromptV) {
    && Faithful(original, v)
    && AccountedFor(original.messages, v)
    && InsertedAreFree(v)
  }

  ghost predicate SameTools(a: seq<MessageV>, b: seq<MessageV>) {
    |a| == |b| && forall i :: 0 <= i < |a| ==> SameToolsIn(a[i], b[i])
  }

  ghost predicate SameToolsIn(a: MessageV, b: MessageV) {
    forall results, callId :: HasTool(a, results, callId) <==> HasTool(b, results, callId)
  }

  lemma PartEditTools(m: MessageV, p: nat, part: Part)
    requires p < |m.parts| && SameTool(m.parts[p], part)
    ensures SameToolsIn(m, m.(parts := m.parts[p := part]))
  {
    var n := m.(parts := m.parts[p := part]);
    forall results, callId
      ensures HasTool(m, results, callId) <==> HasTool(n, results, callId)
    {
      assert forall k :: 0 <= k < |m.parts| ==>
        (Holds(m.parts[k], results, callId) <==> Holds(n.parts[k], results, callId));
      if k :| 0 <= k < |m.parts| && Holds(m.parts[k], results, callId) {
        assert Holds(n.parts[k], results, callId);
      }
    }
  }

  lemma SamePresent(a: seq<MessageV>, b: seq<MessageV>, results: bool, callId: string)
    requires SameTools(a, b)
    ensures Present(a, results, callId) <==> Present(b, results, callId)
  {
    if i :| 0 <= i < |a| && HasTool(a[i], results, callId) {
      assert SameToolsIn(a[i], b[i]);
    }
    if i :| 0 <= i < |b| && HasTool(b[i], results, callId) {
      assert SameToolsIn(a[i], b[i]);
    }
  }

  lemma WrittenTools(v: PromptV, w: PromptV, i: nat, p: nat, part: Part)
    requires PartWritten(v, w, i, p, part)
    ensures SameTools(v.messages, w.messages)
  {
    PartEditTools(v.messages[i], p, part);
  }

  lemma PartEditKeepsTools(original: PromptV, v: PromptV, w: PromptV)
    requires ToolsKept(original, v) && PartEdit(v, w)
    ensures ToolsKept(original, w)
  {
    if w != v {
      var i: nat, p: nat, part :| PartWritten(v, w, i, p, part);
      WrittenKeepsTools(original, v, w, i, p, part);
    }
  }

  lemma WrittenKeepsTools(original: PromptV, v: PromptV, w: PromptV, i: nat, p: nat, part: Part)
    requires ToolsKept(original, v) && PartWritten(v, w, i, p, part)
    ensures ToolsKept(original, w)
  {
    PartEditKeeps(original, v, i, p, part);
    WrittenTools(v, w, i, p, part);
    SameAccount(original.messages, v, w);
    WrittenFree(v, w, i, p, part);
  }

  lemma SameAccount(original: seq<MessageV>, v: PromptV, w: PromptV)
    requires AccountedFor(original, v) && SameTools(v.messages, w.messages) && w.removed == v.removed
    ensures AccountedFor(original, w)
  {
    forall results, callId
      ensures Present(v.messages, results, callId) <==> Present(w.messages, results, callId)
    {
      SamePresent(v.messages, w.messages, results, callId);
    }
  }

  lemma WrittenFree(v: PromptV, w: PromptV, i: nat, p: nat, part: Part)
    requires InsertedAreFree(v) && PartWritten(v, w, i, p, part)
    ensures InsertedAreFree(w)
  {
    WrittenTools(v, w, i, p, part);
    forall m | m in w.messages && InsertedHere(w.changes, m.id)
      ensures ToolFree(m)
    {
      var k :| 0 <= k < |w.messages| && w.messages[k] == m;
      assert SameToolsIn(v.messages[k], w.messages[k]);
      assert v.messages[k] in v.messages && InsertedHere(v.changes, m.id);
    }
  }

  lemma InsertKeepsTools(original: PromptV, v: PromptV, at: int, m: MessageV)
    requires ToolsKept(original, v) && ToolFree(m)
    ensures ToolsKept(original, Insert(v, at, m).0)
  {
    var (w, id) := Insert(v, at, m);
    var a := Clamp(at, |v.messages|);
    InsertKeeps(original, v, at, m);
    RenamedFree(m, id);
    forall results, callId
      ensures Present(v.messages, results, callId) <==> Present(w.messages, results, callId)
    {
      InsertedPresent(v.messages, a, m.(id := id), results, callId);
    }
    InsertedFree(original, v, at, m);
  }

  lemma RenamedFree(m: MessageV, id: string)
    requires ToolFree(m)
    ensures ToolFree(m.(id := id))
  {
    assert forall results, callId :: HasTool(m.(id := id), results, callId) <==> HasTool(m, results, callId);
  }

  lemma InsertedFree(original: PromptV, v: PromptV, at: int, m: MessageV)
    requires ToolsKept(original, v) && ToolFree(m)
    ensures InsertedAreFree(Insert(v, at, m).0)
  {
    var (w, id) := Insert(v, at, m);
    var n := m.(id := id);
    RenamedFree(m, id);
    FreshId(original, v);
    forall x | x in w.messages && InsertedHere(w.changes, x.id)
      ensures ToolFree(x)
    {
      if x != n {
        assert x in v.messages;
        IdIn(v.messages, x);
      }
    }
  }

  lemma InsertedPresent(ms: seq<MessageV>, a: nat, m: MessageV, results: bool, callId: string)
    requires a <= |ms| && ToolFree(m)
    ensures Present(ms[..a] + [m] + ms[a..], results, callId) <==> Present(ms, results, callId)
  {
    PresentAppend(ms[..a] + [m], ms[a..], results, callId);
    PresentAppend(ms[..a], [m], results, callId);
    PresentOne(m, results, callId);
    PresentAppend(ms[..a], ms[a..], results, callId);
    assert ms[..a] + ms[a..] == ms;
  }

  lemma RemovedPresent(ms: seq<MessageV>, i: nat, results: bool, callId: string)
    requires i < |ms|
    ensures Present(ms, results, callId) <==> Present(RemoveAt(ms, i), results, callId) || HasTool(ms[i], results, callId)
  {
    PresentAppend(ms[..i] + [ms[i]], ms[i + 1..], results, callId);
    PresentAppend(ms[..i], [ms[i]], results, callId);
    PresentOne(ms[i], results, callId);
    PresentAppend(ms[..i], ms[i + 1..], results, callId);
    assert ms[..i] + [ms[i]] + ms[i + 1..] == ms;
  }

  lemma RemoveKeepsTools(original: PromptV, v: PromptV, i: nat)
    requires ToolsKept(original, v) && i < |v.messages|
    ensures ToolsKept(original, RemoveFound(v, i))
  {
    var w := RemoveFound(v, i);
    RemoveKeeps(original, v, i);
    RemovedFree(v, i);
    forall results, callId
      ensures Present(v.messages, results, callId) || Present(v.removed, results, callId)
         <==> Present(w.messages, results, callId) || Present(w.removed, results, callId)
    {
      RemovedPresent(v.messages, i, results, callId);
      PresentAppend(v.removed, [v.messages[i]], results, callId);
      PresentOne(v.messages[i], results, callId);
      assert v.messages[i] in v.messages;
    }
  }

  lemma RemovedFree(v: PromptV, i: nat)
    requires InsertedAreFree(v) && i < |v.messages|
    ensures InsertedAreFree(RemoveFound(v, i))
  {
    forall m | m in RemoveAt(v.messages, i)
      ensures m in v.messages
    {
    }
  }

  lemma EditKeepsTools(original: PromptV, v: PromptV, e: Edit, jsonValid: string -> bool)
    requires ToolsKept(original, v) && InsertsNoTool(e)
    ensures ToolsKept(original, Apply(v, e, jsonValid))
  {
    match e
    case InsertEdit(at, m) => InsertKeepsTools(original, v, at, m);
    case AppendEdit(m) => InsertKeepsTools(original, v, |v.messages|, m);
    case RemoveEdit(id) => RemoveEditKeepsTools(original, v, id);
    case ParamEdit(name, value) => ParamKeepsTools(original, v, name, value);
    case _ =>
      RewriteIsPartEdit(v, e, jsonValid);
      PartEditKeepsTools(original, v, Apply(v, e, jsonValid));
  }

  lemma RemoveEditKeepsTools(original: PromptV, v: PromptV, id: string)
    requires ToolsKept(original, v)
    ensures ToolsKept(original, Remove(v, id).0)
  {
    if Find(v.messages, id) < |v.messages| {
      RemoveKeepsTools(original, v, Find(v.messages, id));
    }
  }

  lemma ParamKeepsTools(original: PromptV, v: PromptV, name: string, value: Value)
    requires ToolsKept(original, v)
    ensures ToolsKept(original, SetParam(v, name, value))
  {
    ParamKeeps(original, v, name, value);
  }

  lemma {:induction false} RunKeepsTools(v: PromptV, edits: seq<Edit>, jsonValid: string -> bool)
    requires Distinct(Ids(v.messages))
    requires forall i :: 0 <= i < |edits| ==> InsertsNoTool(edits[i])
    ensures ToolsKept(Reset(v), Run(Reset(v), edits, jsonValid))
  {
    if edits == [] {
      ResetIsFaithful(v);
    } else {
      var n := |edits| - 1;
      RunKeepsTools(v, edits[..n], jsonValid);
      EditKeepsTools(Reset(v), Run(Reset(v), edits[..n], jsonValid), edits[n], jsonValid);
    }
  }

  // ---- what a nil Validate means after a run ----

  // With every call and result accounted for, no pair is broken exactly when the
  // conversation is paired and no call or result is on both sides.
  lemma BrokenMeans(original: PromptV, w: PromptV)
    requires AccountedFor(original.messages, w) && Paired(original.messages)
    ensures NothingBroken(w) <==> Paired(w.messages) && Disjoint(w.messages, w.removed)
  {
    if NothingBroken(w) {
      forall callId
        ensures Present(w.messages, false, callId) <==> Present(w.messages, true, callId)
        ensures !(Present(w.messages, false, callId) && Present(w.removed, false, callId))
        ensures !(Present(w.messages, true, callId) && Present(w.removed, true, callId))
      {
        assert Present(original.messages, false, callId) <==> Present(original.messages, true, callId);
        assert !Broken(w, false, callId) && !Broken(w, true, callId);
      }
      assert Paired(w.messages);
    }
  }

  // From a paired conversation, after any run of edits that inserts no tool
  // part: Validate is nil exactly when the conversation is still paired and no
  // call or result has one holder removed and another present, or when every
  // partner left behind is hidden.
  lemma ValidateAfterRun(v: PromptV, edits: seq<Edit>, jsonValid: string -> bool)
    requires Distinct(Ids(v.messages)) && Paired(v.messages)
    requires forall i :: 0 <= i < |edits| ==> InsertsNoTool(edits[i])
    ensures var w := Run(Reset(v), edits, jsonValid);
      Validate(w).None? <==> (Paired(w.messages) && Disjoint(w.messages, w.removed)) || Hidden(w)
  {
    var w := Run(Reset(v), edits, jsonValid);
    RunKeepsTools(v, edits, jsonValid);
    BrokenMeans(Reset(v), w);
    ValidateMeans(w);
  }

  // ---- unique holders ----

  ghost predicate Shares(m: MessageV, ms: seq<MessageV>) {
    exists results, callId :: HasTool(m, results, callId) && Present(ms, results, callId)
  }

  lemma UniqueWithout(a: seq<MessageV>, m: MessageV, b: seq<MessageV>)
    requires UniqueHolders(a + [m] + b)
    ensures UniqueHolders(a + b) && !Shares(m, a + b)
  {
    var whole, rest := a + [m] + b, a + b;
    forall i, j, results, callId | 0 <= i < j < |rest|
      ensures !(HasTool(rest[i], results, callId) && HasTool(rest[j], results, callId))
    {
      assert rest[i] == whole[if i < |a| then i else i + 1];
      assert rest[j] == whole[if j < |a| then j else j + 1];
    }
    forall k, results, callId | 0 <= k < |rest|
      ensures !(HasTool(m, results, callId) && HasTool(rest[k], results, callId))
    {
      assert whole[|a|] == m && rest[k] == whole[if k < |a| then k else k + 1];
    }
  }

  lemma UniqueWith(a: seq<MessageV>, m: MessageV, b: seq<MessageV>)
    requires UniqueHolders(a + b) && !Shares(m, a + b)
    ensures UniqueHolders(a + [m] + b)
  {
    var whole, rest := a + [m] + b, a + b;
    forall i, j, results, callId | 0 <= i < j < |whole|
      ensures !(HasTool(whole[i], results, callId) && HasTool(whole[j], results, callId))
    {
      if i == |a| {
        assert whole[j] == rest[j - 1];
      } else if j == |a| {
        assert whole[i] == rest[i];
      } else {
        assert whole[i] == rest[if i < |a| then i else i - 1];
        assert whole[j] == rest[if j < |a| then j else j - 1];
      }
    }
  }

  ghost predicate UniqueSoFar(v: PromptV) {
    UniqueHolders(v.messages + v.removed)
  }

  lemma UniqueIsDisjoint(a: seq<MessageV>, b: seq<MessageV>)
    requires UniqueHolders(a + b)
    ensures Disjoint(a, b)
  {
    forall i, j, results, callId | 0 <= i < |a| && 0 <= j < |b|
      ensures !(HasTool(a[i], results, callId) && HasTool(b[j], results, callId))
    {
      assert (a + b)[i] == a[i] && (a + b)[|a| + j] == b[j];
    }
  }

  lemma PartEditKeepsUnique(v: PromptV, w: PromptV)
    requires UniqueSoFar(v) && PartEdit(v, w)
    ensures UniqueSoFar(w)
  {
    if w != v {
      var i: nat, p: nat, part :| PartWritten(v, w, i, p, part);
      WrittenTools(v, w, i, p, part);
      var before, after := v.messages + v.removed, w.messages + w.removed;
      forall k | 0 <= k < |after|
        ensures SameToolsIn(before[k], after[k])
      {
        if k < |v.messages| {
          assert SameToolsIn(v.messages[k], w.messages[k]);
        }
      }
      SameUnique(before, after);
    }
  }

  lemma SameUnique(a: seq<MessageV>, b: seq<MessageV>)
    requires UniqueHolders(a) && SameTools(a, b)
    ensures UniqueHolders(b)
  {
    forall i, j, results, callId | 0 <= i < j < |b|
      ensures !(HasTool(b[i], results, callId) && HasTool(b[j], results, callId))
    {
      assert SameToolsIn(a[i], b[i]) && SameToolsIn(a[j], b[j]);
    }
  }

  lemma InsertKeepsUnique(v: PromptV, at: int, m: MessageV)
    requires UniqueSoFar(v) && ToolFree(m)
    ensures UniqueSoFar(Insert(v, at, m).0)
  {
    var (w, id) := Insert(v, at, m);
    var a := Clamp(at, |v.messages|);
    var n := m.(id := id);
    assert forall results, callId :: HasTool(n, results, callId) <==> HasTool(m, results, callId);
    var head, tail := v.messages[..a], v.messages[a..] + v.removed;
    assert head + tail == v.messages + v.removed;
    assert head + [n] + tail == w.messages + w.removed;
    UniqueWith(head, n, tail);
  }

  lemma RemoveKeepsUnique(v: PromptV, i: nat)
    requires UniqueSoFar(v) && i < |v.messages|
    ensures UniqueSoFar(RemoveFound(v, i))
  {
    var w := RemoveFound(v, i);
    var m := v.messages[i];
    var head, tail := v.messages[..i], v.messages[i + 1..] + v.removed;
    assert head + [m] + tail == v.messages + v.removed;
    UniqueWithout(head, m, tail);
    assert head + tail == w.messages + v.removed;
    if !InsertedHere(v.changes, m.id) {
      assert head + tail + [] == head + tail;
      UniqueWith(head + tail, m, []);
      assert head + tail + [m] + [] == w.messages + w.removed;
    }
  }

  lemma EditKeepsUnique(v: PromptV, e: Edit, jsonValid: string -> bool)
    requires UniqueSoFar(v) && InsertsNoTool(e)
    ensures UniqueSoFar(Apply(v, e, jsonValid))
  {
    match e
    case InsertEdit(at, m) => InsertKeepsUnique(v, at, m);
    case AppendEdit(m) => InsertKeepsUnique(v, |v.messages|, m);
    case RemoveEdit(id) =>
      if Find(v.messages, id) < |v.messages| {
        RemoveKeepsUnique(v, Find(v.messages, id));
      }
    case ParamEdit(name, value) =>
    case _ =>
      RewriteIsPartEdit(v, e, jsonValid);
      PartEditKeepsUnique(v, Apply(v, e, jsonValid));
  }

  lemma {:induction false} RunKeepsUnique(v: PromptV, edits: seq<Edit>, jsonValid: string -> bool)
    requires UniqueHolders(v.messages)
    requires forall i :: 0 <= i < |edits| ==> InsertsNoTool(edits[i])
    ensures UniqueSoFar(Run(Reset(v), edits, jsonValid))
  {
    if edits == [] {
      assert v.messages + [] == v.messages;
    } else {
      var n := |edits| - 1;
      RunKeepsUnique(v, edits[..n], jsonValid);
      EditKeepsUnique(Run(Reset(v), edits[..n], jsonValid), edits[n], jsonValid);
    }
  }

  // With one holder for each call and each result at Reset, Validate is nil
  // exactly when the conversation is still paired or what is left is hidden.
  lemma ValidateIsExact(v: PromptV, edits: seq<Edit>, jsonValid: string -> bool)
    requires Distinct(Ids(v.messages)) && Paired(v.messages) && UniqueHolders(v.messages)
    requires forall i :: 0 <= i < |edits| ==> InsertsNoTool(edits[i])
    ensures var w := Run(Reset(v), edits, jsonValid);
      && (Validate(w).None? <==> Paired(w.messages) || Hidden(w))
      && ((Validate(w).None? <==> Paired(w.messages)) <==> !Hidden(w))
  {
    var w := Run(Reset(v), edits, jsonValid);
    ValidateAfterRun(v, edits, jsonValid);
    RunKeepsUnique(v, edits, jsonValid);
    UniqueIsDisjoint(w.messages, w.removed);
    RunKeepsTools(v, edits, jsonValid);
    BrokenMeans(Reset(v), w);
  }

  // ---- messages without an ID ----

  // A message without an ID holds a call or a result whose partner it does not hold.
  ghost predicate NamelessHalf(ms: seq<MessageV>) {
    exists i, results, callId ::
      0 <= i < |ms| && ms[i].id == "" && HasTool(ms[i], results, callId) && !HasTool(ms[i], !results, callId)
  }

  // A message without an ID holds the partner of whatever it holds.
  ghost predicate Whole(m: MessageV) {
    m.id == "" ==> forall results, callId :: HasTool(m, results, callId) ==> HasTool(m, !results, callId)
  }

  ghost predicate AllWhole(ms: seq<MessageV>) {
    forall m :: m in ms ==> Whole(m)
  }

  lemma WholeMeans(ms: seq<MessageV>)
    ensures AllWhole(ms) <==> !NamelessHalf(ms)
  {
    if !AllWhole(ms) {
      var m :| m in ms && !Whole(m);
      var i :| 0 <= i < |ms| && ms[i] == m;
      assert NamelessHalf(ms);
    }
    if NamelessHalf(ms) {
      var i, results, callId :|
        0 <= i < |ms| && ms[i].id == "" && HasTool(ms[i], results, callId) && !HasTool(ms[i], !results, callId);
      assert !Whole(ms[i]);
    }
  }

  // A message of b without an ID comes from one of a, with the same calls and results.
  ghost predicate NamelessFrom(a: seq<MessageV>, b: seq<MessageV>) {
    forall m :: m in b && m.id == "" ==> From(a, m)
  }

  ghost predicate From(a: seq<MessageV>, m: MessageV) {
    exists o :: o in a && o.id == m.id && SameToolsIn(o, m)
  }

  lemma NamelessSame(a: seq<MessageV>)
    ensures NamelessFrom(a, a)
  {
    forall m | m in a
      ensures From(a, m)
    {
      assert SameToolsIn(m, m);
    }
  }

  lemma NamelessThrough(a: seq<MessageV>, b: seq<MessageV>, c: seq<MessageV>)
    requires NamelessFrom(a, b) && NamelessFrom(b, c)
    ensures NamelessFrom(a, c)
  {
    forall m | m in c && m.id == ""
      ensures From(a, m)
    {
      var o :| o in b && o.id == m.id && SameToolsIn(o, m);
      assert From(a, o);
      var p :| p in a && p.id == o.id && SameToolsIn(p, o);
      assert SameToolsIn(p, m);
    }
  }

  lemma PartEditNameless(v: PromptV, w: PromptV)
    requires PartEdit(v, w)
    ensures NamelessFrom(v.messages, w.messages)
  {
    if w == v {
      NamelessSame(v.messages);
    } else {
      var i: nat, p: nat, part :| PartWritten(v, w, i, p, part);
      WrittenTools(v, w, i, p, part);
      forall m | m in w.messages
        ensures From(v.messages, m)
      {
        var k :| 0 <= k < |w.messages| && w.messages[k] == m;
        assert v.messages[k] in v.messages && SameToolsIn(v.messages[k], m);
      }
    }
  }

  lemma InsertNameless(v: PromptV, at: int, m: MessageV)
    ensures NamelessFrom(v.messages, Insert(v, at, m).0.messages)
  {
    var (w, id) := Insert(v, at, m);
    NamelessSame(v.messages);
    forall x | x in w.messages && x.id == ""
      ensures x in v.messages
    {
      assert m.(id := id).id != "";
    }
  }

  lemma EditNameless(v: PromptV, e: Edit, jsonValid: string -> bool)
    ensures NamelessFrom(v.messages, Apply(v, e, jsonValid).messages)
  {
    match e
    case InsertEdit(at, m) => InsertNameless(v, at, m);
    case AppendEdit(m) => InsertNameless(v, |v.messages|, m);
    case RemoveEdit(id) =>
      NamelessSame(v.messages);
      if Find(v.messages, id) < |v.messages| {
        forall m | m in RemoveAt(v.messages, Find(v.messages, id))
          ensures m in v.messages
        {
          RemovedMember(v.messages, Find(v.messages, id), m);
        }
      }
    case ParamEdit(name, value) => NamelessSame(v.messages);
    case _ =>
      RewriteIsPartEdit(v, e, jsonValid);
      PartEditNameless(v, Apply(v, e, jsonValid));
  }

  lemma {:induction false} RunNameless(v: PromptV, edits: seq<Edit>, jsonValid: string -> bool)
    ensures NamelessFrom(v.messages, Run(Reset(v), edits, jsonValid).messages)
  {
    if edits == [] {
      NamelessSame(v.messages);
    } else {
      var n := |edits| - 1;
      var u := Run(Reset(v), edits[..n], jsonValid);
      RunNameless(v, edits[..n], jsonValid);
      EditNameless(u, edits[n], jsonValid);
      NamelessThrough(v.messages, u.messages, Apply(u, edits[n], jsonValid).messages);
    }
  }

  // No edit makes a message without an ID hold half a pair.
  lemma RunKeepsWhole(v: PromptV, edits: seq<Edit>, jsonValid: string -> bool)
    requires AllWhole(v.messages)
    ensures AllWhole(Run(Reset(v), edits, jsonValid).messages)
  {
    var w := Run(Reset(v), edits, jsonValid);
    RunNameless(v, edits, jsonValid);
    forall m | m in w.messages && m.id == ""
      ensures Whole(m)
    {
      var o :| o in v.messages && o.id == m.id && SameToolsIn(o, m);
      assert Whole(o);
    }
  }

  lemma RunKeepsNamed(v: PromptV, edits: seq<Edit>, jsonValid: string -> bool)
    requires NamedHolders(v.messages)
    ensures NamedHolders(Run(Reset(v), edits, jsonValid).messages)
  {
    var w := Run(Reset(v), edits, jsonValid);
    RunNameless(v, edits, jsonValid);
    forall i | 0 <= i < |w.messages| && w.messages[i].id == ""
      ensures ToolFree(w.messages[i])
    {
      FromFree(v.messages, w.messages[i]);
    }
  }

  lemma FromFree(ms: seq<MessageV>, m: MessageV)
    requires NamedHolders(ms) && From(ms, m) && m.id == ""
    ensures ToolFree(m)
  {
    var o :| o in ms && o.id == m.id && SameToolsIn(o, m);
    var j :| 0 <= j < |ms| && ms[j] == o;
  }

  // Whole messages hide nothing: a partner in one would have its removed part there too.
  lemma WholeIsSeen(w: PromptV)
    requires AllWhole(w.messages) && UniqueSoFar(w)
    ensures !Hidden(w)
  {
    UniqueIsDisjoint(w.messages, w.removed);
    if results, callId :| Broken(w, results, callId) {
      HolderIsFirst(w.messages, !results, callId);
      var i: nat :|
        FirstHolder(w.messages, i, !results, callId) && w.messages[i].id == Holder(w.messages, !results, callId);
      var m := w.messages[i];
      assert Whole(m);
      assert HasTool(m, results, callId) ==> Present(w.messages, results, callId);
    }
  }

  // Removes every message that has an ID.
  lemma {:induction false} RemoveNamed(v: PromptV, edits: seq<Edit>, jsonValid: string -> bool) returns (all: seq<Edit>)
    requires Distinct(Ids(v.messages))
    requires forall i :: 0 <= i < |edits| ==> edits[i].RemoveEdit?
    ensures forall i :: 0 <= i < |all| ==> all[i].RemoveEdit?
    ensures var w, u := Run(Reset(v), edits, jsonValid), Run(Reset(v), all, jsonValid);
      && (forall m :: m in u.messages ==> m in w.messages && m.id == "")
      && (forall m :: m in w.messages && m.id == "" ==> m in u.messages)
    decreases |Run(Reset(v), edits, jsonValid).messages|
  {
    var w := Run(Reset(v), edits, jsonValid);
    if k :| 0 <= k < |w.messages| && w.messages[k].id != "" {
      var id := w.messages[k].id;
      var more := edits + [RemoveEdit(id)];
      DropLast(edits, RemoveEdit(id));
      var i := Find(w.messages, id);
      assert Run(Reset(v), more, jsonValid) == RemoveFound(w, i);
      all := RemoveNamed(v, more, jsonValid);
      forall m
        ensures m in RemoveAt(w.messages, i) ==> m in w.messages
        ensures m in w.messages && m.id == "" ==> m in RemoveAt(w.messages, i)
      {
        RemovedMember(w.messages, i, m);
      }
    } else {
      all := edits;
      assert forall m :: m in w.messages ==> m.id == "";
    }
  }

  // With only messages without an ID left, no lookup finds anything.
  lemma NamelessSeeNothing(w: PromptV)
    requires forall m :: m in w.messages ==> m.id == ""
    ensures Validate(w).None?
  {
    ValidateSees(w);
    forall results, callId
      ensures Holder(w.messages, results, callId) == ""
    {
      HolderIsFirst(w.messages, results, callId);
    }
  }

  // The edits that show what a half in a message without an ID does: all others removed.
  lemma HalfIsMissed(v: PromptV, jsonValid: string -> bool) returns (edits: seq<Edit>)
    requires Distinct(Ids(v.messages)) && NamelessHalf(v.messages)
    ensures forall i :: 0 <= i < |edits| ==> InsertsNoTool(edits[i])
    ensures var w := Run(Reset(v), edits, jsonValid);
      Validate(w).None? && !Paired(w.messages)
  {
    var i, results, callId :|
      0 <= i < |v.messages| && v.messages[i].id == "" && HasTool(v.messages[i], results, callId)
      && !HasTool(v.messages[i], !results, callId);
    var z := v.messages[i];
    edits := RemoveNamed(v, [], jsonValid);
    var w := Run(Reset(v), edits, jsonValid);
    NamelessSeeNothing(w);
    assert z in w.messages;
    forall m | m in w.messages
      ensures m == z
    {
      SameMessage(v.messages, m, z);
    }
    HalfAlone(w.messages, z, results, callId);
  }

  lemma SameMessage(ms: seq<MessageV>, m: MessageV, z: MessageV)
    requires Distinct(Ids(ms)) && m in ms && z in ms && m.id == z.id
    ensures m == z
  {
    var i, j :| 0 <= i < |ms| && 0 <= j < |ms| && ms[i] == m && ms[j] == z;
    assert Ids(ms)[i] == Ids(ms)[j];
  }

  lemma HalfAlone(ms: seq<MessageV>, z: MessageV, results: bool, callId: string)
    requires z in ms && forall m :: m in ms ==> m == z
    requires HasTool(z, results, callId) && !HasTool(z, !results, callId)
    ensures !Paired(ms)
  {
    var k :| 0 <= k < |ms| && ms[k] == z;
    assert HasTool(ms[k], results, callId);
    forall i | 0 <= i < |ms|
      ensures !HasTool(ms[i], !results, callId)
    {
      assert ms[i] in ms;
    }
    assert Present(ms, results, callId) && !Present(ms, !results, callId);
    assert !(Present(ms, false, callId) <==> Present(ms, true, callId));
  }

  // Validate is nil exactly when the conversation is paired after every run of
  // edits, if and only if at Reset no message without an ID holds one half of a
  // pair without the other.
  lemma ExactOnEveryRun(v: PromptV, jsonValid: string -> bool)
    requires Distinct(Ids(v.messages)) && Paired(v.messages) && UniqueHolders(v.messages)
    ensures ExactAfterAll(v, jsonValid) <==> !NamelessHalf(v.messages)
  {
    WholeMeans(v.messages);
    if NamelessHalf(v.messages) {
      var edits := HalfIsMissed(v, jsonValid);
      assert !ExactAfter(v, edits, jsonValid);
    } else {
      forall edits | NoToolInserted(edits)
        ensures ExactAfter(v, edits, jsonValid)
      {
        RunKeepsWhole(v, edits, jsonValid);
        RunKeepsUnique(v, edits, jsonValid);
        WholeIsSeen(Run(Reset(v), edits, jsonValid));
        ValidateIsExact(v, edits, jsonValid);
      }
    }
  }

  ghost predicate NoToolInserted(edits: seq<Edit>) {
    forall i :: 0 <= i < |edits| ==> InsertsNoTool(edits[i])
  }

  ghost predicate ExactAfter(v: PromptV, edits: seq<Edit>, jsonValid: string -> bool) {
    var w := Run(Reset(v), edits, jsonValid);
    Validate(w).None? <==> Paired(w.messages)
  }

  ghost predicate ExactAfterAll(v: PromptV, jsonValid: string -> bool) {
    forall edits :: NoToolInserted(edits) ==> ExactAfter(v, edits, jsonValid)
  }

  // ---- the conditions are needed: concrete conversations ----

  function CallPart(callId: string): Part {
    Part(ToolCallPart, "", "", "", "", Some(ToolCall(callId, "f", "{}", "")), None, "")
  }

  function ResultPart(callId: string): Part {
    Part(ToolResultPart, "", "", "", "", None, Some(ToolResult(callId, [], false)), "")
  }

  function Holding(id: string, part: Part): MessageV {
    MessageV(id, UserRole, [part], "", "", false)
  }

  lemma HoldingHas(id: string, part: Part, results: bool, callId: string)
    ensures HasTool(Holding(id, part), results, callId) <==> Holds(part, results, callId)
  {
    assert Holding(id, part).parts[0] == part;
  }

  lemma HoldingPresent(ms: seq<MessageV>, i: nat, id: string, part: Part, results: bool, callId: string)
    requires i < |ms| && ms[i] == Holding(id, part) && Holds(part, results, callId)
    ensures Present(ms, results, callId)
  {
    HoldingHas(id, part, results, callId);
  }

  predicate OnlyX(m: MessageV) {
    m == Holding(m.id, CallPart("x")) || m == Holding(m.id, ResultPart("x"))
  }

  lemma OnlyXPaired(ms: seq<MessageV>)
    requires forall i :: 0 <= i < |ms| ==> OnlyX(ms[i])
    requires Present(ms, false, "x") && Present(ms, true, "x")
    ensures Paired(ms)
  {
    forall results, callId | Present(ms, results, callId)
      ensures callId == "x"
    {
      var i :| 0 <= i < |ms| && HasTool(ms[i], results, callId);
      HoldingHas(ms[i].id, CallPart("x"), results, callId);
      HoldingHas(ms[i].id, ResultPart("x"), results, callId);
    }
  }

  lemma CallAndResult(ms: seq<MessageV>, i: nat, j: nat)
    requires i < |ms| && ms[i] == Holding(ms[i].id, CallPart("x"))
    requires j < |ms| && ms[j] == Holding(ms[j].id, ResultPart("x"))
    ensures Present(ms, false, "x") && Present(ms, true, "x")
  {
    HoldingPresent(ms, i, ms[i].id, CallPart("x"), false, "x");
    HoldingPresent(ms, j, ms[j].id, ResultPart("x"), true, "x");
  }

  lemma CallThenResult(ms: seq<MessageV>, a: seq<MessageV>)
    requires ms == a + [Holding("b", CallPart("x")), Holding("c", ResultPart("x"))]
    requires a == [] || a == [Holding("a", CallPart("x"))]
    ensures Paired(ms) && Present(ms, true, "x")
  {
    CallAndResult(ms, |a|, |a| + 1);
    OnlyXPaired(ms);
  }

  // Two messages hold the call: removing one of them leaves the conversation
  // paired, and Validate still complains.
  lemma SecondHolderRemoved(v: PromptV, first: MessageV, rest: seq<MessageV>)
    requires first == Holding("a", CallPart("x"))
    requires rest == [Holding("b", CallPart("x")), Holding("c", ResultPart("x"))]
    requires v.messages == [first] + rest
    ensures Paired(v.messages)
    ensures Paired(RemoveFound(Reset(v), 0).messages) && Validate(RemoveFound(Reset(v), 0)).Some?
  {
    StillPaired(v.messages, first, rest);
    FirstRemoved(v, first, rest);
    RemovedCallSeen(RemoveFound(Reset(v), 0), first);
  }

  lemma StillPaired(ms: seq<MessageV>, first: MessageV, rest: seq<MessageV>)
    requires first == Holding("a", CallPart("x")) && ms == [first] + rest
    requires rest == [Holding("b", CallPart("x")), Holding("c", ResultPart("x"))]
    ensures Paired(ms) && Paired(rest) && Present(rest, true, "x") && NamedHolders(rest)
  {
    CallThenResult(ms, [first]);
    RestPaired(rest);
  }

  lemma RestPaired(rest: seq<MessageV>)
    requires rest == [Holding("b", CallPart("x")), Holding("c", ResultPart("x"))]
    ensures Paired(rest) && Present(rest, true, "x") && NamedHolders(rest)
  {
    assert rest == [] + rest;
    CallThenResult(rest, []);
    TwoNamed(rest);
  }

  lemma TwoNamed(ms: seq<MessageV>)
    requires |ms| == 2 && ms[0].id == "b" && ms[1].id == "c"
    ensures NamedHolders(ms)
  {
  }

  lemma FirstRemoved(v: PromptV, first: MessageV, rest: seq<MessageV>)
    requires v.messages == [first] + rest
    ensures RemoveFound(Reset(v), 0).messages == rest && RemoveFound(Reset(v), 0).removed == [first]
  {
  }

  lemma RemovedCallSeen(w: PromptV, m: MessageV)
    requires w.removed == [m] && m == Holding(m.id, CallPart("x"))
    requires NamedHolders(w.messages) && Present(w.messages, true, "x")
    ensures Validate(w).Some?
  {
    HoldingPresent(w.removed, 0, m.id, CallPart("x"), false, "x");
    ValidateMeans(w);
    NamedIsSeen(w);
    assert Broken(w, false, "x");
  }

  // a holds just the call, b just the result.
  ghost predicate CallAndAnswer(a: MessageV, b: MessageV) {
    forall results, callId ::
      && (HasTool(a, results, callId) <==> !results && callId == "x")
      && (HasTool(b, results, callId) <==> results && callId == "x")
  }

  lemma PairOfTwo(ms: seq<MessageV>)
    requires |ms| == 2 && CallAndAnswer(ms[0], ms[1])
    ensures Paired(ms) && UniqueHolders(ms)
  {
    assert HasTool(ms[0], false, "x") && HasTool(ms[1], true, "x");
  }

  lemma AnswerAlone(ms: seq<MessageV>, a: MessageV)
    requires |ms| == 1 && CallAndAnswer(a, ms[0])
    ensures !Paired(ms)
  {
    assert HasTool(ms[0], true, "x");
    assert Present(ms, true, "x") && !Present(ms, false, "x");
  }

  // A message without an ID holds the result: Validate does not see it.
  lemma NamelessHolder(v: PromptV)
    requires v.messages == [Holding("a", CallPart("x")), Holding("", ResultPart("x"))]
    ensures Paired(v.messages) && UniqueHolders(v.messages)
    ensures var w := RemoveFound(Reset(v), 0);
      !Paired(w.messages) && Validate(w).None?
  {
    var w := RemoveFound(Reset(v), 0);
    var a, b := v.messages[0], v.messages[1];
    assert w.messages == [b];
    forall results, callId
      ensures HasTool(a, results, callId) <==> !results && callId == "x"
      ensures HasTool(b, results, callId) <==> results && callId == "x"
    {
      HoldingHas("a", CallPart("x"), results, callId);
      HoldingHas("", ResultPart("x"), results, callId);
    }
    PairOfTwo(v.messages);
    AnswerAlone(w.messages, a);
    NamelessSeeNothing(w);
  }

  // ---- repairing ----

  // A message with this ID holds a tool part.
  ghost predicate IsHolder(ms: seq<MessageV>, id: string) {
    exists i :: 0 <= i < |ms| && ms[i].id == id && !ToolFree(ms[i])
  }

  lemma {:induction false} HolderExists(ms: seq<MessageV>, results: bool, callId: string)
    ensures Holder(ms, results, callId) != "" ==> IsHolder(ms, Holder(ms, results, callId))
  {
    var id := Holder(ms, results, callId);
    if ms != [] && id != "" {
      var k := FindPart(ms[0].parts, results, callId);
      if k < |ms[0].parts| {
        assert HasTool(ms[0], results, callId);
      } else {
        HolderExists(ms[1..], results, callId);
        var i :| 0 <= i < |ms[1..]| && ms[1..][i].id == id && !ToolFree(ms[1..][i]);
        assert ms[i + 1] == ms[1..][i];
      }
    }
  }

  // The error names a message that holds a tool part and is still there.
  ghost predicate NamesPartner(ms: seq<MessageV>, e: Option<EditError>) {
    e.Some? ==> e.value.Dangling? && IsHolder(ms, e.value.partnerId)
  }

  lemma {:induction false} DanglingNames(ms: seq<MessageV>, m: MessageV, parts: seq<Part>)
    ensures NamesPartner(ms, DanglingPart(ms, m, parts))
  {
    if parts != [] {
      var p := parts[0];
      if p.kind == ToolCallPart && p.call.Some? {
        HolderExists(ms, true, p.call.value.id);
      } else if p.kind == ToolResultPart && p.result.Some? {
        HolderExists(ms, false, p.result.value.callId);
      }
      DanglingNames(ms, m, parts[1..]);
    }
  }

  lemma {:induction false} ValidateNamesFrom(ms: seq<MessageV>, removed: seq<MessageV>)
    ensures NamesPartner(ms, ValidateFrom(ms, removed))
  {
    if removed != [] {
      DanglingNames(ms, removed[0], removed[0].parts);
      ValidateNamesFrom(ms, removed[1..]);
    }
  }

  lemma ValidateNames(v: PromptV)
    ensures NamesPartner(v.messages, Validate(v))
    ensures Validate(v).Some? ==> Find(v.messages, Validate(v).value.partnerId) < |v.messages|
  {
    ValidateNamesFrom(v.messages, v.removed);
  }

  // Removing the partner Validate reports, until it reports none.
  ghost function Repaired(v: PromptV): (w: PromptV)
    ensures Validate(w).None?
    decreases |v.messages|
  {
    ValidateNames(v);
    match Validate(v)
    case None => v
    case Some(e) => Repaired(RemoveFound(v, Find(v.messages, e.partnerId)))
  }

  method Repair(p: Prompt)
    modifies p`messages, p`changes, p`removed
    ensures p.View() == Repaired(old(p.View()))
    ensures old(p.Separated()) ==> p.Separated()
  {
    ghost var v := p.View();
    var err := p.Validate();
    assert p.View() == v;
    while err.Some?
      invariant err == PromptModel.Validate(p.View())
      invariant Repaired(p.View()) == Repaired(v)
      invariant old(p.Separated()) ==> p.Separated()
      decreases |p.messages|
    {
      err := RemovePartner(p, err);
    }
  }

  // One round: remove the reported partner and validate again.
  method RemovePartner(p: Prompt, err: Option<EditError>) returns (next: Option<EditError>)
    requires err.Some? && err == PromptModel.Validate(p.View())
    modifies p`messages, p`changes, p`removed
    ensures next == PromptModel.Validate(p.View())
    ensures Repaired(p.View()) == Repaired(old(p.View()))
    ensures |p.messages| < |old(p.messages)|
    ensures old(p.Separated()) ==> p.Separated()
  {
    ghost var w := p.View();
    ValidateNames(w);
    var _ := p.Remove(err.value.partnerId);
    ghost var x := p.View();
    assert x == RemoveFound(w, Find(w.messages, err.value.partnerId));
    assert |x.messages| < |w.messages|;
    next := p.Validate();
    assert p.View() == x;
  }

  // Repairing only removes, and keeps every message without tool parts.
  lemma {:induction false} RepairKeepsOthers(v: PromptV, m: MessageV)
    requires Distinct(Ids(v.messages))
    ensures m in Repaired(v).messages ==> m in v.messages
    ensures m in v.messages && ToolFree(m) ==> m in Repaired(v).messages
    decreases |v.messages|
  {
    ValidateNames(v);
    if Validate(v).Some? {
      var i := Find(v.messages, Validate(v).value.partnerId);
      NamedHolds(v.messages, Validate(v).value.partnerId);
      RemovedIds(v, i);
      RemovedDistinct(Ids(v.messages), i);
      RepairKeepsOthers(RemoveFound(v, i), m);
      RemovedMember(v.messages, i, m);
    }
  }

  // With distinct IDs the message found by the ID is the holder.
  lemma NamedHolds(ms: seq<MessageV>, id: string)
    requires Distinct(Ids(ms)) && IsHolder(ms, id)
    ensures Find(ms, id) < |ms| && !ToolFree(ms[Find(ms, id)])
  {
    var k :| 0 <= k < |ms| && ms[k].id == id && !ToolFree(ms[k]);
    assert Ids(ms)[Find(ms, id)] == Ids(ms)[k];
  }

  lemma RemovedMember(ms: seq<MessageV>, i: nat, m: MessageV)
    requires i < |ms|
    ensures m in RemoveAt(ms, i) ==> m in ms
    ensures m in ms && m != ms[i] ==> m in RemoveAt(ms, i)
  {
    assert ms == ms[..i] + [ms[i]] + ms[i + 1..];
  }

  lemma {:induction false} RepairedKeepsTools(original: PromptV, v: PromptV)
    requires ToolsKept(original, v)
    ensures ToolsKept(original, Repaired(v))
    decreases |v.messages|
  {
    ValidateNames(v);
    if Validate(v).Some? {
      var i := Find(v.messages, Validate(v).value.partnerId);
      RemoveKeepsTools(original, v, i);
      RepairedKeepsTools(original, RemoveFound(v, i));
    }
  }

  lemma RepairKeepsNamed(v: PromptV)
    requires Distinct(Ids(v.messages)) && NamedHolders(v.messages)
    ensures NamedHolders(Repaired(v).messages)
  {
    var w := Repaired(v);
    forall i | 0 <= i < |w.messages| && w.messages[i].id == ""
      ensures ToolFree(w.messages[i])
    {
      RepairKeepsOthers(v, w.messages[i]);
      var j :| 0 <= j < |v.messages| && v.messages[j] == w.messages[i];
    }
  }

  // The repaired conversation is paired again, whatever was removed before, with
  // no call or result on both sides, exactly when nothing is left hidden; and
  // nothing is when every message that holds a tool part has an ID.
  lemma RepairedIsPaired(v: PromptV, edits: seq<Edit>, jsonValid: string -> bool)
    requires Distinct(Ids(v.messages)) && Paired(v.messages)
    requires forall i :: 0 <= i < |edits| ==> InsertsNoTool(edits[i])
    ensures var w := Repaired(Run(Reset(v), edits, jsonValid));
      Paired(w.messages) && Disjoint(w.messages, w.removed) <==> !Hidden(w)
    ensures NamedHolders(v.messages) ==> Paired(Repaired(Run(Reset(v), edits, jsonValid)).messages)
  {
    var u := Run(Reset(v), edits, jsonValid);
    var w := Repaired(u);
    RunKeepsTools(v, edits, jsonValid);
    RepairedKeepsTools(Reset(v), u);
    BrokenMeans(Reset(v), w);
    ValidateMeans(w);
    if NamedHolders(v.messages) {
      RunKeepsNamed(v, edits, jsonValid);
      RepairKeepsNamed(u);
      NamedIsSeen(w);
    }
  }
}
