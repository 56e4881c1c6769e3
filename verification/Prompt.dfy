// The Prompt of pluginapi/prompt.go: edit methods that update the message list,
// the parts and the change record in place. A message's parts are an array, as
// the Go slice shares its elements: two messages may hold the same array.

module Prompts {
  import opened Prelude
  import opened PromptModel
  import opened PromptTargets

  datatype Message = Message(
    id: string, role: Role, parts: array<Part>, name: string, toolCallId: string, cacheBreakpoint: bool)

  ghost function Val(m: Message): MessageV
    reads m.parts
  {
    MessageV(m.id, m.role, m.parts[..], m.name, m.toolCallId, m.cacheBreakpoint)
  }

  ghost function Vals(ms: seq<Message>): (r: seq<MessageV>)
    reads ArraysOf(ms)
    ensures |r| == |ms|
    ensures forall i :: 0 <= i < |ms| ==> r[i] == Val(ms[i])
  {
    seq(|ms|, i requires 0 <= i < |ms| reads ArraysOf(ms) => Val(ms[i]))
  }

  // No array holds the parts of two messages.
  ghost predicate Apart(ms: seq<Message>) {
    forall i, j :: 0 <= i < j < |ms| ==> ms[i].parts != ms[j].parts
  }

  ghost function ArraysOf(ms: seq<Message>): set<array<Part>> {
    set m | m in ms :: m.parts
  }

  lemma ValsCut(ms: seq<Message>, i: nat)
    requires i <= |ms|
    ensures Vals(ms[..i]) == Vals(ms)[..i] && Vals(ms[i..]) == Vals(ms)[i..]
  {
  }

  // Apart seen from one position: the message taken out of it shares with none
  // of the others.
  lemma ApartSplit(a: seq<Message>, m: Message, b: seq<Message>)
    ensures Apart(a + [m] + b) <==> (Apart(a + b) && m.parts !in ArraysOf(a + b))
  {
    var whole, rest := a + [m] + b, a + b;
    if Apart(whole) {
      forall k | 0 <= k < |rest|
        ensures rest[k].parts != m.parts
      {
        assert whole[|a|] == m && rest[k] == whole[if k < |a| then k else k + 1];
      }
      forall i, j | 0 <= i < j < |rest|
        ensures rest[i].parts != rest[j].parts
      {
        assert rest[i] == whole[if i < |a| then i else i + 1];
        assert rest[j] == whole[if j < |a| then j else j + 1];
      }
    }
    if Apart(rest) && m.parts !in ArraysOf(rest) {
      forall i, j | 0 <= i < j < |whole|
        ensures whole[i].parts != whole[j].parts
      {
        if i == |a| {
          assert whole[j] == rest[j - 1];
        } else if j == |a| {
          assert whole[i] == rest[i];
        } else {
          assert whole[i] == rest[if i < |a| then i else i - 1];
          assert whole[j] == rest[if j < |a| then j else j - 1];
        }
      }
    }
  }

  lemma ApartPart(a: seq<Message>, b: seq<Message>)
    requires Apart(a + b)
    ensures Apart(a)
  {
    assert forall i :: 0 <= i < |a| ==> a[i] == (a + b)[i];
  }

  // What Insert does to the list, the arrays and their separation.
  lemma InsertedVals(ms: seq<Message>, m: Message, removed: seq<Message>, a: nat)
    requires a <= |ms|
    ensures Vals(ms[..a] + [m] + ms[a..]) == Vals(ms)[..a] + [Val(m)] + Vals(ms)[a..]
    ensures ArraysOf(ms[..a] + [m] + ms[a..] + removed) == ArraysOf(ms + removed) + {m.parts}
    ensures Apart(ms + removed) ==>
      (Apart(ms[..a] + [m] + ms[a..] + removed) <==> m.parts !in ArraysOf(ms + removed))
  {
    ValsCut(ms, a);
    assert ms[..a] + (ms[a..] + removed) == ms + removed;
    assert ms[..a] + [m] + (ms[a..] + removed) == ms[..a] + [m] + ms[a..] + removed;
    ApartSplit(ms[..a], m, ms[a..] + removed);
    InsertedArrays(ms, m, removed, a);
  }

  lemma InsertedArrays(ms: seq<Message>, m: Message, removed: seq<Message>, a: nat)
    requires a <= |ms|
    ensures ArraysOf(ms[..a] + [m] + ms[a..] + removed) == ArraysOf(ms + removed) + {m.parts}
  {
    assert ms == ms[..a] + ms[a..];
    assert forall x :: x in ms[..a] + [m] + ms[a..] + removed <==> x in ms + removed || x == m;
  }

  // What Remove does to them, with the message kept among the removed or forgotten.
  lemma RemovedVals(ms: seq<Message>, removed: seq<Message>, i: nat)
    requires i < |ms|
    ensures Vals(ms[..i] + ms[i + 1..]) == RemoveAt(Vals(ms), i)
    ensures Vals(removed + [ms[i]]) == Vals(removed) + [Val(ms[i])]
    ensures ArraysOf(ms[..i] + ms[i + 1..] + removed) <= ArraysOf(ms + removed)
    ensures ArraysOf(ms[..i] + ms[i + 1..] + (removed + [ms[i]])) <= ArraysOf(ms + removed)
    ensures Apart(ms + removed) ==> Apart(ms[..i] + ms[i + 1..] + removed)
    ensures Apart(ms + removed) ==> Apart(ms[..i] + ms[i + 1..] + (removed + [ms[i]]))
  {
    var a, b, m := ms[..i], ms[i + 1..], ms[i];
    ValsCut(ms, i);
    ValsCut(ms, i + 1);
    assert a + [m] + (b + removed) == ms + removed;
    assert a + (b + removed) == a + b + removed;
    ApartSplit(a, m, b + removed);
    assert a + b + removed + [m] + [] == a + b + (removed + [m]);
    assert a + b + removed + [] == a + b + removed;
    ApartSplit(a + b + removed, m, []);
    RemovedArrays(ms, removed, i);
  }

  lemma RemovedArrays(ms: seq<Message>, removed: seq<Message>, i: nat)
    requires i < |ms|
    ensures ArraysOf(ms[..i] + ms[i + 1..] + removed) <= ArraysOf(ms + removed)
    ensures ArraysOf(ms[..i] + ms[i + 1..] + (removed + [ms[i]])) <= ArraysOf(ms + removed)
  {
    assert forall x :: x in ms[..i] + ms[i + 1..] + (removed + [ms[i]]) ==> x in ms + removed;
  }

  lemma HolderStep(ms: seq<MessageV>, i: nat, results: bool, callId: string)
    requires i < |ms|
    ensures Holder(ms[i..], results, callId)
         == if FindPart(ms[i].parts, results, callId) < |ms[i].parts| then ms[i].id
            else Holder(ms[i + 1..], results, callId)
  {
  }

  lemma TakenIs(v: PromptV, id: string)
    ensures id in Taken(v) <==> Find(v.messages, id) < |v.messages| || id in v.changes.messages
  {
    if m :| m in v.messages && m.id == id {
      var i :| 0 <= i < |v.messages| && v.messages[i] == m;
    }
  }

  lemma TakenSame(v: PromptV, n: nat)
    ensures Taken(v.(nextId := n)) == Taken(v)
  {
  }

  // w is v with part k of message i replaced.
  predicate PartReplaced(v: PromptV, w: PromptV, i: nat, k: nat, part: Part) {
    i < |v.messages| && k < |v.messages[i].parts| && w == WithPart(v, i, k, part)
  }

  lemma FindIs(ms: seq<MessageV>, id: string, i: nat)
    requires i <= |ms| && (i < |ms| ==> ms[i].id == id)
    requires forall j :: 0 <= j < i ==> ms[j].id != id
    ensures i == Find(ms, id)
  {
  }

  lemma FindPartIs(parts: seq<Part>, results: bool, callId: string, i: nat)
    requires i <= |parts| && (i < |parts| ==> Holds(parts[i], results, callId))
    requires forall j :: 0 <= j < i ==> !Holds(parts[j], results, callId)
    ensures i == FindPart(parts, results, callId)
  {
  }

  lemma ArgumentsWritten(
    v: PromptV, id: string, callId: string, args: string, jsonValid: string -> bool, i: nat, k: nat)
    requires i == Find(v.messages, id) < |v.messages| && jsonValid(args)
    requires k == FindPart(v.messages[i].parts, false, callId) < |v.messages[i].parts|
    ensures var part := v.messages[i].parts[k];
      SetToolArguments(v, id, callId, args, jsonValid)
      == (WithPart(v, i, k, part.(call := Some(part.call.value.(arguments := args)))), None)
  {
  }

  lemma TargetDispatch(v: PromptV, t: TextTarget, text: string)
    ensures match TargetEditOf(v.messages, t, text)
      case NoTarget(e) => SetTargetText(v, t, text) == (v, Some(e))
      case TextTargetEdit => SetTargetText(v, t, text) == SetText(v, t.messageId, t.part, text)
      case ResultTargetEdit(content) =>
        SetTargetText(v, t, text) == SetToolResult(v, t.messageId, t.callId, content)
  {
  }

  lemma TextWritten(v: PromptV, id: string, index: int, text: string, i: nat)
    requires i == Find(v.messages, id) < |v.messages| && 0 <= index < |v.messages[i].parts|
    requires v.messages[i].parts[index].kind == TextPart
    ensures SetText(v, id, index, text) == (WithPart(v, i, index, v.messages[i].parts[index].(text := text)), None)
  {
  }

  lemma ResultWritten(v: PromptV, id: string, callId: string, content: seq<Part>, i: nat, k: nat)
    requires i == Find(v.messages, id) < |v.messages|
    requires k == FindPart(v.messages[i].parts, true, callId) < |v.messages[i].parts|
    ensures var part := v.messages[i].parts[k];
      SetToolResult(v, id, callId, content)
      == (WithPart(v, i, k, part.(result := Some(part.result.value.(parts := content)))), None)
  {
  }

  class Prompt {
    // json.Valid.
    const jsonValid: string -> bool

    var messages: seq<Message>
    var params: Params
    var changes: Changes
    var removed: seq<Message>
    var nextId: nat

    constructor (
      jsonValid: string -> bool, messages: seq<Message>, params: Params, changes: Changes, removed: seq<Message>,
      nextId: nat)
      ensures this.jsonValid == jsonValid
      ensures this.messages == messages && this.params == params
      ensures this.changes == changes && this.removed == removed && this.nextId == nextId
    {
      this.jsonValid := jsonValid;
      this.messages := messages;
      this.params := params;
      this.changes := changes;
      this.removed := removed;
      this.nextId := nextId;
    }

    ghost function Arrays(): set<array<Part>>
      reads this`messages, this`removed
    {
      ArraysOf(messages + removed)
    }

    // The prompt as a value.
    ghost function View(): PromptV
      reads this, Arrays()
    {
      PromptV(Vals(messages), params, changes, Vals(removed), nextId)
    }

    // No two messages, present or removed, share their parts.
    ghost predicate Separated()
      reads this`messages, this`removed
    {
      Apart(messages + removed)
    }

    // The index of the message with the given ID, or |messages| for nil.
    method Message(id: string) returns (i: nat)
      ensures i <= |messages|
      ensures i == Find(View().messages, id) && View() == old(View())
    {
      i := 0;
      while i < |messages| && messages[i].id != id
        invariant i <= |messages|
        invariant forall j :: 0 <= j < i ==> messages[j].id != id
      {
        i := i + 1;
      }
      FindIs(Vals(messages), id, i);
    }

    // One array element and the change record were written, nothing else.
    twostate predicate OnlyWrote(i: nat, k: nat, part: Part)
      reads this, Arrays()
    {
      && messages == old(messages) && removed == old(removed) && params == old(params) && nextId == old(nextId)
      && i < |messages| && k < messages[i].parts.Length
      && messages[i].parts[..] == old(messages[i].parts[..])[k := part]
      && (forall a :: a in Arrays() && a != messages[i].parts ==> a[..] == old(a[..]))
      && changes == Mark(old(changes), messages[i].id, Edited)
    }

    // The edit that leads to w was made, in place: a message that shares the
    // rewritten parts changes with it. w is the view when none does.
    twostate predicate Made(w: PromptV)
      reads this, Arrays()
    {
      || (w == old(View()) && View() == old(View()))
      || (exists i: nat, k: nat, part :: OnlyWrote(i, k, part) && PartReplaced(old(View()), w, i, k, part))
    }

    // The edit that leads to w was made; without sharing the prompt is w.
    twostate predicate EditedTo(w: PromptV)
      reads this, Arrays()
    {
      Made(w) && (old(Separated()) ==> View() == w)
    }

    twostate lemma MadeSeparately(w: PromptV)
      requires old(Separated()) && Made(w)
      ensures View() == w
    {
      if View() != old(View()) || w != old(View()) {
        var i: nat, k: nat, part :| OnlyWrote(i, k, part) && PartReplaced(old(View()), w, i, k, part);
        PartsApart();
        assert Vals(removed) == old(Vals(removed));
        assert Vals(messages) == w.messages;
      }
    }

    // Without sharing the parts of each message are an array of their own.
    lemma PartsApart()
      requires Separated()
      ensures forall i, j :: 0 <= i < |messages| && 0 <= j < |messages| && i != j ==> messages[i].parts != messages[j].parts
      ensures forall i, j :: 0 <= i < |messages| && 0 <= j < |removed| ==> messages[i].parts != removed[j].parts
      ensures forall i :: 0 <= i < |messages| ==> messages[i].parts in Arrays()
      ensures forall j :: 0 <= j < |removed| ==> removed[j].parts in Arrays()
    {
      var all := messages + removed;
      assert forall i :: 0 <= i < |messages| ==> all[i] == messages[i];
      assert forall j :: 0 <= j < |removed| ==> all[|messages| + j] == removed[j];
    }

    // m.Parts[k] = part, and the mark.
    method Write(i: nat, k: nat, part: Part)
      requires i < |messages| && k < messages[i].parts.Length
      modifies this`changes, messages[i].parts
      ensures OnlyWrote(i, k, part) && EditedTo(WithPart(old(View()), i, k, part))
    {
      messages[i].parts[k] := part;
      changes := Mark(changes, messages[i].id, Edited);
      ghost var w := WithPart(old(View()), i, k, part);
      assert PartReplaced(old(View()), w, i, k, part);
      if old(Separated()) {
        MadeSeparately(w);
      }
    }

    method SetText(id: string, index: int, text: string) returns (err: Option<EditError>)
      modifies this`changes, Arrays()
      ensures err == PromptModel.SetText(old(View()), id, index, text).1
      ensures EditedTo(PromptModel.SetText(old(View()), id, index, text).0)
      ensures err.None? ==>
        OnlyWrote(Find(old(View()).messages, id), index, old(Target(View(), id, index)).(text := text))
    {
      var i := Message(id);
      if i == |messages| {
        return Some(UnknownMessage(id));
      }
      var parts := messages[i].parts;
      if index < 0 || index >= parts.Length {
        return Some(NoPart(id, index));
      }
      if parts[index].kind != TextPart {
        return Some(WrongKind(id, index));
      }
      TextWritten(View(), id, index, text, i);
      Write(i, index, parts[index].(text := text));
      return None;
    }

    // The index of the first part holding the call, or its result; |parts| for none.
    method FindToolPart(parts: array<Part>, results: bool, callId: string) returns (k: nat)
      ensures k <= parts.Length
      ensures k == FindPart(parts[..], results, callId)
    {
      k := 0;
      while k < parts.Length && !Holds(parts[k], results, callId)
        invariant k <= parts.Length
        invariant forall j :: 0 <= j < k ==> !Holds(parts[j], results, callId)
      {
        k := k + 1;
      }
      FindPartIs(parts[..], results, callId, k);
    }

    // The same for message i of the conversation.
    method FindHeld(i: nat, results: bool, callId: string) returns (k: nat)
      requires i < |messages|
      ensures k == FindPart(View().messages[i].parts, results, callId) <= messages[i].parts.Length
      ensures View() == old(View())
    {
      k := FindToolPart(messages[i].parts, results, callId);
    }

    method SetToolArguments(id: string, callId: string, args: string) returns (err: Option<EditError>)
      modifies this`changes, Arrays()
      ensures err == PromptModel.SetToolArguments(old(View()), id, callId, args, jsonValid).1
      ensures EditedTo(PromptModel.SetToolArguments(old(View()), id, callId, args, jsonValid).0)
    {
      var i := Message(id);
      if i == |messages| {
        return Some(UnknownMessage(id));
      }
      if !jsonValid(args) {
        return Some(BadArguments(callId));
      }
      var k := FindHeld(i, false, callId);
      var parts := messages[i].parts;
      if k == parts.Length {
        return Some(NoCall(id, callId));
      }
      var call := parts[k].call.value.(arguments := args);
      var part := parts[k].(call := Some(call));
      ghost var v := View();
      ArgumentsWritten(v, id, callId, args, jsonValid, i, k);
      Write(i, k, part);
      return None;
    }

    method SetToolResult(id: string, callId: string, content: seq<Part>) returns (err: Option<EditError>)
      modifies this`changes, Arrays()
      ensures err == PromptModel.SetToolResult(old(View()), id, callId, content).1
      ensures EditedTo(PromptModel.SetToolResult(old(View()), id, callId, content).0)
    {
      var i := Message(id);
      if i == |messages| {
        return Some(UnknownMessage(id));
      }
      var k := FindHeld(i, true, callId);
      var parts := messages[i].parts;
      if k == parts.Length {
        return Some(NoResult(id, callId));
      }
      var result := parts[k].result.value.(parts := content);
      var part := parts[k].(result := Some(result));
      ghost var v := View();
      ResultWritten(v, id, callId, content, i, k);
      Write(i, k, part);
      return None;
    }

    method SetMedia(id: string, index: int, mediaType: string, data: seq<byte>) returns (err: Option<EditError>)
      modifies this`changes, Arrays()
      ensures err == PromptModel.SetMedia(old(View()), id, index, mediaType, data).1
      ensures EditedTo(PromptModel.SetMedia(old(View()), id, index, mediaType, data).0)
    {
      var i := Message(id);
      if i == |messages| {
        return Some(UnknownMessage(id));
      }
      var parts := messages[i].parts;
      if index < 0 || index >= parts.Length {
        return Some(NoPart(id, index));
      }
      if parts[index].kind != ImagePart && parts[index].kind != AudioPart {
        return Some(WrongKind(id, index));
      }
      var trimmed := TrimSpace(mediaType);
      if '/' !in trimmed {
        return Some(NotMime);
      }
      if !HasPrefix(trimmed, MediaPrefix(parts[index].kind)) {
        return Some(WrongMime);
      }
      if data == [] {
        return Some(EmptyMedia);
      }
      Write(i, index, WithMedia(parts[index], trimmed, data));
      return None;
    }

    method TextTargets(roles: seq<Role>) returns (out: seq<TextTarget>)
      ensures out == PromptTargets.TextTargets(View().messages, roles)
    {
      ghost var ms := Vals(messages);
      out := [];
      var i := 0;
      while i < |messages|
        invariant i <= |messages| && Vals(messages) == ms
        invariant Lists(out, ms, PlacesUpTo(ms, roles, i))
      {
        if |roles| == 0 || messages[i].role in roles {
          var more := MessageTargets(i);
          assert Vals(messages) == ms;
          ListedAppend(out, more, ms, PlacesUpTo(ms, roles, i), MessagePlaces(ms[i].parts, i, |ms[i].parts|));
          out := out + more;
        } else {
          ListedAppend(out, [], ms, PlacesUpTo(ms, roles, i), []);
          assert out + [] == out;
        }
        i := i + 1;
      }
      ListedAll(out, ms, roles);
    }

    method MessageTargets(i: nat) returns (out: seq<TextTarget>)
      requires i < |messages|
      ensures Lists(out, Vals(messages), MessagePlaces(Val(messages[i]).parts, i, messages[i].parts.Length))
    {
      ghost var ms := Vals(messages);
      var parts := messages[i].parts;
      out := [];
      var k := 0;
      while k < parts.Length
        invariant k <= parts.Length && Vals(messages) == ms
        invariant Lists(out, ms, MessagePlaces(ms[i].parts, i, k))
      {
        var more := PartTargets(i, k);
        assert Vals(messages) == ms;
        ListedAppend(out, more, ms, MessagePlaces(ms[i].parts, i, k), PartPlaces(ms[i].parts[k], i, k));
        out := out + more;
        k := k + 1;
      }
    }

    method PartTargets(i: nat, k: nat) returns (out: seq<TextTarget>)
      requires i < |messages| && k < messages[i].parts.Length
      ensures Lists(out, Vals(messages), PartPlaces(messages[i].parts[k], i, k))
    {
      var m := messages[i];
      var part := m.parts[k];
      if part.kind == TextPart {
        return [TextTarget(m.id, m.role, k, "", 0, part.text)];
      }
      out := [];
      if part.kind == ToolResultPart && part.result.Some? {
        var result := part.result.value;
        ghost var ms := Vals(messages);
        var j := 0;
        while j < |result.parts|
          invariant j <= |result.parts|
          invariant Lists(out, ms, InnerPlaces(result.parts, i, k, j))
        {
          if result.parts[j].kind == TextPart {
            var t := TextTarget(m.id, m.role, k, result.callId, j, result.parts[j].text);
            assert IsTarget(t, ms, Place(i, k, j));
            out := out + [t];
          }
          j := j + 1;
        }
      }
    }

    method SetTargetText(t: TextTarget, text: string) returns (err: Option<EditError>)
      modifies this`changes, Arrays()
      ensures err == PromptModel.SetTargetText(old(View()), t, text).1
      ensures EditedTo(PromptModel.SetTargetText(old(View()), t, text).0)
    {
      var edit := ResolveTarget(t, text);
      TargetDispatch(View(), t, text);
      match edit {
        case NoTarget(error) =>
          return Some(error);
        case TextTargetEdit =>
          err := SetTextTarget(t, text);
        case ResultTargetEdit(content) =>
          err := SetResultTarget(t, text, content);
      }
    }

    method SetTextTarget(t: TextTarget, text: string) returns (err: Option<EditError>)
      requires TargetEditOf(View().messages, t, text) == TextTargetEdit
      modifies this`changes, Arrays()
      ensures err == PromptModel.SetTargetText(old(View()), t, text).1
      ensures EditedTo(PromptModel.SetTargetText(old(View()), t, text).0)
    {
      err := SetText(t.messageId, t.part, text);
    }

    method SetResultTarget(t: TextTarget, text: string, content: seq<Part>) returns (err: Option<EditError>)
      requires TargetEditOf(View().messages, t, text) == ResultTargetEdit(content)
      modifies this`changes, Arrays()
      ensures err == PromptModel.SetTargetText(old(View()), t, text).1
      ensures EditedTo(PromptModel.SetTargetText(old(View()), t, text).0)
    {
      err := SetToolResult(t.messageId, t.callId, content);
    }

    // The checks of SetTargetText: which edit writes the target back.
    method ResolveTarget(t: TextTarget, text: string) returns (edit: TargetEdit)
      ensures edit == TargetEditOf(View().messages, t, text)
      ensures View() == old(View()) && forall a :: a in Arrays() ==> a[..] == old(a[..])
    {
      if t.callId == "" {
        return TextTargetEdit;
      }
      var i := Message(t.messageId);
      if i == |messages| {
        return NoTarget(UnknownMessage(t.messageId));
      }
      var parts := messages[i].parts;
      if t.part < 0 || t.part >= parts.Length {
        return NoTarget(NoPart(t.messageId, t.part));
      }
      var holder := parts[t.part];
      if holder.kind != ToolResultPart || holder.result.None? || holder.result.value.callId != t.callId {
        return NoTarget(NoResult(t.messageId, t.callId));
      }
      var inner := holder.result.value.parts;
      if t.resultPart < 0 || t.resultPart >= |inner| {
        return NoTarget(NoPart(t.messageId, t.resultPart));
      }
      if inner[t.resultPart].kind != TextPart {
        return NoTarget(WrongKind(t.messageId, t.resultPart));
      }
      return ResultTargetEdit(inner[t.resultPart := inner[t.resultPart].(text := text)]);
    }

    // The test of newID's loop.
    method InUse(id: string) returns (taken: bool)
      ensures taken <==> id in Taken(View())
      ensures View() == old(View())
    {
      ghost var v := View();
      TakenIs(v, id);
      var i := Message(id);
      assert View() == v;
      return i < |messages| || id in changes.messages;
    }

    // One turn of the loop: the next name, and whether it is in use.
    method TryNext(ghost names: set<string>) returns (id: string, taken: bool)
      requires names == Taken(View())
      modifies this`nextId
      ensures nextId == old(nextId) + 1 && id == NewName(nextId) && (taken <==> id in names)
      ensures View() == old(View()).(nextId := nextId) && names == Taken(View())
    {
      ghost var v := View();
      nextId := nextId + 1;
      id := NewName(nextId);
      TakenSame(v, nextId);
      taken := InUse(id);
    }

    method NewID() returns (id: string)
      modifies this`nextId
      ensures nextId == NextFree(Taken(old(View())), old(nextId)) && id == NewName(nextId)
      ensures View() == old(View()).(nextId := nextId)
    {
      ghost var v := View();
      ghost var names := Taken(v);
      while true
        invariant View() == v.(nextId := nextId) && names == Taken(View())
        invariant NextFree(names, nextId) == NextFree(names, old(nextId))
        decreases |Blocked(names, nextId)|
      {
        BlockedShrinks(names, nextId);
        var taken;
        id, taken := TryNext(names);
        if !taken {
          return;
        }
      }
    }

    // Puts m in its slot and marks it.
    method Splice(a: nat, m: Message)
      requires a <= |messages|
      modifies this`messages, this`changes
      ensures View() == InsertAt(old(View()), a, old(Val(m)))
      ensures messages == old(messages)[..a] + [m] + old(messages)[a..]
      ensures Arrays() == old(Arrays()) + {m.parts}
      ensures old(Separated()) ==> (Separated() <==> m.parts !in old(Arrays()))
    {
      InsertedVals(messages, m, removed, a);
      messages := messages[..a] + [m] + messages[a..];
      changes := Mark(changes, m.id, Inserted);
    }

    // m joins the conversation with its own parts array. The change record stays
    // trustworthy as long as no other message holds that array.
    method Insert(at: int, m: Message) returns (id: string)
      modifies this`messages, this`changes, this`nextId
      ensures (View(), id) == PromptModel.Insert(old(View()), at, old(Val(m)))
      ensures var a := Clamp(at, |old(messages)|);
        messages == old(messages)[..a] + [m.(id := id)] + old(messages)[a..]
      ensures Arrays() == old(Arrays()) + {m.parts}
      ensures old(Separated()) ==> (Separated() <==> m.parts !in old(Arrays()))
    {
      var a := if at < 0 then 0 else if at > |messages| then |messages| else at;
      id := NewID();
      Splice(a, m.(id := id));
    }

    method Append(m: Message) returns (id: string)
      modifies this`messages, this`changes, this`nextId
      ensures (View(), id) == PromptModel.Insert(old(View()), |old(messages)|, old(Val(m)))
      ensures Arrays() == old(Arrays()) + {m.parts}
      ensures old(Separated()) ==> (Separated() <==> m.parts !in old(Arrays()))
    {
      id := Insert(|messages|, m);
    }

    // Drops the message at i and records it.
    method TakeOut(i: nat)
      requires i < |messages|
      modifies this`messages, this`changes, this`removed
      ensures View() == RemoveFound(old(View()), i)
      ensures Arrays() <= old(Arrays())
      ensures old(Separated()) ==> Separated()
    {
      RemovedVals(messages, removed, i);
      var m := messages[i];
      messages := messages[..i] + messages[i + 1..];
      if InsertedHere(changes, m.id) {
        changes := changes.(messages := changes.messages - {m.id});
      } else {
        changes := Mark(changes, m.id, Removed);
        removed := removed + [m];
      }
    }

    method Remove(id: string) returns (err: Option<EditError>)
      modifies this`messages, this`changes, this`removed
      ensures (View(), err) == PromptModel.Remove(old(View()), id)
      ensures Arrays() <= old(Arrays())
      ensures old(Separated()) ==> Separated()
    {
      ghost var v := View();
      var i := Message(id);
      assert View() == v;
      if i == |messages| {
        return Some(UnknownMessage(id));
      }
      var m := messages[i];
      TakeOut(i);
      ghost var w := View();
      err := FindDangling(m);
      assert View() == w;
    }

    method FindDangling(m: Message) returns (err: Option<EditError>)
      ensures err == DanglingIn(Vals(messages), Val(m))
    {
      ghost var ms, v := Vals(messages), Val(m);
      var k := 0;
      while k < m.parts.Length
        invariant k <= m.parts.Length
        invariant Vals(messages) == ms && Val(m) == v
        invariant DanglingIn(ms, v) == DanglingPart(ms, v, v.parts[k..])
      {
        var part := m.parts[k];
        if part.kind == ToolCallPart && part.call.Some? {
          var partner := FindHolder(true, part.call.value.id);
          assert Vals(messages) == ms;
          if partner != "" {
            return Some(Dangling(m.id, partner, part.call.value.id));
          }
        } else if part.kind == ToolResultPart && part.result.Some? {
          var partner := FindHolder(false, part.result.value.callId);
          assert Vals(messages) == ms;
          if partner != "" {
            return Some(Dangling(m.id, partner, part.result.value.callId));
          }
        }
        k := k + 1;
      }
      return None;
    }

    method FindHolder(results: bool, callId: string) returns (id: string)
      ensures id == Holder(Vals(messages), results, callId)
    {
      ghost var ms := Vals(messages);
      var i := 0;
      while i < |messages|
        invariant i <= |messages|
        invariant Vals(messages) == ms
        invariant Holder(ms, results, callId) == Holder(ms[i..], results, callId)
      {
        HolderStep(ms, i, results, callId);
        var k := FindToolPart(messages[i].parts, results, callId);
        assert Vals(messages) == ms;
        if k < messages[i].parts.Length {
          return messages[i].id;
        }
        i := i + 1;
      }
      return "";
    }

    method Validate() returns (err: Option<EditError>)
      ensures err == PromptModel.Validate(View())
    {
      ghost var v := View();
      var i := 0;
      while i < |removed|
        invariant i <= |removed|
        invariant View() == v
        invariant PromptModel.Validate(v) == ValidateFrom(v.messages, v.removed[i..])
      {
        err := FindDangling(removed[i]);
        assert View() == v;
        if err.Some? {
          return;
        }
        i := i + 1;
      }
      return None;
    }

    method SetParam(name: string, value: Value)
      modifies this`params, this`changes
      ensures View() == PromptModel.SetParam(old(View()), name, value)
    {
      match name {
        case "max_tokens" =>
          if ToInt(value).Some? {
            params := params.(maxTokens := ToInt(value));
          }
        case "temperature" =>
          if ToFloat(value).Some? {
            params := params.(temperature := ToFloat(value));
          }
        case "top_p" =>
          if ToFloat(value).Some? {
            params := params.(topP := ToFloat(value));
          }
        case _ =>
      }
      changes := MarkParam(changes, name, value);
    }

    method Reset()
      modifies this`changes, this`removed
      ensures View() == PromptModel.Reset(old(View()))
      ensures Arrays() <= old(Arrays())
      ensures old(Separated()) ==> Separated()
    {
      if Separated() {
        ApartPart(messages, removed);
        assert messages + [] == messages;
      }
      changes := NoChanges;
      removed := [];
    }

    method Clone() returns (c: Prompt)
      ensures fresh(c) && c.jsonValid == jsonValid && c.View() == View()
      ensures c.Separated() && forall a :: a in c.Arrays() ==> fresh(a)
    {
      var present, gone := CloneLists(messages, removed);
      c := new Prompt(jsonValid, present, params, changes, gone, nextId);
    }

    // Inserts a message built for the call.
    method InsertNew(at: int, m: MessageV)
      requires Separated()
      modifies this`messages, this`changes, this`nextId
      ensures View() == PromptModel.Insert(old(View()), at, m).0
      ensures Separated()
      ensures forall a :: a in Arrays() ==> a in old(Arrays()) || fresh(a)
    {
      var message := NewMessage(m);
      assert View() == old(View());
      var _ := Insert(at, message);
    }

    // One edit call; an inserted message comes with a parts array of its own.
    method Edit(e: Edit)
      requires Separated()
      modifies this`messages, this`params, this`changes, this`removed, this`nextId, Arrays()
      ensures View() == Apply(old(View()), e, jsonValid)
      ensures Separated()
      ensures forall a :: a in Arrays() ==> a in old(Arrays()) || fresh(a)
    {
      match e {
        case InsertEdit(at, m) =>
          InsertNew(at, m);
        case AppendEdit(m) =>
          InsertNew(|messages|, m);
        case RemoveEdit(id) =>
          var _ := Remove(id);
        case ParamEdit(name, value) =>
          SetParam(name, value);
        case _ =>
          Rewrite(e);
      }
    }

    // The edits that rewrite a part.
    method Rewrite(e: Edit)
      requires Separated() && !e.InsertEdit? && !e.AppendEdit? && !e.RemoveEdit? && !e.ParamEdit?
      modifies this`changes, Arrays()
      ensures View() == Apply(old(View()), e, jsonValid)
    {
      match e {
        case TextEdit(id, index, text) =>
          var _ := SetText(id, index, text);
        case ArgumentsEdit(id, callId, args) =>
          var _ := SetToolArguments(id, callId, args);
        case ResultEdit(id, callId, content) =>
          var _ := SetToolResult(id, callId, content);
        case MediaEdit(id, index, mediaType, data) =>
          var _ := SetMedia(id, index, mediaType, data);
        case TargetTextEdit(t, text) =>
          var _ := SetTargetText(t, text);
      }
    }
  }

  method NewMessage(m: MessageV) returns (message: Message)
    ensures fresh(message.parts) && Val(message) == m
  {
    var parts := new Part[|m.parts|](k requires 0 <= k < |m.parts| => m.parts[k]);
    message := Message(m.id, m.role, parts, m.name, m.toolCallId, m.cacheBreakpoint);
  }

  // cloneParts: a tool call or result inside a part is copied with it.
  method CloneParts(parts: array<Part>) returns (out: array<Part>)
    ensures fresh(out) && out[..] == parts[..]
  {
    out := new Part[parts.Length](k requires 0 <= k < parts.Length reads parts => parts[k]);
  }

  method CloneMessages(ms: seq<Message>) returns (out: seq<Message>)
    ensures Vals(out) == Vals(ms)
    ensures Apart(out) && forall a :: a in ArraysOf(out) ==> fresh(a)
  {
    out := [];
    var i := 0;
    while i < |ms|
      invariant i == |out| <= |ms|
      invariant forall j :: 0 <= j < i ==> Val(out[j]) == Val(ms[j]) && fresh(out[j].parts)
      invariant Apart(out)
    {
      var parts := CloneParts(ms[i].parts);
      out := out + [ms[i].(parts := parts)];
      i := i + 1;
    }
  }

  method CloneLists(ms: seq<Message>, removed: seq<Message>) returns (present: seq<Message>, gone: seq<Message>)
    ensures Vals(present) == old(Vals(ms)) && Vals(gone) == old(Vals(removed))
    ensures Vals(ms) == old(Vals(ms)) && Vals(removed) == old(Vals(removed))
    ensures Apart(present + gone) && forall a :: a in ArraysOf(present + gone) ==> fresh(a)
  {
    present := CloneMessages(ms);
    assert Vals(removed) == old(Vals(removed));
    gone := CloneMessages(removed);
    assert Vals(present) == old(Vals(ms));
    ApartTogether(present, gone);
  }

  lemma ApartTogether(a: seq<Message>, b: seq<Message>)
    requires Apart(a) && Apart(b) && ArraysOf(a) !! ArraysOf(b)
    ensures Apart(a + b) && ArraysOf(a + b) == ArraysOf(a) + ArraysOf(b)
  {
    var whole := a + b;
    forall i, j | 0 <= i < j < |whole|
      ensures whole[i].parts != whole[j].parts
    {
      if i < |a| <= j {
        assert whole[i].parts in ArraysOf(a) && whole[j].parts in ArraysOf(b);
      }
    }
  }

  // The edits of one side, in order.
  function Side(edits: seq<(bool, Edit)>, left: bool): seq<Edit> {
    if edits == [] then []
    else
      var (side, e) := edits[|edits| - 1];
      Side(edits[..|edits| - 1], left) + if side == left then [e] else []
  }

  lemma SideStep(edits: seq<(bool, Edit)>, i: nat, left: bool)
    requires i < |edits|
    ensures Side(edits[..i + 1], left) == Side(edits[..i], left) + if edits[i].0 == left then [edits[i].1] else []
  {
    assert edits[..i + 1][..i] == edits[..i];
  }

  lemma RunStep(v: PromptV, edits: seq<Edit>, e: Edit, jsonValid: string -> bool)
    ensures Run(v, edits + [e], jsonValid) == Apply(Run(v, edits, jsonValid), e, jsonValid)
  {
    DropLast(edits, e);
  }

  // An edit on one prompt does not reach another that shares no parts with it.
  method EditOne(p: Prompt, q: Prompt, e: Edit)
    requires p != q && p.Separated() && q.Separated() && p.Arrays() !! q.Arrays()
    modifies p, p.Arrays()
    ensures p.Separated() && q.Separated() && p.Arrays() !! q.Arrays()
    ensures forall a :: a in p.Arrays() ==> a in old(p.Arrays()) || fresh(a)
    ensures q.Arrays() == old(q.Arrays())
    ensures p.View() == Apply(old(p.View()), e, p.jsonValid)
    ensures q.View() == old(q.View())
  {
    p.Edit(e);
  }

  // Edits on two prompts that share no parts, in any interleaving: each side
  // ends as its own edits alone would leave it.
  method EditBoth(p: Prompt, q: Prompt, edits: seq<(bool, Edit)>)
    requires p != q && p.Separated() && q.Separated() && p.Arrays() !! q.Arrays()
    modifies p, q, p.Arrays(), q.Arrays()
    ensures p.View() == Run(old(p.View()), Side(edits, true), p.jsonValid)
    ensures q.View() == Run(old(q.View()), Side(edits, false), q.jsonValid)
  {
    ghost var v, w := p.View(), q.View();
    var i := 0;
    while i < |edits|
      invariant i <= |edits|
      invariant p.Separated() && q.Separated() && p.Arrays() !! q.Arrays()
      invariant forall a :: a in p.Arrays() ==> a in old(p.Arrays()) || fresh(a)
      invariant forall a :: a in q.Arrays() ==> a in old(q.Arrays()) || fresh(a)
      invariant p.View() == Run(v, Side(edits[..i], true), p.jsonValid)
      invariant q.View() == Run(w, Side(edits[..i], false), q.jsonValid)
    {
      var (side, e) := edits[i];
      ghost var left, right := Side(edits[..i], true), Side(edits[..i], false);
      if side {
        EditOne(p, q, e);
      } else {
        EditOne(q, p, e);
      }
      SideStep(edits, i, true);
      SideStep(edits, i, false);
      RunStep(v, left, e, p.jsonValid);
      RunStep(w, right, e, q.jsonValid);
      assert left + [] == left && right + [] == right;
      i := i + 1;
    }
    assert edits[..i] == edits;
  }

  // Clone, then edits on the prompt and on the copy in any interleaving.
  method EditPromptAndClone(p: Prompt, edits: seq<(bool, Edit)>) returns (q: Prompt)
    requires p.Separated()
    modifies p, p.Arrays()
    ensures p.View() == Run(old(p.View()), Side(edits, true), p.jsonValid)
    ensures q.View() == Run(old(p.View()), Side(edits, false), p.jsonValid)
  {
    q := p.Clone();
    EditBoth(p, q, edits);
  }

  // Inserts, at the front, a copy of message i that shares its parts.
  method InsertShared(p: Prompt, i: nat) returns (id: string)
    requires i < |p.messages|
    modifies p
    ensures p.messages == [old(p.messages)[i].(id := id)] + old(p.messages)
    ensures p.changes == Mark(old(p.changes), id, Inserted) && id !in old(p.changes).messages
    ensures forall m :: m in old(p.messages) ==> m.id != id
    ensures p.params == old(p.params) && p.removed == old(p.removed)
  {
    id := p.Insert(0, p.messages[i]);
  }

  // Why an inserted message needs parts of its own: insert a copy of message i
  // that shares its parts and edit the copy; message i changes too, and the
  // record says nothing about it.
  method EditThroughSharedParts(p: Prompt, i: nat, text: string) returns (id: string)
    requires p.Separated() && i < |p.messages|
    requires p.messages[i].parts.Length > 0 && p.messages[i].parts[0].kind == TextPart
    requires p.messages[i].id !in p.changes.messages
    modifies p, p.Arrays()
    ensures |p.messages| == old(|p.messages|) + 1 && p.messages[i + 1] == old(p.messages[i])
    ensures p.messages[i + 1].parts[0].text == text
    ensures p.messages[i + 1].id !in p.changes.messages
  {
    id := InsertShared(p, i);
    FindIs(p.View().messages, id, 0);
    assert p.messages[0].parts == p.messages[i + 1].parts;
    var _ := p.SetText(id, 0, text);
  }
}
