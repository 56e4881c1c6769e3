// What the host may rely on when it re-encodes a prompt: after any run of edit
// methods since the last Reset, the change record tells the conversation apart
// from the original one.

module PromptFaithful {
  import opened Prelude
  import opened PromptModel

  function Ids(ms: seq<MessageV>): (ids: seq<string>)
    ensures |ids| == |ms| && forall i :: 0 <= i < |ms| ==> ids[i] == ms[i].id
  {
    seq(|ms|, i requires 0 <= i < |ms| => ms[i].id)
  }

  predicate Distinct<T(==)>(s: seq<T>) {
    forall i, j :: 0 <= i < j < |s| ==> s[i] != s[j]
  }

  // The entries that also occur in keep, in order.
  function Common(s: seq<string>, keep: seq<string>): seq<string> {
    if s == [] then []
    else (if s[0] in keep then [s[0]] else []) + Common(s[1..], keep)
  }

  // ---- the record ----

  predicate HasMark(c: Changes, id: string, kind: ChangeKind) {
    id in c.messages && c.messages[id] == kind
  }

  // Each mark says what became of its message.
  predicate MarksTrue(original: seq<string>, ids: seq<string>, c: Changes) {
    forall id :: id in c.messages ==>
      match c.messages[id]
      case Edited => id in original && id in ids
      case Inserted => id !in original && id in ids
      case Removed => id in original && id !in ids
      case Replaced => false
  }

  // And nothing goes unrecorded.
  predicate MarksComplete(original: seq<string>, ids: seq<string>, c: Changes) {
    && (forall id :: id in ids && id !in original ==> HasMark(c, id, Inserted))
    && (forall id :: id in original && id !in ids ==> HasMark(c, id, Removed))
  }

  // A message without a mark is an original, unchanged.
  predicate Untouched(original: seq<MessageV>, ms: seq<MessageV>, c: Changes) {
    forall m :: m in ms && m.id !in c.messages ==> m in original
  }

  // The removed messages are the ones marked so, each once.
  ghost predicate RemovedKept(v: PromptV) {
    && Distinct(Ids(v.removed))
    && (forall id :: id in Ids(v.removed) <==> HasMark(v.changes, id, Removed))
  }

  // Nothing changed at all while the record is not dirty.
  predicate CleanIsSame(original: PromptV, v: PromptV) {
    && (v.changes.dirty <==> v.changes.edits > 0)
    && (!v.changes.dirty ==> v.messages == original.messages && v.params == original.params && v.changes == NoChanges)
  }

  // A parameter without a mark is the original one.
  predicate ParamsTrue(original: PromptV, v: PromptV) {
    && ("max_tokens" !in v.changes.params ==> v.params.maxTokens == original.params.maxTokens)
    && ("temperature" !in v.changes.params ==> v.params.temperature == original.params.temperature)
    && ("top_p" !in v.changes.params ==> v.params.topP == original.params.topP)
    && v.params == original.params.(maxTokens := v.params.maxTokens, temperature := v.params.temperature, topP := v.params.topP)
  }

  ghost predicate Faithful(original: PromptV, v: PromptV) {
    && Distinct(Ids(original.messages)) && Distinct(Ids(v.messages))
    && MarksTrue(Ids(original.messages), Ids(v.messages), v.changes)
    && MarksComplete(Ids(original.messages), Ids(v.messages), v.changes)
    && Untouched(original.messages, v.messages, v.changes)
    && Common(Ids(v.messages), Ids(original.messages)) == Common(Ids(original.messages), Ids(v.messages))
    && RemovedKept(v)
    && CleanIsSame(original, v)
    && ParamsTrue(original, v)
  }

  // ---- filters ----

  lemma {:induction false} CommonAppend(a: seq<string>, b: seq<string>, keep: seq<string>)
    ensures Common(a + b, keep) == Common(a, keep) + Common(b, keep)
  {
    if a == [] {
      assert a + b == b;
    } else {
      assert (a + b)[1..] == a[1..] + b;
      CommonAppend(a[1..], b, keep);
    }
  }

  lemma {:induction false} CommonAll(s: seq<string>, keep: seq<string>)
    requires forall x :: x in s ==> x in keep
    ensures Common(s, keep) == s
  {
    if s != [] {
      CommonAll(s[1..], keep);
    }
  }

  // Only the entries of s matter in keep.
  lemma {:induction false} CommonSame(s: seq<string>, a: seq<string>, b: seq<string>)
    requires forall x :: x in s ==> (x in a <==> x in b)
    ensures Common(s, a) == Common(s, b)
  {
    if s != [] {
      CommonSame(s[1..], a, b);
    }
  }

  // s without x.
  function Without(s: seq<string>, x: string): seq<string> {
    if s == [] then []
    else (if s[0] == x then [] else [s[0]]) + Without(s[1..], x)
  }

  lemma {:induction false} WithoutAppend(a: seq<string>, b: seq<string>, x: string)
    ensures Without(a + b, x) == Without(a, x) + Without(b, x)
  {
    if a == [] {
      assert a + b == b;
    } else {
      assert (a + b)[1..] == a[1..] + b;
      WithoutAppend(a[1..], b, x);
    }
  }

  lemma {:induction false} WithoutAbsent(s: seq<string>, x: string)
    requires x !in s
    ensures Without(s, x) == s
  {
    if s != [] {
      WithoutAbsent(s[1..], x);
    }
  }

  lemma WithoutBetween(a: seq<string>, x: string, b: seq<string>)
    requires x !in a && x !in b
    ensures Without(a + [x] + b, x) == a + b
  {
    WithoutAppend(a + [x], b, x);
    WithoutAppend(a, [x], x);
    WithoutAbsent(a, x);
    WithoutAbsent(b, x);
    WithoutOne(x);
    assert a + [] == a;
  }

  lemma WithoutOne(x: string)
    ensures Without([x], x) == []
  {
    assert [x][1..] == [];
  }

  lemma CutAt(s: seq<string>, i: nat)
    requires i < |s| && Distinct(s)
    ensures s == s[..i] + [s[i]] + s[i + 1..]
    ensures s[i] !in s[..i] && s[i] !in s[i + 1..]
  {
  }

  lemma WithoutAt(s: seq<string>, i: nat)
    requires i < |s| && Distinct(s)
    ensures Without(s, s[i]) == s[..i] + s[i + 1..]
  {
    CutAt(s, i);
    WithoutBetween(s[..i], s[i], s[i + 1..]);
  }

  lemma {:induction false} WithoutCommon(s: seq<string>, keep: seq<string>, x: string)
    ensures Without(Common(s, keep), x) == Common(Without(s, x), keep)
  {
    if s != [] {
      var head := if s[0] in keep then [s[0]] else [];
      WithoutAppend(head, Common(s[1..], keep), x);
      CommonAppend(if s[0] == x then [] else [s[0]], Without(s[1..], x), keep);
      WithoutCommon(s[1..], keep, x);
    }
  }

  lemma {:induction false} CommonWithout(s: seq<string>, keep: seq<string>, less: seq<string>, x: string)
    requires forall y :: y in less <==> y in keep && y != x
    ensures Without(Common(s, keep), x) == Common(s, less)
  {
    if s != [] {
      var head := if s[0] in keep then [s[0]] else [];
      WithoutAppend(head, Common(s[1..], keep), x);
      CommonWithout(s[1..], keep, less, x);
    }
  }

  // ---- each edit keeps the record faithful ----

  lemma ResetIsFaithful(v: PromptV)
    requires Distinct(Ids(v.messages))
    ensures Faithful(Reset(v), Reset(v))
  {
    CommonAll(Ids(v.messages), Ids(v.messages));
  }

  lemma PartEditKeeps(original: PromptV, v: PromptV, i: nat, p: nat, part: Part)
    requires Faithful(original, v)
    requires i < |v.messages| && p < |v.messages[i].parts|
    ensures Faithful(original, WithPart(v, i, p, part))
  {
    var w := WithPart(v, i, p, part);
    var id := v.messages[i].id;
    assert Ids(w.messages) == Ids(v.messages);
    assert Ids(v.messages)[i] == id;
    if id !in v.changes.messages {
      assert v.messages[i] in original.messages;
      IdIn(original.messages, v.messages[i]);
    }
    forall m | m in w.messages && m.id !in w.changes.messages
      ensures m in original.messages
    {
      assert id in w.changes.messages;
      assert m in v.messages;
    }
  }

  lemma IdIn(ms: seq<MessageV>, m: MessageV)
    requires m in ms
    ensures m.id in Ids(ms)
  {
    var k :| 0 <= k < |ms| && ms[k] == m;
    assert Ids(ms)[k] == m.id;
  }

  // newID never returns the ID of a present or an original message.
  lemma FreshId(original: PromptV, v: PromptV)
    requires Faithful(original, v)
    ensures var id := NewName(NextFree(Taken(v), v.nextId));
      id !in Ids(v.messages) && id !in Ids(original.messages) && id !in v.changes.messages
  {
    var id := NewName(NextFree(Taken(v), v.nextId));
    forall k | 0 <= k < |v.messages|
      ensures Ids(v.messages)[k] != id
    {
      assert v.messages[k] in v.messages;
    }
  }

  function Spliced(s: seq<string>, a: nat, x: string): seq<string>
    requires a <= |s|
  {
    s[..a] + [x] + s[a..]
  }

  lemma CommonBetween(a: seq<string>, x: string, b: seq<string>, keep: seq<string>)
    requires x !in keep
    ensures Common(a + [x] + b, keep) == Common(a + b, keep)
  {
    CommonAppend(a + [x], b, keep);
    CommonAppend(a, [x], keep);
    CommonAppend(a, b, keep);
    CommonNone(x, keep);
    assert Common(a, keep) + [] == Common(a, keep);
  }

  lemma CommonNone(x: string, keep: seq<string>)
    requires x !in keep
    ensures Common([x], keep) == []
  {
    assert [x][1..] == [];
  }

  lemma SplicedOrder(original: seq<string>, ids: seq<string>, a: nat, x: string)
    requires a <= |ids| && x !in ids && x !in original
    requires Common(ids, original) == Common(original, ids)
    ensures Common(Spliced(ids, a, x), original) == Common(original, Spliced(ids, a, x))
  {
    CommonBetween(ids[..a], x, ids[a..], original);
    assert ids[..a] + ids[a..] == ids;
    CommonSame(original, ids, Spliced(ids, a, x));
  }

  lemma SplicedDistinct(ids: seq<string>, a: nat, x: string)
    requires a <= |ids| && x !in ids && Distinct(ids)
    ensures Distinct(Spliced(ids, a, x))
    ensures forall y :: y in Spliced(ids, a, x) <==> y in ids || y == x
  {
    assert ids == ids[..a] + ids[a..];
  }

  lemma InsertKeeps(original: PromptV, v: PromptV, at: int, m: MessageV)
    requires Faithful(original, v)
    ensures Faithful(original, Insert(v, at, m).0)
  {
    var (w, id) := Insert(v, at, m);
    var a := Clamp(at, |v.messages|);
    var ids := Ids(v.messages);
    FreshId(original, v);
    InsertedIds(v, at, m);
    SplicedOrder(Ids(original.messages), ids, a, id);
    SplicedDistinct(ids, a, id);
    InsertedUntouched(original, v, at, m);
    InsertedMarks(Ids(original.messages), ids, Ids(w.messages), v.changes, id);
  }

  lemma InsertedIds(v: PromptV, at: int, m: MessageV)
    ensures var (w, id) := Insert(v, at, m);
      Ids(w.messages) == Spliced(Ids(v.messages), Clamp(at, |v.messages|), id)
  {
  }

  lemma InsertedMarks(original: seq<string>, ids: seq<string>, more: seq<string>, c: Changes, id: string)
    requires MarksTrue(original, ids, c) && MarksComplete(original, ids, c)
    requires id !in ids && id !in original && id !in c.messages
    requires forall y :: y in more <==> y in ids || y == id
    ensures MarksTrue(original, more, Mark(c, id, Inserted)) && MarksComplete(original, more, Mark(c, id, Inserted))
  {
  }

  lemma InsertedUntouched(original: PromptV, v: PromptV, at: int, m: MessageV)
    requires Untouched(original.messages, v.messages, v.changes)
    ensures Untouched(original.messages, Insert(v, at, m).0.messages, Insert(v, at, m).0.changes)
  {
    var (w, id) := Insert(v, at, m);
    assert id in w.changes.messages;
    forall x | x in w.messages && x.id !in w.changes.messages
      ensures x in v.messages && x.id !in v.changes.messages
    {
    }
  }

  lemma RemovedOrder(original: seq<string>, ids: seq<string>, i: nat)
    requires i < |ids| && Distinct(ids)
    requires Common(ids, original) == Common(original, ids)
    ensures Common(ids[..i] + ids[i + 1..], original) == Common(original, ids[..i] + ids[i + 1..])
  {
    WithoutAt(ids, i);
    WithoutCommon(ids, original, ids[i]);
    RemovedDistinct(ids, i);
    CommonWithout(original, ids, ids[..i] + ids[i + 1..], ids[i]);
  }

  lemma RemovedDistinct(ids: seq<string>, i: nat)
    requires i < |ids| && Distinct(ids)
    ensures Distinct(ids[..i] + ids[i + 1..])
    ensures forall y :: y in ids[..i] + ids[i + 1..] <==> y in ids && y != ids[i]
  {
    assert ids == ids[..i] + [ids[i]] + ids[i + 1..];
  }

  lemma RemoveKeeps(original: PromptV, v: PromptV, i: nat)
    requires Faithful(original, v) && i < |v.messages|
    ensures Faithful(original, RemoveFound(v, i))
  {
    var ids := Ids(v.messages);
    RemovedIds(v, i);
    RemovedOrder(Ids(original.messages), ids, i);
    RemovedDistinct(ids, i);
    RemovedUntouched(original, v, i);
    RemovedMarks(Ids(original.messages), v, i);
    RemovedListed(Ids(original.messages), v, i);
    RemovedParams(original, v, i);
  }

  lemma RemovedIds(v: PromptV, i: nat)
    requires i < |v.messages|
    ensures Ids(RemoveFound(v, i).messages) == Ids(v.messages)[..i] + Ids(v.messages)[i + 1..]
  {
  }

  lemma RemovedMarks(original: seq<string>, v: PromptV, i: nat)
    requires i < |v.messages| && Distinct(Ids(v.messages))
    requires MarksTrue(original, Ids(v.messages), v.changes) && MarksComplete(original, Ids(v.messages), v.changes)
    ensures MarksTrue(original, Ids(RemoveFound(v, i).messages), RemoveFound(v, i).changes)
    ensures MarksComplete(original, Ids(RemoveFound(v, i).messages), RemoveFound(v, i).changes)
  {
    RemovedIds(v, i);
    RemovedDistinct(Ids(v.messages), i);
  }

  lemma RemovedListed(original: seq<string>, v: PromptV, i: nat)
    requires i < |v.messages| && RemovedKept(v)
    requires MarksTrue(original, Ids(v.messages), v.changes)
    ensures RemovedKept(RemoveFound(v, i))
  {
    var id := Ids(v.messages)[i];
    if !InsertedHere(v.changes, id) {
      assert Ids(RemoveFound(v, i).removed) == Ids(v.removed) + [id];
      assert id !in Ids(v.removed);
    }
  }

  lemma RemovedParams(original: PromptV, v: PromptV, i: nat)
    requires i < |v.messages| && CleanIsSame(original, v) && ParamsTrue(original, v)
    ensures CleanIsSame(original, RemoveFound(v, i)) && ParamsTrue(original, RemoveFound(v, i))
  {
  }

  lemma RemovedUntouched(original: PromptV, v: PromptV, i: nat)
    requires i < |v.messages| && Distinct(Ids(v.messages)) && Untouched(original.messages, v.messages, v.changes)
    ensures Untouched(original.messages, RemoveFound(v, i).messages, RemoveFound(v, i).changes)
  {
    var w := RemoveFound(v, i);
    forall x | x in w.messages && x.id !in w.changes.messages
      ensures x in v.messages && x.id !in v.changes.messages
    {
      var k :| 0 <= k < |w.messages| && w.messages[k] == x;
      var j := if k < i then k else k + 1;
      assert v.messages[j] == x;
      assert Ids(v.messages)[j] != Ids(v.messages)[i];
    }
  }

  lemma ParamKeeps(original: PromptV, v: PromptV, name: string, value: Value)
    requires Faithful(original, v)
    ensures Faithful(original, SetParam(v, name, value))
  {
  }

  // Every edit that rewrites a part does so through one WithPart, or fails and
  // changes nothing.
  ghost predicate PartEdit(v: PromptV, w: PromptV) {
    w == v || exists i: nat, p: nat, part :: PartWritten(v, w, i, p, part)
  }

  predicate PartWritten(v: PromptV, w: PromptV, i: nat, p: nat, part: Part) {
    && i < |v.messages| && p < |v.messages[i].parts| && w == WithPart(v, i, p, part)
    && SameTool(v.messages[i].parts[p], part)
  }

  // A part edit keeps the part's kind and the ID of its call or result.
  predicate SameTool(a: Part, b: Part) {
    && a.kind == b.kind
    && a.call.Some? == b.call.Some? && (a.call.Some? ==> a.call.value.id == b.call.value.id)
    && a.result.Some? == b.result.Some? && (a.result.Some? ==> a.result.value.callId == b.result.value.callId)
  }

  lemma TextIsPartEdit(v: PromptV, id: string, index: int, text: string)
    ensures PartEdit(v, SetText(v, id, index, text).0)
  {
    var i := Find(v.messages, id);
    if SetText(v, id, index, text).1.None? {
      assert PartWritten(v, SetText(v, id, index, text).0, i, index, v.messages[i].parts[index].(text := text));
    }
  }

  lemma ArgumentsIsPartEdit(v: PromptV, id: string, callId: string, args: string, jsonValid: string -> bool)
    ensures PartEdit(v, SetToolArguments(v, id, callId, args, jsonValid).0)
  {
    var i := Find(v.messages, id);
    if SetToolArguments(v, id, callId, args, jsonValid).1.None? {
      var p := FindPart(v.messages[i].parts, false, callId);
      var was := v.messages[i].parts[p];
      assert PartWritten(v, SetToolArguments(v, id, callId, args, jsonValid).0, i, p,
        was.(call := Some(was.call.value.(arguments := args))));
    }
  }

  lemma ResultIsPartEdit(v: PromptV, id: string, callId: string, content: seq<Part>)
    ensures PartEdit(v, SetToolResult(v, id, callId, content).0)
  {
    var i := Find(v.messages, id);
    if SetToolResult(v, id, callId, content).1.None? {
      var p := FindPart(v.messages[i].parts, true, callId);
      var was := v.messages[i].parts[p];
      assert PartWritten(v, SetToolResult(v, id, callId, content).0, i, p,
        was.(result := Some(was.result.value.(parts := content))));
    }
  }

  lemma MediaIsPartEdit(v: PromptV, id: string, index: int, mediaType: string, data: seq<byte>)
    ensures PartEdit(v, SetMedia(v, id, index, mediaType, data).0)
  {
    var i := Find(v.messages, id);
    if SetMedia(v, id, index, mediaType, data).1.None? {
      assert PartWritten(v, SetMedia(v, id, index, mediaType, data).0, i, index,
        WithMedia(v.messages[i].parts[index], TrimSpace(mediaType), data));
    }
  }

  lemma PartEditIsFaithful(original: PromptV, v: PromptV, w: PromptV)
    requires Faithful(original, v) && PartEdit(v, w)
    ensures Faithful(original, w)
  {
    if w != v {
      var i: nat, p: nat, part :| PartWritten(v, w, i, p, part);
      PartEditKeeps(original, v, i, p, part);
    }
  }

  lemma EditKeeps(original: PromptV, v: PromptV, e: Edit, jsonValid: string -> bool)
    requires Faithful(original, v)
    ensures Faithful(original, Apply(v, e, jsonValid))
  {
    match e
    case InsertEdit(at, m) => InsertKeeps(original, v, at, m);
    case AppendEdit(m) => InsertKeeps(original, v, |v.messages|, m);
    case RemoveEdit(id) => RemoveEditKeeps(original, v, id);
    case ParamEdit(name, value) => ParamKeeps(original, v, name, value);
    case _ =>
      RewriteIsPartEdit(v, e, jsonValid);
      PartEditIsFaithful(original, v, Apply(v, e, jsonValid));
  }

  lemma RemoveEditKeeps(original: PromptV, v: PromptV, id: string)
    requires Faithful(original, v)
    ensures Faithful(original, Remove(v, id).0)
  {
    if Find(v.messages, id) < |v.messages| {
      RemoveKeeps(original, v, Find(v.messages, id));
    }
  }

  predicate Rewrites(e: Edit) {
    !e.InsertEdit? && !e.AppendEdit? && !e.RemoveEdit? && !e.ParamEdit?
  }

  lemma RewriteIsPartEdit(v: PromptV, e: Edit, jsonValid: string -> bool)
    requires Rewrites(e)
    ensures PartEdit(v, Apply(v, e, jsonValid))
  {
    match e
    case TextEdit(id, index, text) => TextIsPartEdit(v, id, index, text);
    case ArgumentsEdit(id, callId, args) => ArgumentsIsPartEdit(v, id, callId, args, jsonValid);
    case ResultEdit(id, callId, content) => ResultIsPartEdit(v, id, callId, content);
    case MediaEdit(id, index, mediaType, data) => MediaIsPartEdit(v, id, index, mediaType, data);
    case TargetTextEdit(t, text) =>
      match TargetEditOf(v.messages, t, text) {
        case NoTarget(_) =>
        case TextTargetEdit => TextIsPartEdit(v, t.messageId, t.part, text);
        case ResultTargetEdit(content) => ResultIsPartEdit(v, t.messageId, t.callId, content);
      }
  }

  // After any run of edits since Reset the record is faithful.
  lemma {:induction false} RecordStaysFaithful(v: PromptV, edits: seq<Edit>, jsonValid: string -> bool)
    requires Distinct(Ids(v.messages))
    ensures Faithful(Reset(v), Run(Reset(v), edits, jsonValid))
  {
    if edits == [] {
      ResetIsFaithful(v);
    } else {
      var n := |edits| - 1;
      RecordStaysFaithful(v, edits[..n], jsonValid);
      EditKeeps(Reset(v), Run(Reset(v), edits[..n], jsonValid), edits[n], jsonValid);
    }
  }

  // What the record decides, message by message: "removed" marks exactly the
  // originals missing from the conversation, "inserted" exactly the messages
  // that are no originals, and an unmarked message is the original with its ID.
  lemma RecordDecides(original: PromptV, v: PromptV, id: string)
    requires Faithful(original, v)
    ensures HasMark(v.changes, id, Removed) <==> id in Ids(original.messages) && id !in Ids(v.messages)
    ensures HasMark(v.changes, id, Inserted) <==> id in Ids(v.messages) && id !in Ids(original.messages)
    ensures forall i, j :: (0 <= i < |v.messages| && 0 <= j < |original.messages| && v.messages[i].id == id
                && original.messages[j].id == id && id !in v.changes.messages
              ==> v.messages[i] == original.messages[j])
  {
    forall i, j | 0 <= i < |v.messages| && 0 <= j < |original.messages| && v.messages[i].id == id
                && original.messages[j].id == id && id !in v.changes.messages
      ensures v.messages[i] == original.messages[j]
    {
      assert v.messages[i] in original.messages;
      var k :| 0 <= k < |original.messages| && original.messages[k] == v.messages[i];
      assert Ids(original.messages)[k] == Ids(original.messages)[j];
    }
  }
}
