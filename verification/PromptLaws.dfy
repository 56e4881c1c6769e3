// What each edit of a prompt does and leaves alone, told from the message, part
// and change record it is about, with the error it returns exactly when it does
// nothing.

module PromptLaws {
  import opened Prelude
  import opened Strings
  import opened PromptModel
  import Base64

  // ---- the frame of an edit ----

  // Message i is the first with that ID.
  predicate FirstWith(ms: seq<MessageV>, id: string, i: nat) {
    i < |ms| && ms[i].id == id && forall j :: 0 <= j < i ==> ms[j].id != id
  }

  predicate Known(ms: seq<MessageV>, id: string) {
    exists i :: 0 <= i < |ms| && ms[i].id == id
  }

  // One more edit was recorded; the message is marked edited unless it has a
  // mark, which is stronger.
  predicate EditRecorded(c: Changes, d: Changes, id: string) {
    && d.dirty && d.edits == c.edits + 1 && d.params == c.params
    && d.messages.Keys == c.messages.Keys + {id}
    && (forall k :: k in c.messages ==> d.messages[k] == c.messages[k])
    && (id !in c.messages ==> d.messages[id] == Edited)
  }

  // Part p of message i is now part, and everything else is as it was.
  predicate OnlyPart(v: PromptV, w: PromptV, i: nat, p: nat, part: Part) {
    && i < |v.messages| && p < |v.messages[i].parts| && |w.messages| == |v.messages|
    && (forall j :: 0 <= j < |v.messages| && j != i ==> w.messages[j] == v.messages[j])
    && w.messages[i] == v.messages[i].(parts := w.messages[i].parts)
    && |w.messages[i].parts| == |v.messages[i].parts| && w.messages[i].parts[p] == part
    && (forall q :: 0 <= q < |v.messages[i].parts| && q != p ==> w.messages[i].parts[q] == v.messages[i].parts[q])
    && EditRecorded(v.changes, w.changes, v.messages[i].id)
    && w.params == v.params && w.removed == v.removed && w.nextId == v.nextId
  }

  // Recording an edit: inserted and removed are final, edited is the weakest
  // mark, and replaced does not hide that a message was inserted.
  lemma MarkIs(c: Changes, id: string, kind: ChangeKind)
    ensures var d := Mark(c, id, kind);
      && d.dirty && d.edits == c.edits + 1 && d.params == c.params
      && d.messages.Keys == c.messages.Keys + {id}
      && (forall k :: k in c.messages && k != id ==> d.messages[k] == c.messages[k])
      && (kind == Inserted || kind == Removed ==> d.messages[id] == kind)
      && (kind == Edited ==> d.messages[id] == if id in c.messages then c.messages[id] else Edited)
      && (kind == Replaced ==>
           d.messages[id] == if id in c.messages && c.messages[id] == Inserted then Inserted else Replaced)
  {
  }

  lemma FindIsFirst(ms: seq<MessageV>, id: string)
    ensures Find(ms, id) < |ms| <==> Known(ms, id)
    ensures Find(ms, id) < |ms| ==> FirstWith(ms, id, Find(ms, id))
  {
  }

  lemma WithPartIs(v: PromptV, i: nat, p: nat, part: Part)
    requires i < |v.messages| && p < |v.messages[i].parts|
    ensures OnlyPart(v, WithPart(v, i, p, part), i, p, part)
  {
  }

  // An edit that returns an error changes nothing.
  predicate Refused(v: PromptV, w: PromptV, err: Option<EditError>, e: EditError) {
    w == v && err == Some(e)
  }

  // ---- text ----

  // Message i, the first with the ID, is the one the edit is about.
  predicate About(v: PromptV, w: PromptV, err: Option<EditError>, id: string, i: nat) {
    if Known(v.messages, id) then FirstWith(v.messages, id, i) else Refused(v, w, err, UnknownMessage(id))
  }

  predicate TextOutcome(
    v: PromptV, w: PromptV, err: Option<EditError>, id: string, index: int, i: nat, text: string)
    requires i < |v.messages|
  {
    var parts := v.messages[i].parts;
    if !(0 <= index < |parts|) then Refused(v, w, err, NoPart(id, index))
    else if parts[index].kind != TextPart then Refused(v, w, err, WrongKind(id, index))
    else err == None && OnlyPart(v, w, i, index, parts[index].(text := text))
  }

  lemma SetTextIs(v: PromptV, id: string, index: int, text: string) returns (i: nat)
    ensures var (w, err) := SetText(v, id, index, text);
      About(v, w, err, id, i) && (Known(v.messages, id) ==> TextOutcome(v, w, err, id, index, i, text))
  {
    i := Find(v.messages, id);
    FindIsFirst(v.messages, id);
    if Known(v.messages, id) && 0 <= index < |v.messages[i].parts| {
      WithPartIs(v, i, index, v.messages[i].parts[index].(text := text));
    }
  }

  // ---- tool arguments and results ----

  predicate IsCall(p: Part, callId: string) {
    p.kind == ToolCallPart && p.call.Some? && p.call.value.id == callId
  }

  predicate IsResult(p: Part, callId: string) {
    p.kind == ToolResultPart && p.result.Some? && p.result.value.callId == callId
  }

  predicate FirstCall(parts: seq<Part>, callId: string, p: nat) {
    p < |parts| && IsCall(parts[p], callId) && forall q :: 0 <= q < p ==> !IsCall(parts[q], callId)
  }

  predicate FirstResult(parts: seq<Part>, callId: string, p: nat) {
    p < |parts| && IsResult(parts[p], callId) && forall q :: 0 <= q < p ==> !IsResult(parts[q], callId)
  }

  ghost predicate CallOutcome(
    v: PromptV, w: PromptV, err: Option<EditError>, id: string, callId: string, i: nat, args: string)
    requires i < |v.messages|
  {
    var parts := v.messages[i].parts;
    if exists q :: 0 <= q < |parts| && IsCall(parts[q], callId) then
      && err == None
      && exists p: nat :: FirstCall(parts, callId, p)
           && OnlyPart(v, w, i, p, parts[p].(call := Some(parts[p].call.value.(arguments := args))))
    else Refused(v, w, err, NoCall(id, callId))
  }

  lemma FoundCall(parts: seq<Part>, callId: string)
    ensures var p := FindPart(parts, false, callId);
      if p < |parts| then FirstCall(parts, callId, p) else forall q :: 0 <= q < |parts| ==> !IsCall(parts[q], callId)
  {
    assert forall q :: 0 <= q < |parts| ==> Holds(parts[q], false, callId) == IsCall(parts[q], callId);
  }

  lemma FoundResult(parts: seq<Part>, callId: string)
    ensures var p := FindPart(parts, true, callId);
      if p < |parts| then FirstResult(parts, callId, p) else forall q :: 0 <= q < |parts| ==> !IsResult(parts[q], callId)
  {
    assert forall q :: 0 <= q < |parts| ==> Holds(parts[q], true, callId) == IsResult(parts[q], callId);
  }

  // With valid JSON the first call of that ID in the message gets the arguments.
  lemma SetToolArgumentsIs(v: PromptV, id: string, callId: string, args: string, jsonValid: string -> bool)
    returns (i: nat)
    ensures var (w, err) := SetToolArguments(v, id, callId, args, jsonValid);
      && About(v, w, err, id, i)
      && (Known(v.messages, id) && !jsonValid(args) ==> Refused(v, w, err, BadArguments(callId)))
      && (Known(v.messages, id) && jsonValid(args) ==> CallOutcome(v, w, err, id, callId, i, args))
  {
    i := Find(v.messages, id);
    FindIsFirst(v.messages, id);
    if Known(v.messages, id) {
      var parts := v.messages[i].parts;
      var p := FindPart(parts, false, callId);
      FoundCall(parts, callId);
      if p < |parts| {
        WithPartIs(v, i, p, parts[p].(call := Some(parts[p].call.value.(arguments := args))));
      }
    }
  }

  ghost predicate ResultOutcome(
    v: PromptV, w: PromptV, err: Option<EditError>, id: string, callId: string, i: nat, content: seq<Part>)
    requires i < |v.messages|
  {
    var parts := v.messages[i].parts;
    if exists q :: 0 <= q < |parts| && IsResult(parts[q], callId) then
      && err == None
      && exists p: nat :: FirstResult(parts, callId, p)
           && OnlyPart(v, w, i, p, parts[p].(result := Some(parts[p].result.value.(parts := content))))
    else Refused(v, w, err, NoResult(id, callId))
  }

  // The first result of that call in the message gets the parts.
  lemma SetToolResultIs(v: PromptV, id: string, callId: string, content: seq<Part>) returns (i: nat)
    ensures var (w, err) := SetToolResult(v, id, callId, content);
      About(v, w, err, id, i) && (Known(v.messages, id) ==> ResultOutcome(v, w, err, id, callId, i, content))
  {
    i := Find(v.messages, id);
    FindIsFirst(v.messages, id);
    if Known(v.messages, id) {
      var parts := v.messages[i].parts;
      var p := FindPart(parts, true, callId);
      FoundResult(parts, callId);
      if p < |parts| {
        WithPartIs(v, i, p, parts[p].(result := Some(parts[p].result.value.(parts := content))));
      }
    }
  }

  // ---- text targets ----

  ghost predicate ResultTextOutcome(
    v: PromptV, w: PromptV, err: Option<EditError>, t: TextTarget, i: nat, text: string)
    requires i < |v.messages|
  {
    var parts := v.messages[i].parts;
    if !(0 <= t.part < |parts|) then Refused(v, w, err, NoPart(t.messageId, t.part))
    else if !IsResult(parts[t.part], t.callId) then Refused(v, w, err, NoResult(t.messageId, t.callId))
    else
      var inner := parts[t.part].result.value.parts;
      if !(0 <= t.resultPart < |inner|) then Refused(v, w, err, NoPart(t.messageId, t.resultPart))
      else if inner[t.resultPart].kind != TextPart then Refused(v, w, err, WrongKind(t.messageId, t.resultPart))
      else
        var content := inner[t.resultPart := inner[t.resultPart].(text := text)];
        && err == None
        && exists p: nat :: FirstResult(parts, t.callId, p)
             && OnlyPart(v, w, i, p, parts[p].(result := Some(parts[p].result.value.(parts := content))))
  }

  // A target outside a result is a text part; one inside a result replaces the
  // content of the first result of its call with that of the result it names,
  // its own text changed.
  lemma SetTargetTextIs(v: PromptV, t: TextTarget, text: string) returns (i: nat)
    ensures var (w, err) := SetTargetText(v, t, text);
      && About(v, w, err, t.messageId, i)
      && (Known(v.messages, t.messageId) ==>
           if t.callId == "" then TextOutcome(v, w, err, t.messageId, t.part, i, text)
           else ResultTextOutcome(v, w, err, t, i, text))
  {
    i := Find(v.messages, t.messageId);
    FindIsFirst(v.messages, t.messageId);
    if t.callId == "" {
      i := SetTextIs(v, t.messageId, t.part, text);
    } else if TargetEditOf(v.messages, t, text).ResultTargetEdit? {
      var parts := v.messages[i].parts;
      var content := TargetEditOf(v.messages, t, text).content;
      var p := FindPart(parts, true, t.callId);
      FoundResult(parts, t.callId);
      assert IsResult(parts[t.part], t.callId);
      WithPartIs(v, i, p, parts[p].(result := Some(parts[p].result.value.(parts := content))));
    }
  }

  // ---- media ----

  // The media type is one of the part's kind.
  ghost predicate Fits(kind: PartKind, mediaType: string) {
    exists rest: string :: (kind == ImagePart && mediaType == "image/" + rest) || (kind == AudioPart && mediaType == "audio/" + rest)
  }

  // An image holds a data URI, an audio part the bare payload; the payload
  // decodes, under section 4 of RFC 4648, to the data, and nothing of the old
  // medium is left.
  predicate HoldsMedia(before: Part, p: Part, mediaType: string, data: seq<byte>) {
    && p == before.(data := p.data, url := p.url, mediaType := mediaType, raw := "")
    && (if p.kind == ImagePart then
          && p.data == "" && |"data:" + mediaType + ";base64,"| <= |p.url|
          && p.url[..|"data:" + mediaType + ";base64,"|] == "data:" + mediaType + ";base64,"
          && Base64.Decode(p.url[|"data:" + mediaType + ";base64,"|..]) == Some(data)
        else p.url == "" && Base64.Decode(p.data) == Some(data))
  }

  lemma MediaHeld(part: Part, mediaType: string, data: seq<byte>)
    requires part.kind == ImagePart || part.kind == AudioPart
    ensures HoldsMedia(part, WithMedia(part, mediaType, data), mediaType, data)
  {
    if part.kind == ImagePart {
      ImageHeld(part, mediaType, data);
    } else {
      AudioHeld(part, mediaType, data);
    }
  }

  lemma ImageHeld(part: Part, mediaType: string, data: seq<byte>)
    requires part.kind == ImagePart
    ensures HoldsMedia(part, WithMedia(part, mediaType, data), mediaType, data)
  {
    Base64.RoundTrip(data);
    var head, encoded := "data:" + mediaType + ";base64,", Base64.Encode(data);
    assert (head + encoded)[..|head|] == head && (head + encoded)[|head|..] == encoded;
  }

  lemma AudioHeld(part: Part, mediaType: string, data: seq<byte>)
    requires part.kind == AudioPart
    ensures HoldsMedia(part, WithMedia(part, mediaType, data), mediaType, data)
  {
    Base64.RoundTrip(data);
  }

  lemma PrefixFits(kind: PartKind, mediaType: string)
    requires kind == ImagePart || kind == AudioPart
    ensures HasPrefix(mediaType, MediaPrefix(kind)) <==> Fits(kind, mediaType)
  {
    PrefixIs(mediaType, "image/");
    PrefixIs(mediaType, "audio/");
  }

  ghost predicate MediaOutcome(
    v: PromptV, w: PromptV, err: Option<EditError>, id: string, index: int, i: nat, mediaType: string, data: seq<byte>)
    requires i < |v.messages|
  {
    var parts := v.messages[i].parts;
    if !(0 <= index < |parts|) then Refused(v, w, err, NoPart(id, index))
    else if parts[index].kind != ImagePart && parts[index].kind != AudioPart then Refused(v, w, err, WrongKind(id, index))
    else if '/' !in mediaType then Refused(v, w, err, NotMime)
    else if !Fits(parts[index].kind, mediaType) then Refused(v, w, err, WrongMime)
    else if data == [] then Refused(v, w, err, EmptyMedia)
    else
      && err == None && |w.messages| == |v.messages| && |w.messages[i].parts| == |parts|
      && OnlyPart(v, w, i, index, w.messages[i].parts[index])
      && HoldsMedia(parts[index], w.messages[i].parts[index], mediaType, data)
  }

  lemma SetMediaIs(v: PromptV, id: string, index: int, mediaType: string, data: seq<byte>) returns (i: nat)
    ensures var (w, err) := SetMedia(v, id, index, mediaType, data);
      && About(v, w, err, id, i)
      && (Known(v.messages, id) ==> MediaOutcome(v, w, err, id, index, i, TrimSpace(mediaType), data))
  {
    i := Find(v.messages, id);
    FindIsFirst(v.messages, id);
    if Known(v.messages, id) {
      MediaSet(v, id, index, i, mediaType, data);
    }
  }

  lemma MediaSet(v: PromptV, id: string, index: int, i: nat, mediaType: string, data: seq<byte>)
    requires i == Find(v.messages, id) && i < |v.messages|
    ensures var (w, err) := SetMedia(v, id, index, mediaType, data);
      MediaOutcome(v, w, err, id, index, i, TrimSpace(mediaType), data)
  {
    if 0 <= index < |v.messages[i].parts| {
      var part := v.messages[i].parts[index];
      if part.kind == ImagePart || part.kind == AudioPart {
        PrefixFits(part.kind, TrimSpace(mediaType));
        MediaHeld(part, TrimSpace(mediaType), data);
        WithPartIs(v, i, index, WithMedia(part, TrimSpace(mediaType), data));
      }
    }
  }

  // ---- insert and remove ----

  // The new message stands at the given place, or the nearest there is, under
  // an ID of its own, and every other keeps its order.
  lemma InsertIs(v: PromptV, at: int, m: MessageV)
    ensures var (w, id) := Insert(v, at, m);
      var a: nat := if at < 0 then 0 else if at > |v.messages| then |v.messages| else at;
      && |w.messages| == |v.messages| + 1 && w.messages[a] == m.(id := id)
      && (forall j :: 0 <= j < a ==> w.messages[j] == v.messages[j])
      && (forall j :: a <= j < |v.messages| ==> w.messages[j + 1] == v.messages[j])
      && !Known(v.messages, id) && id !in v.changes.messages
      && w.changes == Changes(v.changes.messages[id := Inserted], v.changes.params, true, v.changes.edits + 1)
      && w.params == v.params && w.removed == v.removed && w.nextId > v.nextId
  {
    var id := Insert(v, at, m).1;
    assert id !in Taken(v);
    forall i | 0 <= i < |v.messages|
      ensures v.messages[i].id != id
    {
      assert v.messages[i] in v.messages;
    }
  }

  // Message i is gone; one that was inserted leaves no trace, any other is kept
  // for the host.
  predicate Gone(v: PromptV, w: PromptV, i: nat) {
    && i < |v.messages| && |w.messages| == |v.messages| - 1
    && (forall j :: 0 <= j < i ==> w.messages[j] == v.messages[j])
    && (forall j :: i < j < |v.messages| ==> w.messages[j - 1] == v.messages[j])
    && w.params == v.params && w.nextId == v.nextId
    && var c, id := v.changes, v.messages[i].id;
       if id in c.messages && c.messages[id] == Inserted then
         w.removed == v.removed && w.changes == c.(messages := c.messages - {id})
       else
         && w.removed == v.removed + [v.messages[i]]
         && w.changes == Changes(c.messages[id := Removed], c.params, true, c.edits + 1)
  }

  // The first message with the ID goes, and every other keeps its order.
  lemma RemoveIs(v: PromptV, id: string) returns (i: nat)
    ensures var (w, err) := Remove(v, id);
      About(v, w, err, id, i) && (Known(v.messages, id) ==> Gone(v, w, i))
  {
    i := Find(v.messages, id);
    FindIsFirst(v.messages, id);
  }

  // The call or result a part holds, and whether it is a result.
  predicate IsTool(p: Part, result: bool, callId: string) {
    if result then IsResult(p, callId) else IsCall(p, callId)
  }

  predicate HasPartner(ms: seq<MessageV>, p: Part) {
    || (p.kind == ToolCallPart && p.call.Some? && Holder(ms, true, p.call.value.id) != "")
    || (p.kind == ToolResultPart && p.result.Some? && Holder(ms, false, p.result.value.callId) != "")
  }

  // Part k is the first whose partner is seen, and the error says so.
  ghost predicate Reports(ms: seq<MessageV>, m: MessageV, parts: seq<Part>, e: EditError, k: nat, result: bool) {
    && k < |parts| && e.Dangling? && e.messageId == m.id && IsTool(parts[k], result, e.callId)
    && e.partnerId == Holder(ms, !result, e.callId) && e.partnerId != ""
    && forall j :: 0 <= j < k ==> !HasPartner(ms, parts[j])
  }

  // No error means that no part has a partner left; otherwise the error names
  // the first part that has one, and the partner.
  lemma {:induction false} DanglingPartIs(ms: seq<MessageV>, m: MessageV, parts: seq<Part>) returns (k: nat, result: bool)
    ensures var e := DanglingPart(ms, m, parts);
      if e.None? then forall q :: 0 <= q < |parts| ==> !HasPartner(ms, parts[q])
      else Reports(ms, m, parts, e.value, k, result)
  {
    k, result := 0, false;
    if parts != [] {
      if PartnerOf(ms, m, parts[0]).Some? {
        result := parts[0].kind == ToolResultPart;
      } else {
        var rest := parts[1..];
        k, result := DanglingPartIs(ms, m, rest);
        assert forall q :: 1 <= q < |parts| ==> parts[q] == rest[q - 1];
        k := k + 1;
      }
    }
  }

  // ---- parameters ----

  // n is x without its fraction.
  predicate WholePart(x: real, n: int) {
    if x >= 0.0 then n as real <= x < n as real + 1.0 else n as real - 1.0 < x <= n as real
  }

  // The number a value stands for where an int is wanted.
  predicate GivesInt(v: Value, n: int) {
    match v
    case Int(m) => n == m
    case Int32(m) => n == m
    case Int64(m) => n == m
    case Float64(x) => WholePart(x, n)
    case Float32(x) => WholePart(x, n)
    case Number(asInt, _) => asInt == Some(n)
    case IntPointer(target) => target == Some(n)
    case _ => false
  }

  // The number a value stands for where a float is wanted; an int32 is none.
  predicate GivesFloat(v: Value, x: real) {
    match v
    case Float64(y) => x == y
    case Float32(y) => x == y
    case Int(n) => x == n as real
    case Int64(n) => x == n as real
    case Number(_, asFloat) => asFloat == Some(x)
    case FloatPointer(target) => target == Some(x)
    case _ => false
  }

  lemma IntIs(v: Value, n: int)
    ensures ToInt(v) == Some(n) <==> GivesInt(v, n)
  {
  }

  lemma FloatIs(v: Value, x: real)
    ensures ToFloat(v) == Some(x) <==> GivesFloat(v, x)
  {
  }

  // Field is now the number the value stands for, or as it was when it stands
  // for none.
  ghost predicate Took<T(!new)>(gives: T -> bool, before: Option<T>, after: Option<T>) {
    (exists x :: gives(x) && after == Some(x)) || ((forall x :: !gives(x)) && after == before)
  }

  // The parameter is recorded as given; only max_tokens, temperature and top_p
  // also set their field, to the number given.
  lemma SetParamIs(v: PromptV, name: string, value: Value)
    ensures var w := SetParam(v, name, value);
      && w == v.(params := w.params, changes := w.changes)
      && w.changes == Changes(v.changes.messages, v.changes.params[name := value], true, v.changes.edits + 1)
      && w.params == v.params.(maxTokens := w.params.maxTokens, temperature := w.params.temperature, topP := w.params.topP)
      && (if name == "max_tokens" then Took((n: int) => GivesInt(value, n), v.params.maxTokens, w.params.maxTokens)
          else w.params.maxTokens == v.params.maxTokens)
      && (if name == "temperature" then Took((x: real) => GivesFloat(value, x), v.params.temperature, w.params.temperature)
          else w.params.temperature == v.params.temperature)
      && (if name == "top_p" then Took((x: real) => GivesFloat(value, x), v.params.topP, w.params.topP)
          else w.params.topP == v.params.topP)
  {
    forall n: int ensures ToInt(value) == Some(n) <==> GivesInt(value, n) { IntIs(value, n); }
    forall x: real ensures ToFloat(value) == Some(x) <==> GivesFloat(value, x) { FloatIs(value, x); }
  }

  // ---- reset ----

  lemma ResetIs(v: PromptV)
    ensures var w := Reset(v);
      && w.changes == Changes(map[], map[], false, 0) && w.removed == []
      && w.messages == v.messages && w.params == v.params && w.nextId == v.nextId
  {
  }
}
