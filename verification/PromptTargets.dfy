// Listing the editable texts of a prompt and writing them back
// (pluginapi/target.go): rewriting every listed target, in any order, changes
// those texts and nothing else.

module PromptTargets {
  import opened Prelude
  import opened PromptModel
  import opened PromptFaithful

  // Where a text is: in part p of message i, or (inner >= 0) in a part of the
  // tool result that part p holds.
  datatype Place = Place(message: nat, part: nat, inner: int)

  predicate Wanted(roles: seq<Role>, role: Role) {
    roles == [] || role in roles
  }

  predicate ResultAt(p: Part) {
    p.kind == ToolResultPart && p.result.Some?
  }

  predicate HasText(ms: seq<MessageV>, l: Place) {
    l.message < |ms| && l.part < |ms[l.message].parts| && InPart(ms[l.message].parts[l.part], l.inner)
  }

  // The place holds a text that TextTargets must list.
  predicate IsText(ms: seq<MessageV>, roles: seq<Role>, l: Place) {
    HasText(ms, l) && (roles != [] ==> ms[l.message].role in roles)
  }

  predicate InPart(p: Part, inner: int) {
    if inner == -1 then p.kind == TextPart
    else
      && p.kind == ToolResultPart && p.result.Some?
      && 0 <= inner < |p.result.value.parts| && p.result.value.parts[inner].kind == TextPart
  }

  // ---- the places, in conversation order ----

  function InnerPlaces(inner: seq<Part>, i: nat, p: nat, n: nat): seq<Place>
    requires n <= |inner|
  {
    if n == 0 then []
    else InnerPlaces(inner, i, p, n - 1) + if inner[n - 1].kind == TextPart then [Place(i, p, n - 1)] else []
  }

  function PartPlaces(part: Part, i: nat, p: nat): seq<Place> {
    if part.kind == TextPart then [Place(i, p, -1)]
    else if ResultAt(part) then InnerPlaces(part.result.value.parts, i, p, |part.result.value.parts|)
    else []
  }

  function MessagePlaces(parts: seq<Part>, i: nat, n: nat): seq<Place>
    requires n <= |parts|
  {
    if n == 0 then [] else MessagePlaces(parts, i, n - 1) + PartPlaces(parts[n - 1], i, n - 1)
  }

  function PlacesUpTo(ms: seq<MessageV>, roles: seq<Role>, n: nat): seq<Place>
    requires n <= |ms|
  {
    if n == 0 then []
    else PlacesUpTo(ms, roles, n - 1) + PlacesIn(ms, roles, n - 1)
  }

  function Places(ms: seq<MessageV>, roles: seq<Role>): seq<Place> {
    PlacesUpTo(ms, roles, |ms|)
  }

  // ---- they are exactly the text places, each once, ascending ----

  predicate Before(a: Place, b: Place) {
    || a.message < b.message
    || (a.message == b.message && (a.part < b.part || (a.part == b.part && a.inner < b.inner)))
  }

  predicate Ascending(s: seq<Place>) {
    forall j, k :: 0 <= j < k < |s| ==> Before(s[j], s[k])
  }

  lemma AscendingAppend(a: seq<Place>, b: seq<Place>)
    requires Ascending(a) && Ascending(b)
    requires forall j, k :: 0 <= j < |a| && 0 <= k < |b| ==> Before(a[j], b[k])
    ensures Ascending(a + b)
  {
  }

  predicate InInner(l: Place, inner: seq<Part>, i: nat, p: nat, n: nat) {
    l.message == i && l.part == p && 0 <= l.inner < n <= |inner| && inner[l.inner].kind == TextPart
  }

  lemma {:induction false} InnerPlacesAre(inner: seq<Part>, i: nat, p: nat, n: nat)
    requires n <= |inner|
    ensures Ascending(InnerPlaces(inner, i, p, n))
    ensures forall l :: l in InnerPlaces(inner, i, p, n) <==> InInner(l, inner, i, p, n)
  {
    if n > 0 {
      var a, b := InnerPlaces(inner, i, p, n - 1), if inner[n - 1].kind == TextPart then [Place(i, p, n - 1)] else [];
      InnerPlacesAre(inner, i, p, n - 1);
      forall x, y | x in a && y in b
        ensures Before(x, y)
      {
        assert InInner(x, inner, i, p, n - 1);
      }
      MembersAhead(a, b);
      forall l
        ensures l in a + b <==> InInner(l, inner, i, p, n)
      {
        assert l in a <==> InInner(l, inner, i, p, n - 1);
      }
    }
  }

  lemma PartPlacesAre(part: Part, i: nat, p: nat)
    ensures Ascending(PartPlaces(part, i, p))
    ensures forall l :: l in PartPlaces(part, i, p) <==> l.message == i && l.part == p && InPart(part, l.inner)
  {
    if ResultAt(part) {
      InnerPlacesAre(part.result.value.parts, i, p, |part.result.value.parts|);
    }
  }

  predicate InParts(l: Place, parts: seq<Part>, i: nat, n: nat) {
    l.message == i && l.part < n <= |parts| && InPart(parts[l.part], l.inner)
  }

  lemma {:induction false} MessagePlacesAre(parts: seq<Part>, i: nat, n: nat)
    requires n <= |parts|
    ensures Ascending(MessagePlaces(parts, i, n))
    ensures forall l :: l in MessagePlaces(parts, i, n) <==> InParts(l, parts, i, n)
  {
    if n > 0 {
      var a, b := MessagePlaces(parts, i, n - 1), PartPlaces(parts[n - 1], i, n - 1);
      MessagePlacesAre(parts, i, n - 1);
      PartPlacesAre(parts[n - 1], i, n - 1);
      forall x, y | x in a && y in b
        ensures Before(x, y)
      {
        assert InParts(x, parts, i, n - 1);
      }
      MembersAhead(a, b);
      forall l
        ensures l in a + b <==> InParts(l, parts, i, n)
      {
        assert l in a <==> InParts(l, parts, i, n - 1);
        assert l in b <==> l.message == i && l.part == n - 1 && InPart(parts[n - 1], l.inner);
      }
    }
  }

  lemma MembersAhead(a: seq<Place>, b: seq<Place>)
    requires Ascending(a) && Ascending(b)
    requires forall x, y :: x in a && y in b ==> Before(x, y)
    ensures Ascending(a + b)
  {
    AscendingAppend(a, b);
  }

  function PlacesIn(ms: seq<MessageV>, roles: seq<Role>, i: nat): seq<Place>
    requires i < |ms|
  {
    if Wanted(roles, ms[i].role) then MessagePlaces(ms[i].parts, i, |ms[i].parts|) else []
  }

  lemma PlacesInAre(ms: seq<MessageV>, roles: seq<Role>, i: nat)
    requires i < |ms|
    ensures Ascending(PlacesIn(ms, roles, i))
    ensures forall l :: l in PlacesIn(ms, roles, i) <==> l.message == i && IsText(ms, roles, l)
  {
    MessagePlacesAre(ms[i].parts, i, |ms[i].parts|);
  }

  predicate IsTextBelow(ms: seq<MessageV>, roles: seq<Role>, n: nat, l: Place) {
    l.message < n && IsText(ms, roles, l)
  }

  lemma {:induction false} PlacesUpToAre(ms: seq<MessageV>, roles: seq<Role>, n: nat)
    requires n <= |ms|
    ensures Ascending(PlacesUpTo(ms, roles, n))
    ensures forall l :: l in PlacesUpTo(ms, roles, n) <==> IsTextBelow(ms, roles, n, l)
  {
    if n > 0 {
      var a, b := PlacesUpTo(ms, roles, n - 1), PlacesIn(ms, roles, n - 1);
      PlacesUpToAre(ms, roles, n - 1);
      PlacesInAre(ms, roles, n - 1);
      PlacesGrow(ms, roles, n - 1, a, b);
    }
  }

  lemma PlacesGrow(ms: seq<MessageV>, roles: seq<Role>, n: nat, a: seq<Place>, b: seq<Place>)
    requires n < |ms| && Ascending(a) && Ascending(b)
    requires forall l :: l in a <==> IsTextBelow(ms, roles, n, l)
    requires forall l :: l in b <==> l.message == n && IsText(ms, roles, l)
    ensures Ascending(a + b)
    ensures forall l :: l in a + b <==> IsTextBelow(ms, roles, n + 1, l)
  {
    forall x, y | x in a && y in b
      ensures Before(x, y)
    {
      assert x.message < n && y.message == n;
    }
    MembersAhead(a, b);
    forall l
      ensures l in a + b <==> IsTextBelow(ms, roles, n + 1, l)
    {
      assert l in a <==> IsTextBelow(ms, roles, n, l);
    }
  }

  // TextTargets lists every text of the wanted roles, once, in order.
  lemma PlacesAre(ms: seq<MessageV>, roles: seq<Role>)
    ensures Ascending(Places(ms, roles))
    ensures forall l :: l in Places(ms, roles) <==> IsText(ms, roles, l)
  {
    PlacesUpToAre(ms, roles, |ms|);
  }

  // ---- targets ----

  function TextAt(p: Part, inner: int): string
    requires InPart(p, inner)
  {
    if inner == -1 then p.text else p.result.value.parts[inner].text
  }

  function TargetAt(ms: seq<MessageV>, l: Place): TextTarget
    requires HasText(ms, l)
  {
    var m := ms[l.message];
    var p := m.parts[l.part];
    if l.inner == -1 then TextTarget(m.id, m.role, l.part, "", 0, p.text)
    else TextTarget(m.id, m.role, l.part, p.result.value.callId, l.inner, p.result.value.parts[l.inner].text)
  }

  function TargetsOf(ms: seq<MessageV>, places: seq<Place>): (ts: seq<TextTarget>)
    requires forall k :: 0 <= k < |places| ==> HasText(ms, places[k])
    ensures |ts| == |places| && forall k :: 0 <= k < |places| ==> ts[k] == TargetAt(ms, places[k])
  {
    seq(|places|, k requires 0 <= k < |places| => TargetAt(ms, places[k]))
  }

  lemma PlacesHaveText(ms: seq<MessageV>, roles: seq<Role>)
    ensures forall k :: 0 <= k < |Places(ms, roles)| ==> HasText(ms, Places(ms, roles)[k])
  {
    PlacesAre(ms, roles);
    var places := Places(ms, roles);
    forall k | 0 <= k < |places|
      ensures HasText(ms, places[k])
    {
      assert places[k] in places;
    }
  }

  function TextTargets(ms: seq<MessageV>, roles: seq<Role>): seq<TextTarget> {
    PlacesHaveText(ms, roles);
    TargetsOf(ms, Places(ms, roles))
  }

  // A target names the message, the part, the call when the text is in a result,
  // and the text as it is.
  predicate Names(t: TextTarget, ms: seq<MessageV>, l: Place)
    requires HasText(ms, l)
  {
    var m := ms[l.message];
    && t.messageId == m.id && t.role == m.role && t.part == l.part
    && (if m.parts[l.part].kind == TextPart then t.callId == "" && t.resultPart == 0 && t.text == m.parts[l.part].text
        else
          && t.callId == m.parts[l.part].result.value.callId && t.resultPart == l.inner
          && t.text == m.parts[l.part].result.value.parts[l.inner].text)
  }

  lemma TargetsAre(ms: seq<MessageV>, roles: seq<Role>)
    ensures |TextTargets(ms, roles)| == |Places(ms, roles)|
    ensures forall k :: 0 <= k < |Places(ms, roles)| ==>
      HasText(ms, Places(ms, roles)[k]) && Names(TextTargets(ms, roles)[k], ms, Places(ms, roles)[k])
  {
    PlacesHaveText(ms, roles);
  }

  // out lists the targets at these places.
  predicate Lists(out: seq<TextTarget>, ms: seq<MessageV>, places: seq<Place>) {
    |out| == |places| && forall k :: 0 <= k < |places| ==> IsTarget(out[k], ms, places[k])
  }

  predicate IsTarget(t: TextTarget, ms: seq<MessageV>, l: Place) {
    HasText(ms, l) && t == TargetAt(ms, l)
  }

  lemma ListedAll(out: seq<TextTarget>, ms: seq<MessageV>, roles: seq<Role>)
    requires Lists(out, ms, Places(ms, roles))
    ensures out == TextTargets(ms, roles)
  {
    PlacesHaveText(ms, roles);
    assert forall k :: 0 <= k < |out| ==> IsTarget(out[k], ms, Places(ms, roles)[k]);
  }

  lemma ListedAppend(out: seq<TextTarget>, more: seq<TextTarget>, ms: seq<MessageV>, a: seq<Place>, b: seq<Place>)
    requires Lists(out, ms, a) && Lists(more, ms, b)
    ensures Lists(out + more, ms, a + b)
  {
  }

  // ---- writing one text ----

  function WithText(p: Part, inner: int, text: string): (q: Part)
    requires InPart(p, inner)
    ensures InPart(q, inner) && TextAt(q, inner) == text
  {
    if inner == -1 then p.(text := text)
    else
      var r := p.result.value;
      p.(result := Some(r.(parts := r.parts[inner := r.parts[inner].(text := text)])))
  }

  function WriteAt(v: PromptV, l: Place, text: string): PromptV
    requires HasText(v.messages, l)
  {
    WithPart(v, l.message, l.part, WithText(v.messages[l.message].parts[l.part], l.inner, text))
  }

  // The lookups of SetTargetText arrive at the listed place.
  predicate Reaches(ms: seq<MessageV>, l: Place)
    requires HasText(ms, l)
  {
    && Find(ms, ms[l.message].id) == l.message
    && (l.inner >= 0 ==>
         (var parts := ms[l.message].parts;
          var callId := parts[l.part].result.value.callId;
          callId != "" && FindPart(parts, true, callId) == l.part))
  }

  lemma ReachedIsWritten(v: PromptV, l: Place, t: TextTarget, text: string)
    requires HasText(v.messages, l) && Reaches(v.messages, l)
    requires var here := TargetAt(v.messages, l); t == here.(role := t.role, text := t.text)
    ensures SetTargetText(v, t, text) == (WriteAt(v, l, text), None)
  {
  }

  // Otherwise some text ends up elsewhere, or the call fails.
  lemma UnreachedIsMissed(v: PromptV, l: Place, text: string)
    requires HasText(v.messages, l) && !Reaches(v.messages, l)
    requires text != TextAt(v.messages[l.message].parts[l.part], l.inner)
    ensures SetTargetText(v, TargetAt(v.messages, l), text) != (WriteAt(v, l, text), None)
  {
    var t := TargetAt(v.messages, l);
    var (w, err) := SetTargetText(v, t, text);
    var i := Find(v.messages, t.messageId);
    if err.None? {
      if i != l.message {
        assert w.messages[l.message] == v.messages[l.message];
      } else {
        assert FindPart(v.messages[i].parts, true, t.callId) != l.part;
        assert w.messages[i].parts[l.part] == v.messages[i].parts[l.part];
      }
      assert WriteAt(v, l, text).messages[l.message].parts[l.part]
          == WithText(v.messages[l.message].parts[l.part], l.inner, text);
    }
  }

  // One target is written where it was listed, whatever the text, exactly when
  // its message ID is the first of its kind and its call ID is non-empty and
  // the first of its kind in the message.
  lemma TargetIsWritten(v: PromptV, l: Place)
    requires HasText(v.messages, l)
    ensures Reaches(v.messages, l) <==>
      forall text :: SetTargetText(v, TargetAt(v.messages, l), text) == (WriteAt(v, l, text), None)
  {
    if Reaches(v.messages, l) {
      forall text
        ensures SetTargetText(v, TargetAt(v.messages, l), text) == (WriteAt(v, l, text), None)
      {
        ReachedIsWritten(v, l, TargetAt(v.messages, l), text);
      }
    } else {
      var text := TextAt(v.messages[l.message].parts[l.part], l.inner) + "x";
      UnreachedIsMissed(v, l, text);
    }
  }

  // ---- everything but the listed texts ----

  function EraseInner(parts: seq<Part>): (r: seq<Part>) {
    seq(|parts|, k requires 0 <= k < |parts| =>
      if parts[k].kind == TextPart then parts[k].(text := "") else parts[k])
  }

  function ErasePart(p: Part): Part {
    if p.kind == TextPart then p.(text := "")
    else if ResultAt(p) then p.(result := Some(p.result.value.(parts := EraseInner(p.result.value.parts))))
    else p
  }

  function EraseParts(parts: seq<Part>): (r: seq<Part>)
    ensures |r| == |parts| && forall k :: 0 <= k < |parts| ==> r[k] == ErasePart(parts[k])
  {
    seq(|parts|, k requires 0 <= k < |parts| => ErasePart(parts[k]))
  }

  function EraseMessage(m: MessageV, roles: seq<Role>): MessageV {
    if Wanted(roles, m.role) then m.(parts := EraseParts(m.parts)) else m
  }

  // The conversation with every listed text blanked.
  function Erase(ms: seq<MessageV>, roles: seq<Role>): (r: seq<MessageV>)
    ensures |r| == |ms| && forall i :: 0 <= i < |ms| ==> r[i] == EraseMessage(ms[i], roles)
  {
    seq(|ms|, i requires 0 <= i < |ms| => EraseMessage(ms[i], roles))
  }

  lemma ErasedPartSame(p: Part, q: Part, inner: int)
    requires ErasePart(p) == ErasePart(q)
    ensures InPart(p, inner) <==> InPart(q, inner)
    ensures ResultAt(p) <==> ResultAt(q)
    ensures ResultAt(p) ==> p.result.value.callId == q.result.value.callId
    ensures forall callId :: Holds(p, true, callId) <==> Holds(q, true, callId)
  {
    assert ErasePart(p).kind == p.kind && ErasePart(q).kind == q.kind;
    if ResultAt(p) {
      var a, b := p.result.value.parts, q.result.value.parts;
      assert EraseInner(a) == EraseInner(b);
      assert |EraseInner(a)| == |a| && |EraseInner(b)| == |b|;
      assert forall k :: 0 <= k < |a| ==> EraseInner(a)[k].kind == a[k].kind && EraseInner(b)[k].kind == b[k].kind;
    }
  }

  lemma ErasedMessageSame(a: MessageV, b: MessageV, roles: seq<Role>)
    requires EraseMessage(a, roles) == EraseMessage(b, roles)
    ensures a.id == b.id && a.role == b.role && |a.parts| == |b.parts|
    ensures Wanted(roles, a.role) ==> forall k :: 0 <= k < |a.parts| ==> ErasePart(a.parts[k]) == ErasePart(b.parts[k])
  {
    assert EraseMessage(a, roles).role == a.role && EraseMessage(b, roles).role == b.role;
    if Wanted(roles, a.role) {
      assert EraseParts(a.parts) == EraseParts(b.parts);
    }
  }

  lemma ErasedText(a: seq<MessageV>, b: seq<MessageV>, roles: seq<Role>, l: Place)
    requires Erase(a, roles) == Erase(b, roles) && IsText(a, roles, l)
    ensures IsText(b, roles, l)
  {
    var i := l.message;
    assert Erase(a, roles)[i] == Erase(b, roles)[i];
    ErasedMessageSame(a[i], b[i], roles);
    ErasedPartSame(a[i].parts[l.part], b[i].parts[l.part], l.inner);
  }

  lemma {:induction false} AscendingUnique(s: seq<Place>, t: seq<Place>)
    requires Ascending(s) && Ascending(t)
    requires forall l :: l in s <==> l in t
    ensures s == t
  {
    if t != [] {
      HasMember(t);
    }
    if s != [] {
      assert s[0] in t;
      var m, n := |s| - 1, |t| - 1;
      assert s[m] in t && t[n] in s;
      LastIsGreatest(s, t[n]);
      LastIsGreatest(t, s[m]);
      assert s[m] == t[n];
      WithoutLast(s);
      WithoutLast(t);
      forall l
        ensures l in s[..m] <==> l in t[..n]
      {
        assert l in s[..m] <==> l in s && l != s[m];
        assert l in t[..n] <==> l in t && l != t[n];
      }
      AscendingUnique(s[..m], t[..n]);
    }
  }

  lemma HasMember(s: seq<Place>)
    requires s != []
    ensures exists l :: l in s
  {
    assert s[0] in s;
  }

  lemma LastIsGreatest(s: seq<Place>, l: Place)
    requires Ascending(s) && s != [] && (l in s || l == s[|s| - 1])
    ensures l == s[|s| - 1] || Before(l, s[|s| - 1])
  {
  }

  lemma WithoutLast(s: seq<Place>)
    requires Ascending(s) && s != []
    ensures Ascending(s[..|s| - 1])
    ensures forall l :: l in s[..|s| - 1] <==> l in s && l != s[|s| - 1]
  {
    assert s == s[..|s| - 1] + [s[|s| - 1]];
  }

  // What is listed does not depend on the texts.
  lemma ErasedPlaces(a: seq<MessageV>, b: seq<MessageV>, roles: seq<Role>)
    requires Erase(a, roles) == Erase(b, roles)
    ensures Places(a, roles) == Places(b, roles)
  {
    PlacesAre(a, roles);
    PlacesAre(b, roles);
    forall l
      ensures l in Places(a, roles) <==> l in Places(b, roles)
    {
      if IsText(a, roles, l) {
        ErasedText(a, b, roles, l);
      }
      if IsText(b, roles, l) {
        ErasedText(b, a, roles, l);
      }
    }
    AscendingUnique(Places(a, roles), Places(b, roles));
  }

  // Nor does what a listed target reaches.
  lemma ErasedReaches(a: seq<MessageV>, b: seq<MessageV>, roles: seq<Role>, l: Place)
    requires Erase(a, roles) == Erase(b, roles) && IsText(a, roles, l) && Reaches(a, l)
    ensures IsText(b, roles, l) && Reaches(b, l)
    ensures TargetAt(b, l) == TargetAt(a, l).(text := TextOf(b, l))
  {
    ErasedText(a, b, roles, l);
    var i := l.message;
    forall j | 0 <= j < |a|
      ensures a[j].id == b[j].id
    {
      assert Erase(a, roles)[j] == Erase(b, roles)[j];
      ErasedMessageSame(a[j], b[j], roles);
    }
    SameFind(a, b, a[i].id);
    assert Erase(a, roles)[i] == Erase(b, roles)[i];
    ErasedMessageSame(a[i], b[i], roles);
    ErasedPartSame(a[i].parts[l.part], b[i].parts[l.part], l.inner);
    if l.inner >= 0 {
      var callId := a[i].parts[l.part].result.value.callId;
      forall k | 0 <= k < |a[i].parts|
        ensures Holds(a[i].parts[k], true, callId) <==> Holds(b[i].parts[k], true, callId)
      {
        ErasedPartSame(a[i].parts[k], b[i].parts[k], -1);
      }
      SameFindPart(a[i].parts, b[i].parts, callId);
    }
  }

  function TextOf(ms: seq<MessageV>, l: Place): string
    requires HasText(ms, l)
  {
    TextAt(ms[l.message].parts[l.part], l.inner)
  }

  lemma SameFindPart(a: seq<Part>, b: seq<Part>, callId: string)
    requires |a| == |b| && forall k :: 0 <= k < |a| ==> (Holds(a[k], true, callId) <==> Holds(b[k], true, callId))
    ensures FindPart(a, true, callId) == FindPart(b, true, callId)
  {
    var i, j := FindPart(a, true, callId), FindPart(b, true, callId);
    assert i < |a| ==> Holds(b[i], true, callId);
    assert j < |b| ==> Holds(a[j], true, callId);
  }

  // ---- one write ----

  lemma WriteErased(v: PromptV, roles: seq<Role>, l: Place, text: string)
    requires IsText(v.messages, roles, l)
    ensures Erase(WriteAt(v, l, text).messages, roles) == Erase(v.messages, roles)
  {
    var m := v.messages[l.message];
    var p := m.parts[l.part];
    var q := WithText(p, l.inner, text);
    if l.inner >= 0 {
      assert EraseInner(p.result.value.parts) == EraseInner(q.result.value.parts);
    }
    assert ErasePart(p) == ErasePart(q);
    assert EraseParts(m.parts) == EraseParts(m.parts[l.part := q]);
  }

  lemma WriteElsewhere(v: PromptV, l: Place, text: string, k: Place)
    requires HasText(v.messages, l) && HasText(v.messages, k)
    ensures var w := WriteAt(v, l, text);
      HasText(w.messages, k) && TextOf(w.messages, k) == if k == l then text else TextOf(v.messages, k)
  {
    if k.message == l.message && k.part == l.part {
      var p := v.messages[l.message].parts[l.part];
      assert (k.inner == -1) == (l.inner == -1);
    }
  }

  // ---- rewriting the listed targets in some order ----

  predicate Below(order: seq<nat>, n: nat) {
    forall j :: 0 <= j < |order| ==> order[j] < n
  }

  // texts[k] is the new text of the k-th target; order lists the targets to
  // write. The flag says that every call succeeded.
  function Rewrite(v: PromptV, ts: seq<TextTarget>, texts: seq<string>, order: seq<nat>): (PromptV, bool)
    requires |texts| == |ts| && Below(order, |ts|)
  {
    if order == [] then (v, true)
    else
      var n := |order| - 1;
      var (w, ok) := Rewrite(v, ts, texts, order[..n]);
      var (x, err) := SetTargetText(w, ts[order[n]], texts[order[n]]);
      (x, ok && err.None?)
  }

  // w is v with the texts of the places in order rewritten, and nothing else.
  ghost predicate Rewritten(v: PromptV, w: PromptV, roles: seq<Role>, texts: seq<string>, order: seq<nat>)
    requires |texts| == |Places(v.messages, roles)|
  {
    var places := Places(v.messages, roles);
    && Erase(w.messages, roles) == Erase(v.messages, roles)
    && (forall k :: 0 <= k < |places| ==> RewrittenAt(v, w, places[k], texts[k], k in order))
    && MarkedExactly(v, w, places, order)
    && w.removed == v.removed && w.params == v.params && w.changes.params == v.changes.params
  }

  predicate RewrittenAt(v: PromptV, w: PromptV, l: Place, text: string, written: bool) {
    && HasText(v.messages, l) && HasText(w.messages, l)
    && TextOf(w.messages, l) == if written then text else TextOf(v.messages, l)
  }

  // Exactly the messages of the written targets gain a mark, "edited".
  ghost predicate MarkedExactly(v: PromptV, w: PromptV, places: seq<Place>, order: seq<nat>) {
    && (forall id :: id in v.changes.messages ==> id in w.changes.messages && w.changes.messages[id] == v.changes.messages[id])
    && (forall id :: id in w.changes.messages && id !in v.changes.messages ==> w.changes.messages[id] == Edited)
    && (forall id :: id in w.changes.messages && id !in v.changes.messages ==> Touched(v, places, order, id))
    && (forall id :: Touched(v, places, order, id) ==> id in w.changes.messages)
  }

  ghost predicate Touched(v: PromptV, places: seq<Place>, order: seq<nat>, id: string) {
    exists k :: k in order && k < |places| && IdAt(v, places[k]) == Some(id)
  }

  function IdAt(v: PromptV, l: Place): Option<string> {
    if l.message < |v.messages| then Some(v.messages[l.message].id) else None
  }

  ghost predicate AllReach(ms: seq<MessageV>, roles: seq<Role>) {
    forall l :: IsText(ms, roles, l) ==> Reaches(ms, l)
  }

  lemma NothingRewritten(v: PromptV, roles: seq<Role>, texts: seq<string>)
    requires |texts| == |Places(v.messages, roles)|
    ensures Rewritten(v, v, roles, texts, [])
  {
    PlacesHaveText(v.messages, roles);
  }

  lemma RewriteStep(v: PromptV, w: PromptV, roles: seq<Role>, texts: seq<string>, order: seq<nat>, k: nat)
    requires |texts| == |Places(v.messages, roles)| && k < |texts|
    requires Rewritten(v, w, roles, texts, order) && AllReach(v.messages, roles)
    ensures var (x, err) := SetTargetText(w, TextTargets(v.messages, roles)[k], texts[k]);
      err.None? && Rewritten(v, x, roles, texts, order + [k])
  {
    var places := Places(v.messages, roles);
    var l := places[k];
    PlacesAre(v.messages, roles);
    assert l in places;
    ErasedReaches(v.messages, w.messages, roles, l);
    var t := TextTargets(v.messages, roles)[k];
    ReachedIsWritten(w, l, t, texts[k]);
    WriteErased(w, roles, l, texts[k]);
    WriteRewrites(v, w, roles, texts, order, k);
    var v_id := v.messages[l.message].id;
    assert w.messages[l.message].id == v_id by {
      assert Erase(v.messages, roles)[l.message] == Erase(w.messages, roles)[l.message];
      ErasedMessageSame(v.messages[l.message], w.messages[l.message], roles);
    }
    WriteMarks(v, w, places, order, k, texts[k]);
  }

  lemma WriteRewrites(v: PromptV, w: PromptV, roles: seq<Role>, texts: seq<string>, order: seq<nat>, k: nat)
    requires |texts| == |Places(v.messages, roles)| && k < |texts|
    requires Rewritten(v, w, roles, texts, order)
    requires HasText(w.messages, Places(v.messages, roles)[k])
    ensures var places := Places(v.messages, roles); var x := WriteAt(w, places[k], texts[k]);
      forall j :: 0 <= j < |places| ==> RewrittenAt(v, x, places[j], texts[j], j in order + [k])
  {
    var places := Places(v.messages, roles);
    PlacesAre(v.messages, roles);
    forall j | 0 <= j < |places|
      ensures RewrittenAt(v, WriteAt(w, places[k], texts[k]), places[j], texts[j], j in order + [k])
    {
      assert RewrittenAt(v, w, places[j], texts[j], j in order);
      WriteElsewhere(w, places[k], texts[k], places[j]);
      assert j != k ==> places[j] != places[k];
    }
  }

  lemma WriteMarks(v: PromptV, w: PromptV, places: seq<Place>, order: seq<nat>, k: nat, text: string)
    requires k < |places| && HasText(w.messages, places[k]) && MarkedExactly(v, w, places, order)
    requires IdAt(v, places[k]) == Some(w.messages[places[k].message].id)
    ensures MarkedExactly(v, WriteAt(w, places[k], text), places, order + [k])
  {
    var id := w.messages[places[k].message].id;
    forall other
      ensures Touched(v, places, order + [k], other) <==> Touched(v, places, order, other) || other == id
    {
      TouchedStep(v, places, order, k, other);
    }
  }

  lemma TouchedStep(v: PromptV, places: seq<Place>, order: seq<nat>, k: nat, id: string)
    requires k < |places|
    ensures Touched(v, places, order + [k], id) <==> Touched(v, places, order, id) || IdAt(v, places[k]) == Some(id)
  {
    assert forall j :: j in order + [k] <==> j in order || j == k;
  }

  ghost predicate Rewrites(v: PromptV, roles: seq<Role>, texts: seq<string>, order: seq<nat>)
    requires |texts| == |Places(v.messages, roles)| && Below(order, |texts|)
  {
    var (w, ok) := Rewrite(v, TextTargets(v.messages, roles), texts, order);
    ok && Rewritten(v, w, roles, texts, order)
  }

  lemma {:induction false} RewriteRewrites(
    v: PromptV, roles: seq<Role>, texts: seq<string>, order: seq<nat>)
    requires |texts| == |Places(v.messages, roles)| && Below(order, |texts|)
    requires AllReach(v.messages, roles)
    ensures Rewrites(v, roles, texts, order)
  {
    if order == [] {
      NothingRewritten(v, roles, texts);
    } else {
      var n := |order| - 1;
      RewriteRewrites(v, roles, texts, order[..n]);
      RewriteNext(v, roles, texts, order[..n], order[n], order);
    }
  }

  lemma RewriteNext(v: PromptV, roles: seq<Role>, texts: seq<string>, order: seq<nat>, k: nat, more: seq<nat>)
    requires |texts| == |Places(v.messages, roles)| && Below(order, |texts|) && k < |texts|
    requires AllReach(v.messages, roles) && Rewrites(v, roles, texts, order)
    requires more == order + [k] && Below(more, |texts|)
    ensures Rewrites(v, roles, texts, more)
  {
    var ts := TextTargets(v.messages, roles);
    var w := Rewrite(v, ts, texts, order).0;
    RewriteStep(v, w, roles, texts, order, k);
    RewriteSnoc(v, w, ts, texts, order, k);
  }

  lemma RewriteSnoc(v: PromptV, w: PromptV, ts: seq<TextTarget>, texts: seq<string>, order: seq<nat>, k: nat)
    requires |texts| == |ts| && Below(order, |ts|) && k < |ts| && Rewrite(v, ts, texts, order) == (w, true)
    ensures Below(order + [k], |ts|)
    ensures var (x, err) := SetTargetText(w, ts[k], texts[k]);
      Rewrite(v, ts, texts, order + [k]) == (x, err.None?)
  {
    DropLast(order, k);
  }

  // Rewriting every listed target, in any order: every call succeeds, the
  // targets listed afterwards are the same with the texts replaced, nothing
  // else in the conversation changed, and exactly the messages holding targets
  // gain a mark.
  lemma AnyOrderRewrites(v: PromptV, roles: seq<Role>, texts: seq<string>, order: seq<nat>)
    requires AllReach(v.messages, roles)
    requires |texts| == |TextTargets(v.messages, roles)|
    requires Below(order, |texts|) && forall k :: 0 <= k < |texts| ==> k in order
    ensures var ts := TextTargets(v.messages, roles); var (w, ok) := Rewrite(v, ts, texts, order);
      && ok
      && TextTargets(w.messages, roles) == WithTexts(ts, texts)
      && Erase(w.messages, roles) == Erase(v.messages, roles)
      && HoldersMarked(v, w, ts)
  {
    RewriteRewrites(v, roles, texts, order);
    var w := Rewrite(v, TextTargets(v.messages, roles), texts, order).0;
    RewrittenTargets(v, w, roles, texts, order);
    RewrittenMarks(v, w, roles, texts, order);
  }

  function WithTexts(ts: seq<TextTarget>, texts: seq<string>): seq<TextTarget>
    requires |texts| == |ts|
  {
    seq(|ts|, k requires 0 <= k < |ts| => ts[k].(text := texts[k]))
  }

  // The messages holding targets are marked, and no others besides those that were.
  ghost predicate HoldersMarked(v: PromptV, w: PromptV, ts: seq<TextTarget>) {
    forall id :: id in w.changes.messages <==> id in v.changes.messages || exists k :: 0 <= k < |ts| && ts[k].messageId == id
  }

  lemma RewrittenMarks(v: PromptV, w: PromptV, roles: seq<Role>, texts: seq<string>, order: seq<nat>)
    requires |texts| == |Places(v.messages, roles)| && Rewritten(v, w, roles, texts, order)
    requires forall k :: 0 <= k < |texts| ==> k in order
    ensures HoldersMarked(v, w, TextTargets(v.messages, roles))
  {
    forall id
      ensures Touched(v, Places(v.messages, roles), order, id) <==>
        exists k :: 0 <= k < |texts| && TextTargets(v.messages, roles)[k].messageId == id
    {
      TouchedMeans(v, roles, order, id);
    }
  }

  lemma RewrittenTargets(v: PromptV, w: PromptV, roles: seq<Role>, texts: seq<string>, order: seq<nat>)
    requires |texts| == |Places(v.messages, roles)| && Rewritten(v, w, roles, texts, order)
    requires AllReach(v.messages, roles) && forall k :: 0 <= k < |texts| ==> k in order
    ensures TextTargets(w.messages, roles) == WithTexts(TextTargets(v.messages, roles), texts)
  {
    ErasedPlaces(v.messages, w.messages, roles);
    PlacesAre(v.messages, roles);
    var places := Places(v.messages, roles);
    forall k | 0 <= k < |texts|
      ensures TextTargets(w.messages, roles)[k] == TextTargets(v.messages, roles)[k].(text := texts[k])
    {
      assert places[k] in places;
      assert RewrittenAt(v, w, places[k], texts[k], k in order);
      ErasedReaches(v.messages, w.messages, roles, places[k]);
    }
  }

  lemma TouchedMeans(v: PromptV, roles: seq<Role>, order: seq<nat>, id: string)
    requires forall k :: 0 <= k < |Places(v.messages, roles)| ==> k in order
    ensures var ts := TextTargets(v.messages, roles);
      Touched(v, Places(v.messages, roles), order, id) <==> exists k :: 0 <= k < |ts| && ts[k].messageId == id
  {
    var ts, places := TextTargets(v.messages, roles), Places(v.messages, roles);
    PlacesHaveText(v.messages, roles);
    assert forall k :: 0 <= k < |ts| ==> IdAt(v, places[k]) == Some(ts[k].messageId);
    if k :| 0 <= k < |ts| && ts[k].messageId == id {
      assert k in order && IdAt(v, places[k]) == Some(id);
    }
  }

  // ---- when every target is reached ----

  // Distinct, non-empty call IDs among the tool results of a message.
  predicate DistinctResults(m: MessageV) {
    && (forall k :: 0 <= k < |m.parts| && ResultAt(m.parts[k]) ==> m.parts[k].result.value.callId != "")
    && (forall j, k :: 0 <= j < k < |m.parts| && ResultAt(m.parts[j]) && ResultAt(m.parts[k]) ==>
          m.parts[j].result.value.callId != m.parts[k].result.value.callId)
  }

  lemma DistinctReach(ms: seq<MessageV>, roles: seq<Role>)
    requires Distinct(Ids(ms))
    requires forall i :: 0 <= i < |ms| && Wanted(roles, ms[i].role) ==> DistinctResults(ms[i])
    ensures AllReach(ms, roles)
  {
    forall l | IsText(ms, roles, l)
      ensures Reaches(ms, l)
    {
      var i := Find(ms, ms[l.message].id);
      assert Ids(ms)[i] == Ids(ms)[l.message];
    }
  }

  // A tool result without a call ID: its target looks like a plain text target
  // and writing it back fails.
  lemma NamelessResultFails(v: PromptV, l: Place, text: string)
    requires HasText(v.messages, l) && l.inner >= 0
    requires v.messages[l.message].parts[l.part].result.value.callId == ""
    requires Find(v.messages, v.messages[l.message].id) == l.message
    ensures SetTargetText(v, TargetAt(v.messages, l), text)
         == (v, Some(WrongKind(v.messages[l.message].id, l.part)))
  {
  }
}
