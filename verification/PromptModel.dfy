// The unified prompt of pluginapi/prompt.go as a value, and the meaning of each
// edit method on it.

module PromptModel {
  import opened Prelude
  import Base64

  datatype PartKind =
    | TextPart | ImagePart | AudioPart | FilePart | ToolCallPart | ToolResultPart
    | ReasoningPart | RefusalPart | OpaquePart | OtherPart(name: string)

  // call and result are None for a nil pointer.
  datatype Part = Part(
    kind: PartKind, text: string, mediaType: string, data: string, url: string,
    call: Option<ToolCall>, result: Option<ToolResult>, raw: string)

  datatype ToolCall = ToolCall(id: string, name: string, arguments: string, server: string)

  datatype ToolResult = ToolResult(callId: string, parts: seq<Part>, isError: bool)

  datatype Role = SystemRole | DeveloperRole | UserRole | AssistantRole | ToolRole | OtherRole(role: string)

  datatype MessageV = MessageV(
    id: string, role: Role, parts: seq<Part>, name: string, toolCallId: string, cacheBreakpoint: bool)

  datatype ChangeKind = Edited | Inserted | Removed | Replaced

  // A value given to SetParam, by its dynamic type. A json.Number holds what its
  // Int64 and Float64 return, None for an error; a nil pointer is None.
  datatype Value =
    | Int(n: int) | Int32(n: int) | Int64(n: int)
    | Float32(x: real) | Float64(x: real)
    | Number(asInt: Option<int>, asFloat: Option<real>)
    | IntPointer(target: Option<int>) | FloatPointer(value: Option<real>)
    | OtherValue(json: string)

  datatype Params = Params(
    model: string, maxTokens: Option<int>, temperature: Option<real>, topP: Option<real>, stream: bool,
    toolChoice: string, extra: map<string, string>)

  datatype Changes = Changes(messages: map<string, ChangeKind>, params: map<string, Value>, dirty: bool, edits: nat)

  const NoChanges := Changes(map[], map[], false, 0)

  datatype PromptV = PromptV(
    messages: seq<MessageV>, params: Params, changes: Changes, removed: seq<MessageV>, nextId: nat)

  datatype EditError =
    | UnknownMessage(id: string)
    | NoPart(id: string, index: int)
    | WrongKind(id: string, index: int)
    | BadArguments(callId: string)
    | NoCall(id: string, callId: string)
    | NoResult(id: string, callId: string)
    | NotMime
    | WrongMime
    | EmptyMedia
    | Dangling(messageId: string, partnerId: string, callId: string)

  // ---- changes.go ----

  function Mark(c: Changes, id: string, kind: ChangeKind): Changes {
    var counted := c.(dirty := true, edits := c.edits + 1);
    if kind == Edited && id in c.messages then counted
    else if kind == Replaced && id in c.messages && c.messages[id] == Inserted then counted
    else counted.(messages := c.messages[id := kind])
  }

  function MarkParam(c: Changes, name: string, value: Value): Changes {
    c.(params := c.params[name := value], dirty := true, edits := c.edits + 1)
  }

  // ---- lookups ----

  // The first message with the given ID, or |messages|.
  function Find(messages: seq<MessageV>, id: string): (i: nat)
    ensures i <= |messages|
    ensures i < |messages| ==> messages[i].id == id
    ensures forall j :: 0 <= j < i ==> messages[j].id != id
  {
    if messages == [] || messages[0].id == id then 0 else 1 + Find(messages[1..], id)
  }

  lemma SameFind(a: seq<MessageV>, b: seq<MessageV>, id: string)
    requires |a| == |b| && forall j :: 0 <= j < |a| ==> a[j].id == b[j].id
    ensures Find(a, id) == Find(b, id)
  {
    var i, j := Find(a, id), Find(b, id);
    assert i < |a| ==> b[i].id == id;
    assert j < |b| ==> a[j].id == id;
  }

  // Part index of the message with the given ID.
  function Target(v: PromptV, id: string, index: int): Part
    requires Find(v.messages, id) < |v.messages| && 0 <= index < |v.messages[Find(v.messages, id)].parts|
  {
    v.messages[Find(v.messages, id)].parts[index]
  }

  predicate HoldsCall(p: Part, callId: string) {
    p.kind == ToolCallPart && p.call.Some? && p.call.value.id == callId
  }

  predicate HoldsResult(p: Part, callId: string) {
    p.kind == ToolResultPart && p.result.Some? && p.result.value.callId == callId
  }

  predicate Holds(p: Part, results: bool, callId: string) {
    if results then HoldsResult(p, callId) else HoldsCall(p, callId)
  }

  // The first part that holds the call, or its result, or |parts|.
  function FindPart(parts: seq<Part>, results: bool, callId: string): (i: nat)
    ensures i <= |parts|
    ensures i < |parts| ==> Holds(parts[i], results, callId)
    ensures forall j :: 0 <= j < i ==> !Holds(parts[j], results, callId)
  {
    if parts == [] || Holds(parts[0], results, callId) then 0 else 1 + FindPart(parts[1..], results, callId)
  }

  // ---- edits ----

  function WithPart(v: PromptV, i: nat, p: nat, part: Part): PromptV
    requires i < |v.messages| && p < |v.messages[i].parts|
  {
    v.(messages := v.messages[i := v.messages[i].(parts := v.messages[i].parts[p := part])],
       changes := Mark(v.changes, v.messages[i].id, Edited))
  }

  function SetText(v: PromptV, id: string, index: int, text: string): (PromptV, Option<EditError>) {
    var i := Find(v.messages, id);
    if i == |v.messages| then (v, Some(UnknownMessage(id)))
    else if index < 0 || index >= |v.messages[i].parts| then (v, Some(NoPart(id, index)))
    else if v.messages[i].parts[index].kind != TextPart then (v, Some(WrongKind(id, index)))
    else (WithPart(v, i, index, v.messages[i].parts[index].(text := text)), None)
  }

  function SetToolArguments(v: PromptV, id: string, callId: string, args: string, jsonValid: string -> bool)
    : (PromptV, Option<EditError>)
  {
    var i := Find(v.messages, id);
    if i == |v.messages| then (v, Some(UnknownMessage(id)))
    else if !jsonValid(args) then (v, Some(BadArguments(callId)))
    else
      var parts := v.messages[i].parts;
      var p := FindPart(parts, false, callId);
      if p == |parts| then (v, Some(NoCall(id, callId)))
      else (WithPart(v, i, p, parts[p].(call := Some(parts[p].call.value.(arguments := args)))), None)
  }

  function SetToolResult(v: PromptV, id: string, callId: string, content: seq<Part>): (PromptV, Option<EditError>) {
    var i := Find(v.messages, id);
    if i == |v.messages| then (v, Some(UnknownMessage(id)))
    else
      var parts := v.messages[i].parts;
      var p := FindPart(parts, true, callId);
      if p == |parts| then (v, Some(NoResult(id, callId)))
      else (WithPart(v, i, p, parts[p].(result := Some(parts[p].result.value.(parts := content)))), None)
  }

  function SetMedia(v: PromptV, id: string, index: int, mediaType: string, data: seq<byte>)
    : (PromptV, Option<EditError>)
  {
    var i := Find(v.messages, id);
    if i == |v.messages| then (v, Some(UnknownMessage(id)))
    else if index < 0 || index >= |v.messages[i].parts| then (v, Some(NoPart(id, index)))
    else
      var part := v.messages[i].parts[index];
      var trimmed := TrimSpace(mediaType);
      if part.kind != ImagePart && part.kind != AudioPart then (v, Some(WrongKind(id, index)))
      else if '/' !in trimmed then (v, Some(NotMime))
      else if !HasPrefix(trimmed, MediaPrefix(part.kind)) then (v, Some(WrongMime))
      else if data == [] then (v, Some(EmptyMedia))
      else (WithPart(v, i, index, WithMedia(part, trimmed, data)), None)
  }

  function MediaPrefix(kind: PartKind): string {
    if kind == ImagePart then "image/" else "audio/"
  }

  // Other members of the part, such as its text, are kept.
  function WithMedia(part: Part, mediaType: string, data: seq<byte>): Part {
    var encoded := Base64.Encode(data);
    if part.kind == ImagePart then
      part.(url := "data:" + mediaType + ";base64," + encoded, data := "", mediaType := mediaType, raw := "")
    else
      part.(data := encoded, url := "", mediaType := mediaType, raw := "")
  }

  // ---- text targets (target.go) ----

  datatype TextTarget = TextTarget(
    messageId: string, role: Role, part: int, callId: string, resultPart: int, text: string)

  // What SetTargetText writes back for a target inside a tool result, or the
  // error it returns.
  datatype TargetEdit =
    | NoTarget(error: EditError)
    | TextTargetEdit
    | ResultTargetEdit(content: seq<Part>)

  function TargetEditOf(messages: seq<MessageV>, t: TextTarget, text: string): TargetEdit {
    if t.callId == "" then TextTargetEdit
    else
      var i := Find(messages, t.messageId);
      if i == |messages| then NoTarget(UnknownMessage(t.messageId))
      else if t.part < 0 || t.part >= |messages[i].parts| then NoTarget(NoPart(t.messageId, t.part))
      else
        var holder := messages[i].parts[t.part];
        if !HoldsResult(holder, t.callId) then NoTarget(NoResult(t.messageId, t.callId))
        else
          var inner := holder.result.value.parts;
          if t.resultPart < 0 || t.resultPart >= |inner| then NoTarget(NoPart(t.messageId, t.resultPart))
          else if inner[t.resultPart].kind != TextPart then NoTarget(WrongKind(t.messageId, t.resultPart))
          else ResultTargetEdit(inner[t.resultPart := inner[t.resultPart].(text := text)])
  }

  function SetTargetText(v: PromptV, t: TextTarget, text: string): (PromptV, Option<EditError>) {
    match TargetEditOf(v.messages, t, text)
    case NoTarget(e) => (v, Some(e))
    case TextTargetEdit => SetText(v, t.messageId, t.part, text)
    case ResultTargetEdit(content) => SetToolResult(v, t.messageId, t.callId, content)
  }

  function Clamp(at: int, n: nat): (r: nat)
    ensures r <= n
  {
    if at < 0 then 0 else if at > n then n else at
  }

  // ---- generated IDs ----

  function Digit(d: nat): char
    requires d < 10
  {
    ['0', '1', '2', '3', '4', '5', '6', '7', '8', '9'][d]
  }

  // Decimal notation.
  function Decimal(n: nat): string {
    if n < 10 then [Digit(n)] else Decimal(n / 10) + [Digit(n % 10)]
  }

  function NewName(n: nat): string {
    "new-" + Decimal(n)
  }

  function DigitValue(c: char): int {
    c as int - '0' as int
  }

  function DecimalValue(s: string): int {
    if s == "" then 0 else 10 * DecimalValue(s[..|s| - 1]) + DigitValue(s[|s| - 1])
  }

  lemma DecimalReads(n: nat)
    ensures DecimalValue(Decimal(n)) == n
  {
    if n < 10 {
      assert [Digit(n)][..0] == [];
    } else {
      DecimalReads(n / 10);
      DropLast(Decimal(n / 10), Digit(n % 10));
    }
  }

  lemma NewNameInjective(m: nat, n: nat)
    requires NewName(m) == NewName(n)
    ensures m == n
  {
    assert NewName(m)[4..] == Decimal(m) && NewName(n)[4..] == Decimal(n);
    DecimalReads(m);
    DecimalReads(n);
  }

  // What newID must avoid: IDs in the conversation and IDs with a change mark.
  function Taken(v: PromptV): set<string> {
    (set m | m in v.messages :: m.id) + v.changes.messages.Keys
  }

  // The names after n that are taken.
  ghost function Blocked(taken: set<string>, n: nat): set<string> {
    set id | id in taken && exists k: nat :: k > n && id == NewName(k)
  }

  lemma BlockedShrinks(taken: set<string>, n: nat)
    ensures Blocked(taken, n + 1) <= Blocked(taken, n)
    ensures NewName(n + 1) in taken ==> |Blocked(taken, n + 1)| < |Blocked(taken, n)|
  {
    if NewName(n + 1) in taken {
      var name := NewName(n + 1);
      assert name in Blocked(taken, n);
      if k: nat :| k > n + 1 && name == NewName(k) {
        NewNameInjective(n + 1, k);
      }
      assert Blocked(taken, n + 1) <= Blocked(taken, n) - {name};
      SubsetSize(Blocked(taken, n + 1), Blocked(taken, n) - {name});
    }
  }

  lemma SubsetSize<T>(a: set<T>, b: set<T>)
    requires a <= b
    ensures |a| <= |b|
  {
    assert b == a + (b - a);
  }

  // The number newID ends with.
  ghost function NextFree(taken: set<string>, n: nat): (k: nat)
    ensures k > n && NewName(k) !in taken
    decreases |Blocked(taken, n)|
  {
    BlockedShrinks(taken, n);
    if NewName(n + 1) in taken then NextFree(taken, n + 1) else n + 1
  }

  ghost function Insert(v: PromptV, at: int, m: MessageV): (PromptV, string) {
    var k := NextFree(Taken(v), v.nextId);
    var id := NewName(k);
    (InsertAt(v.(nextId := k), Clamp(at, |v.messages|), m.(id := id)), id)
  }

  function InsertAt(v: PromptV, a: nat, m: MessageV): PromptV
    requires a <= |v.messages|
  {
    v.(messages := v.messages[..a] + [m] + v.messages[a..], changes := Mark(v.changes, m.id, Inserted))
  }

  function RemoveAt(messages: seq<MessageV>, i: nat): seq<MessageV>
    requires i < |messages|
  {
    messages[..i] + messages[i + 1..]
  }

  // Whether the message was inserted since the last Reset: then it leaves no trace.
  predicate InsertedHere(c: Changes, id: string) {
    id in c.messages && c.messages[id] == Inserted
  }

  function RemoveFound(v: PromptV, i: nat): PromptV
    requires i < |v.messages|
  {
    var m := v.messages[i];
    var w := v.(messages := RemoveAt(v.messages, i));
    if InsertedHere(v.changes, m.id) then w.(changes := v.changes.(messages := v.changes.messages - {m.id}))
    else w.(changes := Mark(v.changes, m.id, Removed), removed := v.removed + [m])
  }

  function Remove(v: PromptV, id: string): (PromptV, Option<EditError>) {
    var i := Find(v.messages, id);
    if i == |v.messages| then (v, Some(UnknownMessage(id)))
    else
      var w := RemoveFound(v, i);
      (w, DanglingIn(w.messages, v.messages[i]))
  }

  // ---- dangling tool parts ----

  // The ID of the first message holding the call, or its result; "" when none does.
  function Holder(messages: seq<MessageV>, results: bool, callId: string): string {
    if messages == [] then ""
    else if FindPart(messages[0].parts, results, callId) < |messages[0].parts| then messages[0].id
    else Holder(messages[1..], results, callId)
  }

  function PartnerOf(messages: seq<MessageV>, m: MessageV, p: Part): Option<EditError> {
    if p.kind == ToolCallPart && p.call.Some? then
      var partner := Holder(messages, true, p.call.value.id);
      if partner != "" then Some(Dangling(m.id, partner, p.call.value.id)) else None
    else if p.kind == ToolResultPart && p.result.Some? then
      var partner := Holder(messages, false, p.result.value.callId);
      if partner != "" then Some(Dangling(m.id, partner, p.result.value.callId)) else None
    else None
  }

  // The first part among parts whose partner is still there.
  function DanglingPart(messages: seq<MessageV>, m: MessageV, parts: seq<Part>): Option<EditError> {
    if parts == [] then None
    else
      var e := PartnerOf(messages, m, parts[0]);
      if e.Some? then e else DanglingPart(messages, m, parts[1..])
  }

  function DanglingIn(messages: seq<MessageV>, m: MessageV): Option<EditError> {
    DanglingPart(messages, m, m.parts)
  }

  function ValidateFrom(messages: seq<MessageV>, removed: seq<MessageV>): Option<EditError> {
    if removed == [] then None
    else
      var e := DanglingIn(messages, removed[0]);
      if e.Some? then e else ValidateFrom(messages, removed[1..])
  }

  function Validate(v: PromptV): Option<EditError> {
    ValidateFrom(v.messages, v.removed)
  }

  // ---- parameters ----

  // int(float64): toward zero.
  function Truncate(x: real): int {
    if x >= 0.0 then x.Floor else -((-x).Floor)
  }

  // An int32 converts to an int only, a pointer to the type it points to.
  function ToInt(v: Value): Option<int> {
    match v
    case Int(n) => Some(n)
    case Int32(n) => Some(n)
    case Int64(n) => Some(n)
    case Float64(x) => Some(Truncate(x))
    case Float32(x) => Some(Truncate(x))
    case Number(asInt, _) => asInt
    case IntPointer(target) => target
    case FloatPointer(_) => None
    case OtherValue(_) => None
  }

  function ToFloat(v: Value): Option<real> {
    match v
    case Float64(x) => Some(x)
    case Float32(x) => Some(x)
    case Int(n) => Some(n as real)
    case Int64(n) => Some(n as real)
    case Int32(_) => None
    case Number(_, asFloat) => asFloat
    case FloatPointer(value) => value
    case IntPointer(_) => None
    case OtherValue(_) => None
  }

  function SetParam(v: PromptV, name: string, value: Value): PromptV {
    var params :=
      if name == "max_tokens" && ToInt(value).Some? then v.params.(maxTokens := ToInt(value))
      else if name == "temperature" && ToFloat(value).Some? then v.params.(temperature := ToFloat(value))
      else if name == "top_p" && ToFloat(value).Some? then v.params.(topP := ToFloat(value))
      else v.params;
    v.(params := params, changes := MarkParam(v.changes, name, value))
  }

  function Reset(v: PromptV): PromptV {
    v.(changes := NoChanges, removed := [])
  }

  // ---- runs of edits ----

  datatype Edit =
    | TextEdit(id: string, index: int, text: string)
    | ArgumentsEdit(id: string, callId: string, args: string)
    | ResultEdit(id: string, callId: string, content: seq<Part>)
    | MediaEdit(id: string, index: int, mediaType: string, data: seq<byte>)
    | TargetTextEdit(target: TextTarget, text: string)
    | InsertEdit(at: int, m: MessageV)
    | AppendEdit(m: MessageV)
    | RemoveEdit(id: string)
    | ParamEdit(name: string, value: Value)

  ghost function Apply(v: PromptV, e: Edit, jsonValid: string -> bool): PromptV {
    match e
    case TextEdit(id, index, text) => SetText(v, id, index, text).0
    case ArgumentsEdit(id, callId, args) => SetToolArguments(v, id, callId, args, jsonValid).0
    case ResultEdit(id, callId, content) => SetToolResult(v, id, callId, content).0
    case MediaEdit(id, index, mediaType, data) => SetMedia(v, id, index, mediaType, data).0
    case TargetTextEdit(t, text) => SetTargetText(v, t, text).0
    case InsertEdit(at, m) => Insert(v, at, m).0
    case AppendEdit(m) => Insert(v, |v.messages|, m).0
    case RemoveEdit(id) => Remove(v, id).0
    case ParamEdit(name, value) => SetParam(v, name, value)
  }

  ghost function Run(v: PromptV, edits: seq<Edit>, jsonValid: string -> bool): PromptV {
    if edits == [] then v
    else Apply(Run(v, edits[..|edits| - 1], jsonValid), edits[|edits| - 1], jsonValid)
  }
}
