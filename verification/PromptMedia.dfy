// The reader half of SetMedia (pluginapi/media.go), and the round trip: what a
// caller reads back after a successful SetMedia.

module PromptMedia {
  import opened Prelude
  import opened Strings
  import opened PromptModel
  import Base64

  datatype Media = Media(data: seq<byte>, mediaType: string)

  // The index of the first c, or |s|.
  function IndexOf(s: string, c: char): (i: nat)
    ensures i <= |s|
    ensures i < |s| ==> s[i] == c
    ensures forall j :: 0 <= j < i ==> s[j] != c
  {
    if s == "" || s[0] == c then 0 else 1 + IndexOf(s[1..], c)
  }

  predicate Contains(s: string, sub: string) {
    HasPrefix(s, sub) || (s != "" && Contains(s[1..], sub))
  }

  function DecodePayload(payload: string, mediaType: string): Option<Media> {
    var decoded := Base64.Decode(payload);
    if decoded.None? || decoded.value == [] then None else Some(Media(decoded.value, mediaType))
  }

  function DecodeDataURI(s: string): Option<Media> {
    if !HasPrefix(s, "data:") then None
    else
      var rest := s[5..];
      var comma := IndexOf(rest, ',');
      if comma == |rest| then None
      else
        var meta := rest[..comma];
        var semi := IndexOf(meta, ';');
        var params := if semi == |meta| then "" else meta[semi + 1..];
        if '/' !in meta[..semi] || !Contains(";" + params + ";", ";base64;") then None
        else DecodePayload(rest[comma + 1..], meta[..semi])
  }

  function DecodeMedia(p: Part): Option<Media> {
    if p.kind == ImagePart then DecodeDataURI(p.url)
    else if p.kind == AudioPart then
      if HasPrefix(p.data, "data:") then DecodeDataURI(p.data) else DecodePayload(p.data, p.mediaType)
    else None
  }

  lemma IndexIs(s: string, c: char, i: nat)
    requires i < |s| && s[i] == c
    requires forall j :: 0 <= j < i ==> s[j] != c
    ensures IndexOf(s, c) == i
  {
  }

  // The base64 alphabet has no ':'.
  lemma NoURI(s: string)
    requires forall i :: 0 <= i < |s| ==> Base64.Plain(s[i])
    ensures !HasPrefix(s, "data:")
  {
    assert |s| >= 5 ==> s[..5][4] == s[4];
    assert "data:"[4] == ':';
  }

  lemma AudioRoundTrip(part: Part, mediaType: string, data: seq<byte>)
    requires part.kind == AudioPart && data != []
    ensures DecodeMedia(WithMedia(part, mediaType, data)) == Some(Media(data, mediaType))
  {
    Base64.RoundTrip(data);
    NoURI(Base64.Encode(data));
  }

  function Tail(mediaType: string, payload: string): string {
    mediaType + ";base64," + payload
  }

  lemma TailParts(mediaType: string, payload: string)
    ensures var s := Tail(mediaType, payload); var n := |mediaType|;
      && |s| == n + 8 + |payload|
      && s[..n] == mediaType && s[n] == ';' && s[n + 7] == ',' && s[n + 1..n + 7] == "base64" && s[n + 8..] == payload
  {
  }

  lemma WholeURI(s: string)
    ensures HasPrefix("data:" + s, "data:") && ("data:" + s)[5..] == s
  {
  }

  lemma Base64Parameter()
    ensures Contains(";" + "base64" + ";", ";base64;")
  {
    assert ";" + "base64" + ";" == ";base64;";
  }

  lemma PlainURI(mediaType: string, payload: string)
    requires '/' in mediaType && ',' !in mediaType && ';' !in mediaType
    ensures DecodeDataURI("data:" + Tail(mediaType, payload)) == DecodePayload(payload, mediaType)
  {
    var rest, n := Tail(mediaType, payload), |mediaType|;
    WholeURI(rest);
    TailParts(mediaType, payload);
    PlainCuts(mediaType, payload);
    var meta := rest[..n + 7];
    assert meta[..n] == mediaType;
    assert meta[n + 1..] == rest[n + 1..n + 7];
    Base64Parameter();
  }

  lemma PlainCuts(mediaType: string, payload: string)
    requires ',' !in mediaType && ';' !in mediaType
    ensures IndexOf(Tail(mediaType, payload), ',') == |mediaType| + 7
    ensures IndexOf(Tail(mediaType, payload)[..|mediaType| + 7], ';') == |mediaType|
  {
    var rest, n := Tail(mediaType, payload), |mediaType|;
    TailParts(mediaType, payload);
    NoComma(mediaType, payload);
    IndexIs(rest, ',', n + 7);
    var meta := rest[..n + 7];
    assert meta[..n] == mediaType;
    assert forall j :: 0 <= j < n ==> meta[j] == mediaType[j];
    IndexIs(meta, ';', n);
  }

  lemma NoComma(mediaType: string, payload: string)
    requires ',' !in mediaType
    ensures forall j :: 0 <= j < |mediaType| + 7 ==> Tail(mediaType, payload)[j] != ','
  {
    var rest, n := Tail(mediaType, payload), |mediaType|;
    TailParts(mediaType, payload);
    forall j | 0 <= j < n + 7
      ensures rest[j] != ','
    {
      if j < n {
        assert rest[j] == mediaType[j];
      } else if j > n {
        assert rest[j] == "base64"[j - n - 1];
      }
    }
  }

  lemma OddURI(mediaType: string, data: seq<byte>)
    requires ',' in mediaType || ';' in mediaType
    ensures DecodeDataURI("data:" + Tail(mediaType, Base64.Encode(data))) != Some(Media(data, mediaType))
  {
    var payload := Base64.Encode(data);
    var rest, n := Tail(mediaType, payload), |mediaType|;
    WholeURI(rest);
    TailParts(mediaType, payload);
    if ',' in mediaType {
      CommaInside(mediaType, payload);
    } else {
      NoComma(mediaType, payload);
      IndexIs(rest, ',', n + 7);
      SemicolonInside(mediaType, payload);
    }
  }

  lemma SemicolonInside(mediaType: string, payload: string)
    requires ';' in mediaType
    ensures IndexOf(Tail(mediaType, payload)[..|mediaType| + 7], ';') < |mediaType|
  {
    var k :| 0 <= k < |mediaType| && mediaType[k] == ';';
    TailParts(mediaType, payload);
    assert Tail(mediaType, payload)[..|mediaType| + 7][k] == ';';
  }

  // With a comma in the media type the payload read back holds the rest of the
  // media type, up to the ';', and does not decode.
  lemma CommaInside(mediaType: string, payload: string)
    requires ',' in mediaType
    ensures var rest := Tail(mediaType, payload); var comma := IndexOf(rest, ',');
      comma < |rest| && Base64.Decode(rest[comma + 1..]).None?
  {
    var rest, n := Tail(mediaType, payload), |mediaType|;
    TailParts(mediaType, payload);
    var k :| 0 <= k < n && mediaType[k] == ',';
    assert rest[k] == ',';
    var comma := IndexOf(rest, ',');
    assert rest[comma + 1..][n - comma - 1] == rest[n];
    Base64.ForeignSymbol(rest[comma + 1..], n - comma - 1);
  }

  lemma ImageURI(part: Part, mediaType: string, data: seq<byte>)
    requires part.kind == ImagePart
    ensures WithMedia(part, mediaType, data).url == "data:" + Tail(mediaType, Base64.Encode(data))
  {
    var a, b, c, d := "data:", mediaType, ";base64,", Base64.Encode(data);
    assert a + b + c + d == a + (b + c + d);
  }

  // After a successful SetMedia, DecodeMedia returns the same bytes and the
  // trimmed media type: always for audio, and for an image exactly when the
  // media type holds no ',' and no ';'.
  lemma MediaRoundTrip(v: PromptV, id: string, index: int, mediaType: string, data: seq<byte>)
    requires SetMedia(v, id, index, mediaType, data).1.None?
    ensures Find(v.messages, id) < |v.messages| && 0 <= index < |v.messages[Find(v.messages, id)].parts|
    ensures var w := SetMedia(v, id, index, mediaType, data).0;
      && Find(w.messages, id) == Find(v.messages, id)
      && Target(w, id, index).kind == Target(v, id, index).kind
      && var stored := Some(Media(data, TrimSpace(mediaType)));
      && (Target(v, id, index).kind == AudioPart ==> DecodeMedia(Target(w, id, index)) == stored)
      && (Target(v, id, index).kind == ImagePart ==>
            (DecodeMedia(Target(w, id, index)) == stored
             <==> ',' !in TrimSpace(mediaType) && ';' !in TrimSpace(mediaType)))
  {
    var i := Find(v.messages, id);
    var w := SetMedia(v, id, index, mediaType, data).0;
    var part := v.messages[i].parts[index];
    var trimmed := TrimSpace(mediaType);
    SameFind(v.messages, w.messages, id);
    assert w.messages[i].parts[index] == WithMedia(part, trimmed, data);
    if part.kind == AudioPart {
      AudioRoundTrip(part, trimmed, data);
    } else if ',' in trimmed || ';' in trimmed {
      OddURI(trimmed, data);
      ImageURI(part, trimmed, data);
    } else {
      PlainURI(trimmed, Base64.Encode(data));
      Base64.RoundTrip(data);
      ImageURI(part, trimmed, data);
    }
  }

  // ---- exactly what is read as a data URI ----

  // sub stands somewhere in s.
  ghost predicate Within(s: string, sub: string) {
    exists a, b :: s == a + sub + b
  }

  lemma WithinFront(s: string, sub: string)
    requires HasPrefix(s, sub)
    ensures Within(s, sub)
  {
    assert s == "" + sub + s[|sub|..];
  }

  lemma WithinRest(c: char, s: string, sub: string)
    requires Within(s, sub)
    ensures Within([c] + s, sub)
  {
    var a, b :| s == a + sub + b;
    assert [c] + s == ([c] + a) + sub + b;
  }

  lemma WithinIs(s: string, sub: string)
    requires Within(s, sub)
    ensures HasPrefix(s, sub) || (s != "" && Within(s[1..], sub))
  {
    var a, b :| s == a + sub + b;
    if a == "" {
      assert s[..|sub|] == sub;
    } else {
      assert s[1..] == a[1..] + sub + b;
    }
  }

  lemma {:induction false} ContainsIs(s: string, sub: string)
    ensures Contains(s, sub) <==> Within(s, sub)
  {
    if HasPrefix(s, sub) {
      WithinFront(s, sub);
    } else if s != "" {
      ContainsIs(s[1..], sub);
      if Contains(s[1..], sub) {
        WithinRest(s[0], s[1..], sub);
        assert s == [s[0]] + s[1..];
      }
    }
    if Within(s, sub) {
      WithinIs(s, sub);
    }
  }

  // The media type up to the first semicolon, the parameters up to the first
  // comma, then the payload.
  predicate IsURI(s: string, mediaType: string, params: string, payload: string) {
    && s == "data:" + mediaType + params + "," + payload
    && ',' !in mediaType && ';' !in mediaType && ',' !in params && (params == "" || params[0] == ';')
  }

  // One of the parameters is base64.
  ghost predicate SaysBase64(params: string) {
    Within(params + ";", ";base64;")
  }

  // What DecodeDataURI searches for the parameter.
  function Searched(meta: string): string {
    var semi := IndexOf(meta, ';');
    ";" + (if semi == |meta| then "" else meta[semi + 1..]) + ";"
  }

  lemma SearchedIs(meta: string)
    ensures var semi := IndexOf(meta, ';');
      if semi == |meta| then |Searched(meta)| == 2 && meta[semi..] == "" else Searched(meta) == meta[semi..] + ";"
  {
    var semi := IndexOf(meta, ';');
    if semi < |meta| {
      assert meta[semi..] == ";" + meta[semi + 1..];
    }
  }

  lemma ParamsSay(q: string, params: string)
    requires q == params + ";" || (|q| == 2 && params == "")
    ensures Contains(q, ";base64;") <==> SaysBase64(params)
  {
    ContainsIs(q, ";base64;");
    WithinLong(q, ";base64;");
    WithinLong(params + ";", ";base64;");
  }

  lemma WithinLong(s: string, sub: string)
    ensures Within(s, sub) ==> |s| >= |sub|
  {
  }

  // Whatever is read is such a URI with a slash in its type and base64 among its
  // parameters, and its payload decodes to the data.
  lemma ReadIsURI(s: string) returns (mediaType: string, params: string, payload: string)
    ensures DecodeDataURI(s).Some? ==>
      && IsURI(s, mediaType, params, payload) && '/' in mediaType && SaysBase64(params)
      && DecodeDataURI(s).value.mediaType == mediaType && DecodeDataURI(s).value.data != []
      && Base64.Decode(payload) == Some(DecodeDataURI(s).value.data)
  {
    mediaType, params, payload := "", "", "";
    if DecodeDataURI(s).Some? {
      var rest := s[5..];
      var comma := IndexOf(rest, ',');
      var meta := rest[..comma];
      var semi := IndexOf(meta, ';');
      mediaType, params, payload := meta[..semi], meta[semi..], rest[comma + 1..];
      SearchedIs(meta);
      ParamsSay(Searched(meta), meta[semi..]);
      URIParts(s, comma, semi);
    }
  }

  lemma URIParts(s: string, comma: nat, semi: nat)
    requires HasPrefix(s, "data:") && semi <= comma < |s| - 5 && s[5 + comma] == ','
    ensures var rest := s[5..]; var meta := rest[..comma];
      s == "data:" + meta[..semi] + meta[semi..] + "," + rest[comma + 1..]
  {
    var rest := s[5..];
    assert rest == rest[..comma] + "," + rest[comma + 1..];
    assert s == "data:" + rest;
    JoinedParts("data:", rest[..comma][..semi], rest[..comma][semi..], rest[comma + 1..]);
    assert rest[..comma] == rest[..comma][..semi] + rest[..comma][semi..];
  }

  lemma JoinedParts(head: string, a: string, b: string, payload: string)
    ensures head + a + b + "," + payload == head + (a + b + "," + payload)
  {
  }

  // And every such URI is read.
  lemma URIIsRead(s: string, mediaType: string, params: string, payload: string, data: seq<byte>)
    requires IsURI(s, mediaType, params, payload) && '/' in mediaType && SaysBase64(params)
    requires Base64.Decode(payload) == Some(data) && data != []
    ensures DecodeDataURI(s) == Some(Media(data, mediaType))
  {
    var meta := mediaType + params;
    var rest := meta + "," + payload;
    JoinedParts("data:", mediaType, params, payload);
    WholeURI(rest);
    RestCut(meta, payload);
    MetaCut(mediaType, params);
    SearchedIs(meta);
    ParamsSay(Searched(meta), params);
  }

  lemma RestCut(meta: string, payload: string)
    requires ',' !in meta
    ensures var rest := meta + "," + payload;
      IndexOf(rest, ',') == |meta| && rest[..|meta|] == meta && rest[|meta| + 1..] == payload
  {
    IndexIs(meta + "," + payload, ',', |meta|);
  }

  lemma MetaCut(mediaType: string, params: string)
    requires ';' !in mediaType && (params == "" || params[0] == ';')
    ensures var meta := mediaType + params;
      IndexOf(meta, ';') == |mediaType| && meta[..|mediaType|] == mediaType && meta[|mediaType|..] == params
  {
    var meta := mediaType + params;
    if params != "" {
      IndexIs(meta, ';', |mediaType|);
    } else {
      assert meta == mediaType;
    }
  }
}
