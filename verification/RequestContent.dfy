// What a translated request says to the model: every text, image, document and
// search result of the request, in order and once, with its own data, and which
// requests are accepted.

module RequestContent {
  import opened Prelude
  import opened Strings
  import opened RequestModel
  import Base64

  // ---- texts ----

  // The non-empty texts of the text blocks, in order.
  function Lines(blocks: seq<Block>): seq<string> {
    if blocks == [] then []
    else (if blocks[0].kind == TextBlock && blocks[0].text != "" then [blocks[0].text] else []) + Lines(blocks[1..])
  }

  predicate OnlyTextBlocks(blocks: seq<Block>) {
    forall i :: 0 <= i < |blocks| ==> blocks[i].kind == TextBlock
  }

  // A string, an array of text blocks, or nothing.
  predicate TextualContent(c: Content) {
    c.Absent? || c.Text? || (c.Blocks? && OnlyTextBlocks(c.blocks))
  }

  function Body(c: Content): string {
    match c
    case Text(text) => text
    case Blocks(blocks) => Join(Lines(blocks), "\n")
    case _ => ""
  }

  lemma {:induction false} LinesAppend(a: seq<Block>, b: seq<Block>)
    ensures Lines(a + b) == Lines(a) + Lines(b)
  {
    if a == [] {
      assert a + b == b;
    } else {
      assert (a + b)[1..] == a[1..] + b;
      LinesAppend(a[1..], b);
    }
  }

  lemma {:induction false} TextsAreLines(blocks: seq<Block>)
    ensures TextsOf(blocks).Ok? <==> OnlyTextBlocks(blocks)
    ensures TextsOf(blocks).Ok? ==> TextsOf(blocks).value == Lines(blocks)
  {
    if blocks != [] {
      var n := |blocks| - 1;
      TextsAreLines(blocks[..n]);
      LinesAppend(blocks[..n], [blocks[n]]);
      assert [blocks[n]][1..] == [];
      assert blocks == blocks[..n] + [blocks[n]];
    }
  }

  lemma BodyIs(c: Content)
    ensures TextBlocksText(c).Ok? <==> TextualContent(c)
    ensures TextBlocksText(c).Ok? ==> TextBlocksText(c).value == Body(c)
  {
    if c.Blocks? {
      TextsAreLines(c.blocks);
    }
  }

  // ---- one payload block ----

  // The part carries the block's cache_control, and nothing else beside its content.
  predicate Marked(extra: Extra, c: CacheControl) {
    extra.Keys == (if c.CacheObject? then {"cache_control"} else {})
    && (c.CacheObject? ==> extra["cache_control"] == c.json)
  }

  function DataURL(mediaType: string, payload: string): string {
    "data:" + mediaType + ";base64," + payload
  }

  // An image says its data or its address.
  predicate ImageTold(s: Source, url: string) {
    || (s.kind == "base64" && s.mediaType != "" && s.data != "" && url == DataURL(s.mediaType, s.data))
    || (s.kind == "url" && s.url != "" && url == s.url)
  }

  predicate BytesOf(bytes: seq<byte>, s: string) {
    |bytes| == |s| && forall i :: 0 <= i < |s| ==> bytes[i] == s[i] as int % 256
  }

  // The payload decodes, under section 4 of RFC 4648, to the bytes of text.
  ghost predicate Encodes(payload: string, text: string) {
    exists bytes :: BytesOf(bytes, text) && Base64.Decode(payload) == Some(bytes)
  }

  ghost predicate TextFileTold(s: Source, f: File) {
    exists payload: string ::
      f.data == DataURL(if s.mediaType == "" then "text/plain" else s.mediaType, payload) && Encodes(payload, s.data)
  }

  // A document says its data, its address or its file ID, and its title.
  ghost predicate FileTold(b: Block, s: Source, f: File) {
    && f.name == TrimSpace(b.title)
    && (if s.kind == "base64" then f.data == DataURL(s.mediaType, s.data) && f.url == "" && f.id == ""
        else if s.kind == "text" then TextFileTold(s, f) && f.url == "" && f.id == ""
        else if s.kind == "url" then f.data == "" && f.url == s.url && f.id == ""
        else s.kind == "file" && f.data == "" && f.url == "" && f.id == TrimSpace(s.fileId))
  }

  // The title heads the text of a document given as text blocks.
  predicate DocumentTold(b: Block, s: Source, text: string) {
    text == if Blank(b.title) then Body(s.content) else TrimSpace(b.title) + "\n\n" + Body(s.content)
  }

  function SourceOf(b: Block): string {
    if b.source.SourceString? then b.source.text else ""
  }

  // Title, source and text of a search result, a blank line before the text.
  function SearchHead(b: Block): string {
    var title := if Blank(b.title) then "" else "Title: " + TrimSpace(b.title);
    var source := if Blank(SourceOf(b)) then "" else "Source: " + TrimSpace(SourceOf(b));
    title + (if title != "" && source != "" then "\n" else "") + source
  }

  predicate SearchTold(b: Block, text: string) {
    var head, body := SearchHead(b), Body(b.content);
    text == head + (if head != "" && body != "" then "\n\n" else "") + body
  }

  // The part tells what the block tells.
  ghost predicate Tells(b: Block, p: ContentPart) {
    && Marked(p.extra, b.cacheControl)
    && match b.kind
       case TextBlock => p.TextPart? && p.text == b.text
       case ImageBlock => p.ImagePart? && b.source.SourceObject? && ImageTold(b.source.source, p.url)
       case SearchResultBlock => p.TextPart? && SearchTold(b, p.text)
       case DocumentBlock =>
         && b.source.SourceObject?
         && (if b.source.source.kind == "content" then p.TextPart? && DocumentTold(b, b.source.source, p.text)
             else p.FilePart? && FileTold(b, b.source.source, p.file))
       case _ => false
  }

  // There is nothing in it to tell.
  predicate Silent(b: Block) {
    match b.kind
    case TextBlock => b.text == ""
    case DocumentBlock => b.source.SourceObject? && b.source.source.kind == "content" && Body(b.source.source.content) == ""
    case SearchResultBlock => SearchHead(b) == "" && Body(b.content) == ""
    case _ => false
  }

  predicate GoodSource(b: Block) {
    && b.source.SourceObject?
    && var s := b.source.source;
       if b.kind == ImageBlock then
         (s.kind == "base64" && s.mediaType != "" && s.data != "") || (s.kind == "url" && s.url != "")
       else
         || (s.kind == "base64" && s.mediaType != "" && s.data != "") || (s.kind == "text" && s.data != "")
         || (s.kind == "url" && s.url != "") || (s.kind == "file" && !Blank(s.fileId))
         || (s.kind == "content" && !s.content.Absent? && TextualContent(s.content))
  }

  predicate GoodPayload(b: Block) {
    match b.kind
    case TextBlock => true
    case ImageBlock => GoodSource(b)
    case DocumentBlock => GoodSource(b)
    case SearchResultBlock => TextualContent(b.content)
    case _ => false
  }

  // A payload block gives one part, unless it is empty; it is refused exactly
  // when its source or text is not of a kind the dialect knows.
  ghost predicate PartIs(b: Block, part: Result<Option<ContentPart>>) {
    && (part.Ok? <==> GoodPayload(b))
    && (part.Ok? && part.value.None? ==> Silent(b))
    && (part.Ok? && part.value.Some? ==> !Silent(b) && Tells(b, part.value.value))
  }

  lemma TextFile(s: Source, f: File, mediaType: string)
    requires mediaType == (if s.mediaType == "" then "text/plain" else s.mediaType)
    requires f.data == "data:" + mediaType + ";base64," + Base64.Encode(Bytes(s.data))
    ensures TextFileTold(s, f)
  {
    var payload := Base64.Encode(Bytes(s.data));
    Base64.RoundTrip(Bytes(s.data));
    assert BytesOf(Bytes(s.data), s.data);
    assert Encodes(payload, s.data);
    DataURLIs(mediaType, payload);
  }

  lemma DataURLIs(mediaType: string, payload: string)
    ensures DataURL(mediaType, payload) == "data:" + mediaType + ";base64," + payload
  {
  }

  lemma DocumentIs(b: Block)
    requires b.kind == DocumentBlock
    ensures PartIs(b, DocumentPart(b, CacheExtra(b.cacheControl)))
  {
    if b.source.SourceObject? {
      var s := b.source.source;
      BlankIsTrimmed(b.title);
      BlankIsTrimmed(s.fileId);
      BodyIs(s.content);
      if s.kind == "text" && s.data != "" {
        var part := DocumentPart(b, CacheExtra(b.cacheControl)).value.value;
        TextFile(s, part.file, if s.mediaType == "" then "text/plain" else s.mediaType);
      }
    }
  }

  lemma JoinTwo(x: string, y: string, sep: string)
    ensures Join([x, y], sep) == x + sep + y
  {
    assert [x, y][1..] == [y];
  }

  lemma SearchIs(b: Block)
    requires b.kind == SearchResultBlock
    ensures SearchResultText(b).Ok? <==> TextualContent(b.content)
    ensures SearchResultText(b).Ok? ==> SearchTold(b, SearchResultText(b).value)
  {
    BodyIs(b.content);
    BlankIsTrimmed(b.title);
    BlankIsTrimmed(SourceOf(b));
    if TextualContent(b.content) {
      var body := Body(b.content);
      var title, source := TrimSpace(b.title), TrimSpace(SourceOf(b));
      SearchLines(title, source, body);
    }
  }

  lemma SearchLines(title: string, source: string, body: string)
    ensures
      var head := (if title != "" then ["Title: " + title] else []) + (if source != "" then ["Source: " + source] else []);
      var tail := if body == "" then [] else (if head != [] then [""] else []) + [body];
      var t := if title == "" then "" else "Title: " + title;
      var s := if source == "" then "" else "Source: " + source;
      var told := t + (if t != "" && s != "" then "\n" else "") + s;
      Join(head + tail, "\n") == told + (if told != "" && body != "" then "\n\n" else "") + body
  {
    var head := (if title != "" then ["Title: " + title] else []) + (if source != "" then ["Source: " + source] else []);
    var tail := if body == "" then [] else (if head != [] then [""] else []) + [body];
    HeadLines(title, source);
    JoinTwo("", body, "\n");
    if head != [] && tail != [] {
      JoinAppend(head, tail, "\n");
      BlankLine(Join(head, "\n"), body);
    } else if head == [] {
      assert head + tail == tail;
    } else {
      assert head + tail == head;
    }
  }

  lemma BlankLine(head: string, body: string)
    ensures head + "\n" + ("" + "\n" + body) == head + "\n\n" + body
  {
  }

  lemma HeadLines(title: string, source: string)
    ensures
      var head := (if title != "" then ["Title: " + title] else []) + (if source != "" then ["Source: " + source] else []);
      var t := if title == "" then "" else "Title: " + title;
      var s := if source == "" then "" else "Source: " + source;
      && Join(head, "\n") == t + (if t != "" && s != "" then "\n" else "") + s
      && (head == [] <==> title == "" && source == "")
      && (head != [] ==> Join(head, "\n") != "")
  {
    JoinTwo("Title: " + title, "Source: " + source, "\n");
  }

  lemma PayloadIs(b: Block)
    ensures PartIs(b, PayloadPart(b, CacheExtra(b.cacheControl)))
  {
    match b.kind
    case TextBlock =>
    case ImageBlock => ImageIs(b);
    case DocumentBlock => DocumentIs(b);
    case SearchResultBlock => SearchIs(b);
    case _ =>
  }

  lemma ImageIs(b: Block)
    requires b.kind == ImageBlock
    ensures PartIs(b, PayloadPart(b, CacheExtra(b.cacheControl)))
  {
    if b.source.SourceObject? {
      DataURLIs(b.source.source.mediaType, b.source.source.data);
    }
  }
}
