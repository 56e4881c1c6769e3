// buildSessionConversation of internal/auditlog/conversation_helpers.go: pages
// through a session newest first and returns a bounded, ordered view of it that
// holds the selected entry.

module SessionConversation {
  import opened Prelude
  import opened EntryOrder

  datatype Cursor = Start | Before(time: int, id: string)

  datatype Lookup = Failed(error: string) | NoPage | Page(entries: seq<LogEntry>, total: nat)

  datatype Conversation = Conversation(anchorId: string, entries: seq<LogEntry>, truncated: bool)

  datatype Build = Error(error: string) | Built(conversation: Conversation)

  const ZeroTime: int := 0

  // ---- the paging contract ----

  predicate NewestFirst(session: seq<LogEntry>) {
    DistinctIds(session) && forall i, j :: 0 <= i < j < |session| ==> Older(session[j], session[i])
  }

  predicate PastCursor(e: LogEntry, c: Cursor) {
    c.Start? || e.time < c.time || (e.time == c.time && LexLess(e.id, c.id))
  }

  // The session's entries past the cursor, newest first.
  function Remaining(session: seq<LogEntry>, c: Cursor): seq<LogEntry> {
    if session == [] then []
    else (if PastCursor(session[0], c) then [session[0]] else []) + Remaining(session[1..], c)
  }

  predicate IsPrefix(a: seq<LogEntry>, b: seq<LogEntry>) {
    |a| <= |b| && a == b[..|a|]
  }

  // A page holds some of the newest remaining entries, at least one while any
  // remain and at most limit; the first page reports the size of the session.
  ghost predicate PageFits(session: seq<LogEntry>, c: Cursor, limit: nat, found: Lookup) {
    match found
    case Failed(_) => true
    case NoPage => Remaining(session, c) == []
    case Page(entries, total) =>
      && IsPrefix(entries, Remaining(session, c)) && |entries| <= limit
      && (entries == [] ==> Remaining(session, c) == [])
      && (c.Start? ==> total == |session|)
  }

  ghost predicate Serves(getPage: (Cursor, nat) -> Lookup, session: seq<LogEntry>) {
    forall c, limit: nat :: limit >= 1 ==> PageFits(session, c, limit, getPage(c, limit))
  }

  lemma {:induction false} RemainingFromStart(session: seq<LogEntry>)
    ensures Remaining(session, Start) == session
  {
    if session != [] {
      RemainingFromStart(session[1..]);
    }
  }

  // From entry j on: the entries up to k are dropped, those after it stay.
  lemma {:induction false} RemainingFrom(session: seq<LogEntry>, j: nat, k: nat, c: Cursor)
    requires j <= |session| && k < |session|
    requires forall i :: 0 <= i < |session| ==> (PastCursor(session[i], c) <==> i > k)
    ensures Remaining(session[j..], c) == session[if j <= k then k + 1 else j..]
    decreases |session| - j
  {
    if j < |session| {
      RemainingFrom(session, j + 1, k, c);
      assert session[j..][1..] == session[j + 1..];
    }
  }

  lemma PastAre(session: seq<LogEntry>, k: nat)
    requires NewestFirst(session) && k < |session|
    ensures forall i :: 0 <= i < |session| ==>
      (PastCursor(session[i], Before(session[k].time, session[k].id)) <==> i > k)
  {
    forall i | 0 <= i < |session|
      ensures PastCursor(session[i], Before(session[k].time, session[k].id)) <==> i > k
    {
      if i > k {
        assert Older(session[i], session[k]);
      } else {
        OlderTotal(session[i], session[k]);
      }
    }
  }

  // Past the key of entry k remain the entries after it.
  lemma RemainingAfter(session: seq<LogEntry>, k: nat)
    requires NewestFirst(session) && k < |session|
    ensures Remaining(session, Before(session[k].time, session[k].id)) == session[k + 1..]
  {
    PastAre(session, k);
    RemainingFrom(session, 0, k, Before(session[k].time, session[k].id));
    assert session[0..] == session;
  }

  // ---- fetching ----

  datatype Fetched = FetchError(error: string) | Fetched(entries: seq<LogEntry>, total: nat)

  // An entry whose key cannot serve as a cursor ends the paging.
  predicate NoCursorFrom(e: LogEntry) {
    e.id == "" || e.time == ZeroTime
  }

  // The fetched entries are the newest of the session: limit of them, or all,
  // or up to an entry that gives no cursor.
  predicate FetchedEnough(session: seq<LogEntry>, n: nat, limit: nat) {
    && n <= limit && n <= |session|
    && (n == limit || n == |session| || (n > 0 && NoCursorFrom(session[n - 1])))
  }

  // The cursor stands after the n newest entries.
  predicate AtCursor(session: seq<LogEntry>, n: nat, c: Cursor) {
    && n <= |session| && Remaining(session, c) == session[n..]
    && (c.Start? ==> n == 0)
  }

  ghost predicate FoundIs(session: seq<LogEntry>, n: nat, c: Cursor, limit: nat, found: Lookup)
    requires n <= |session|
  {
    match found
    case Failed(_) => true
    case NoPage => n == |session|
    case Page(entries, total) =>
      && IsPrefix(entries, session[n..]) && |entries| <= limit
      && (entries == [] ==> n == |session|)
      && (c.Start? ==> total == |session|)
  }

  lemma PageFound(session: seq<LogEntry>, n: nat, c: Cursor, limit: nat, getPage: (Cursor, nat) -> Lookup)
    requires Serves(getPage, session) && AtCursor(session, n, c) && limit >= 1
    ensures FoundIs(session, n, c, limit, getPage(c, limit))
  {
    assert PageFits(session, c, limit, getPage(c, limit));
    assert |session[n..]| == |session| - n;
  }

  lemma NextCursor(session: seq<LogEntry>, n: nat, page: seq<LogEntry>, c: Cursor)
    requires NewestFirst(session) && AtCursor(session, n, c)
    requires page != [] && IsPrefix(page, session[n..])
    ensures n + |page| <= |session| && page[|page| - 1] == session[n + |page| - 1]
    ensures var last := page[|page| - 1];
      AtCursor(session, n + |page|, Before(last.time, last.id)) && c != Before(last.time, last.id)
  {
    RemainingAfter(session, n + |page| - 1);
    SameCursor(session, n, page, c);
  }

  method FetchEntries(limit: nat, getPage: (Cursor, nat) -> Lookup, ghost session: seq<LogEntry>)
    returns (r: Fetched)
    requires NewestFirst(session) && Serves(getPage, session)
    ensures r.Fetched? ==>
      && FetchedEnough(session, |r.entries|, limit) && r.entries == session[..|r.entries|]
      && (limit > 0 ==> r.total == |session|)
      && (FullPages(getPage, session) ==> WholePages(session, |r.entries|, limit))
  {
    var turn := More([], {}, 0, Start);
    RemainingFromStart(session);
    ghost var full := FullPages(getPage, session);
    while turn.More? && |turn.entries| < limit
      invariant Reached(session, turn, limit, full)
      decreases if turn.More? then 1 + limit - |turn.entries| else 0
    {
      var pageSize := if limit - |turn.entries| < 100 then limit - |turn.entries| else 100;
      ghost var state := turn;
      turn := FetchPage(turn, pageSize, getPage, session);
      TurnReaches(session, state, turn, limit, full);
    }
    return if turn.More? then Fetched(turn.entries, turn.total) else turn.result;
  }

  // The invariant of the loop.
  ghost predicate Reached(session: seq<LogEntry>, turn: Turn, limit: nat, full: bool) {
    match turn
    case More(entries, _, _, cursor) =>
      && Fetching(session, turn) && |entries| <= limit && (cursor.Start? ==> entries == [])
      && (full ==> WholePages(session, |entries|, limit))
    case Done(FetchError(_)) => true
    case Done(Fetched(entries, total)) =>
      && FetchedEnough(session, |entries|, limit) && entries == session[..|entries|] && total == |session|
      && (full ==> WholePages(session, |entries|, limit))
  }

  lemma TurnReaches(session: seq<LogEntry>, state: Turn, turn: Turn, limit: nat, full: bool)
    requires state.More? && Reached(session, state, limit, full) && |state.entries| < limit
    requires TurnTaken(session, state, turn, if limit - |state.entries| < 100 then limit - |state.entries| else 100, full)
    ensures Reached(session, turn, limit, full)
  {
    var n := |state.entries|;
    if turn.More? {
      PagesAddUp(session, n, |turn.entries|, limit, full);
    } else if turn.result.Fetched? {
      PagesAddUp(session, n, |turn.result.entries|, limit, full);
    }
  }

  lemma PagesAddUp(session: seq<LogEntry>, n: nat, m: nat, limit: nat, full: bool)
    requires n < limit && (full ==> WholePages(session, n, limit))
    requires FetchedMore(session, n, m, if limit - n < 100 then limit - n else 100, full)
    ensures m <= limit && (full ==> WholePages(session, m, limit))
  {
  }

  // One turn of the loop: the paging ends, or goes on with more entries.
  method FetchPage(state: Turn, pageSize: nat, getPage: (Cursor, nat) -> Lookup, ghost session: seq<LogEntry>)
    returns (turn: Turn)
    requires NewestFirst(session) && Serves(getPage, session)
    requires state.More? && Fetching(session, state) && pageSize >= 1
    ensures TurnTaken(session, state, turn, pageSize, FullPages(getPage, session))
  {
    ghost var n := |state.entries|;
    PageFound(session, n, state.cursor, pageSize, getPage);
    FullPageFound(session, n, state.cursor, pageSize, getPage);
    match getPage(state.cursor, pageSize) {
      case Failed(error) =>
        return Done(FetchError(error));
      case NoPage =>
        return Done(Fetched(state.entries, state.total));
      case Page(page, reported) =>
        turn := TakePage(state, pageSize, page, reported, session, FullPages(getPage, session));
    }
  }

  lemma FullPageFound(session: seq<LogEntry>, n: nat, c: Cursor, limit: nat, getPage: (Cursor, nat) -> Lookup)
    requires AtCursor(session, n, c) && limit >= 1
    ensures FullPages(getPage, session) ==> FullPage(session[n..], limit, getPage(c, limit))
  {
  }

  method TakePage(
    state: Turn, pageSize: nat, page: seq<LogEntry>, reported: nat, ghost session: seq<LogEntry>, ghost full: bool)
    returns (turn: Turn)
    requires NewestFirst(session) && state.More? && Fetching(session, state)
    requires FoundIs(session, |state.entries|, state.cursor, pageSize, Page(page, reported))
    requires full ==> FullPage(session[|state.entries|..], pageSize, Page(page, reported))
    ensures TurnTaken(session, state, turn, pageSize, full)
  {
    var total := if state.cursor.Start? then reported else state.total;
    var entries, seen := AddUnseen(state.entries, state.seen, page);
    PageAdded(session, state.entries, state.seen, page, seen);
    PageCounts(session, |state.entries|, state.cursor, pageSize, page, reported, full);
    var next := CursorAfter(page, state.cursor, |state.entries|, session);
    return if next.None? then Done(Fetched(entries, total)) else More(entries, seen, total, next.value);
  }

  // What one turn does to the fetched part of the session.
  ghost predicate TurnTaken(session: seq<LogEntry>, state: Turn, turn: Turn, pageSize: nat, full: bool)
    requires state.More?
  {
    match turn
    case More(entries, _, _, cursor) =>
      && Fetching(session, turn) && cursor.Before? && |entries| > |state.entries|
      && FetchedMore(session, |state.entries|, |entries|, pageSize, full)
    case Done(FetchError(_)) => true
    case Done(Fetched(entries, total)) =>
      var n := |entries|;
      && FetchedMore(session, |state.entries|, n, pageSize, full)
      && entries == session[..n] && total == |session|
      && (n == |session| || (n > 0 && NoCursorFrom(session[n - 1])))
  }

  lemma PageCounts(
    session: seq<LogEntry>, n: nat, c: Cursor, pageSize: nat, page: seq<LogEntry>, reported: nat, full: bool)
    requires n <= |session| && FoundIs(session, n, c, pageSize, Page(page, reported))
    requires full ==> FullPage(session[n..], pageSize, Page(page, reported))
    ensures FetchedMore(session, n, n + |page|, pageSize, full)
  {
  }

  // From n entries to m, by at most one page, and a whole one if pages are full.
  predicate FetchedMore(session: seq<LogEntry>, n: nat, m: nat, pageSize: nat, full: bool) {
    n <= m <= n + pageSize && m <= |session| && (full ==> m == n + pageSize || m == |session|)
  }

  // The variables of the loop, or the result once the paging has ended.
  datatype Turn =
    | More(entries: seq<LogEntry>, seen: set<string>, total: nat, cursor: Cursor)
    | Done(result: Fetched)

  ghost predicate Fetching(session: seq<LogEntry>, turn: Turn)
    requires turn.More?
  {
    && IsPrefix(turn.entries, session) && SeenIn(turn.seen, turn.entries)
    && AtCursor(session, |turn.entries|, turn.cursor)
    && turn.total == if turn.cursor.Start? then 0 else |session|
  }

  // A store that returns as many entries as asked while it has them.
  ghost predicate FullPages(getPage: (Cursor, nat) -> Lookup, session: seq<LogEntry>) {
    forall c, limit: nat :: limit >= 1 ==> FullPage(Remaining(session, c), limit, getPage(c, limit))
  }

  predicate FullPage(remaining: seq<LogEntry>, limit: nat, found: Lookup) {
    found.Page? ==> |found.entries| == if |remaining| < limit then |remaining| else limit
  }

  // All that was asked for, all there is, or a number of pages of a hundred.
  predicate WholePages(session: seq<LogEntry>, n: nat, limit: nat) {
    n == limit || n == |session| || n % 100 == 0
  }

  // Where the next page starts; None when the paging ends here.
  method CursorAfter(page: seq<LogEntry>, cursor: Cursor, ghost n: nat, ghost session: seq<LogEntry>)
    returns (next: Option<Cursor>)
    requires NewestFirst(session) && AtCursor(session, n, cursor) && IsPrefix(page, session[n..])
    requires page == [] ==> n == |session|
    ensures n + |page| <= |session|
    ensures next.None? ==> n + |page| == |session| || (n + |page| > 0 && NoCursorFrom(session[n + |page| - 1]))
    ensures next.Some? ==> page != [] && next.value.Before? && AtCursor(session, n + |page|, next.value)
  {
    if |page| == 0 {
      return None;
    }
    NextCursor(session, n, page, cursor);
    var last := page[|page| - 1];
    if last.id == "" || last.time == ZeroTime || cursor == Before(last.time, last.id) {
      return None;
    }
    return Some(Before(last.time, last.id));
  }

  ghost predicate SeenIn(seen: set<string>, entries: seq<LogEntry>) {
    forall id :: id in seen ==> HasId(entries, id)
  }

  predicate HasId(s: seq<LogEntry>, id: string) {
    exists i :: 0 <= i < |s| && s[i].id == id
  }

  // A page never ends at its own cursor.
  lemma SameCursor(session: seq<LogEntry>, n: nat, page: seq<LogEntry>, c: Cursor)
    requires n <= |session| && Remaining(session, c) == session[n..]
    requires page != [] && IsPrefix(page, session[n..])
    ensures c != Before(page[|page| - 1].time, page[|page| - 1].id)
  {
    var last := page[|page| - 1];
    assert last in Remaining(session, c);
    RemainingPast(session, c, last);
    OlderTotal(last, last);
  }

  lemma {:induction false} RemainingPast(session: seq<LogEntry>, c: Cursor, e: LogEntry)
    requires e in Remaining(session, c)
    ensures PastCursor(e, c)
  {
    if session != [] && !(PastCursor(session[0], c) && e == session[0]) {
      RemainingPast(session[1..], c, e);
    }
  }

  // ---- pages that repeat entries ----

  // Entry k of the page names an entry seen before, on this page or an earlier one.
  predicate Repeats(seen: set<string>, page: seq<LogEntry>, k: nat)
    requires k < |page|
  {
    page[k].id != "" && (page[k].id in seen || HasId(page[..k], page[k].id))
  }

  // The page's entries that do not, in order.
  function Unseen(seen: set<string>, page: seq<LogEntry>): seq<LogEntry> {
    if page == [] then []
    else
      var n := |page| - 1;
      Unseen(seen, page[..n]) + if Repeats(seen, page, n) then [] else [page[n]]
  }

  // The inner loop, for any page: appends what was not seen before and remembers it.
  method AddUnseen(entries: seq<LogEntry>, seen: set<string>, page: seq<LogEntry>)
    returns (all: seq<LogEntry>, ids: set<string>)
    ensures all == entries + Unseen(seen, page)
    ensures forall id :: id in ids <==> id in seen || (id != "" && HasId(page, id))
  {
    all, ids := entries, seen;
    var i := 0;
    while i < |page|
      invariant i <= |page| && all == entries + Unseen(seen, page[..i])
      invariant forall id :: id in ids <==> id in seen || (id != "" && HasId(page[..i], id))
    {
      var entry := page[i];
      OneMore(page, i);
      assert page[..i + 1][..i] == page[..i];
      assert Repeats(seen, page[..i + 1], i) <==> entry.id != "" && entry.id in ids;
      i := i + 1;
      if entry.id != "" {
        if entry.id in ids {
          continue;
        }
        ids := ids + {entry.id};
      }
      all := all + [entry];
    }
    assert page[..i] == page;
  }

  lemma OneMore(page: seq<LogEntry>, i: nat)
    requires i < |page|
    ensures forall id :: HasId(page[..i + 1], id) <==> HasId(page[..i], id) || id == page[i].id
  {
    forall id
      ensures HasId(page[..i + 1], id) <==> HasId(page[..i], id) || id == page[i].id
    {
      assert page[..i + 1][i] == page[i];
      if k :| 0 <= k < i && page[..i][k].id == id {
        assert page[..i + 1][k].id == id;
      }
      var more := page[..i + 1];
      if k :| 0 <= k < |more| && more[k].id == id {
        assert k < i ==> page[..i][k].id == id;
      }
    }
  }

  predicate NamedOnce(s: seq<LogEntry>) {
    forall j, k :: 0 <= j < k < |s| && s[j].id != "" ==> s[j].id != s[k].id
  }

  lemma NamedOnceMore(s: seq<LogEntry>, e: LogEntry)
    requires NamedOnce(s) && forall j :: 0 <= j < |s| && s[j].id != "" ==> s[j].id != e.id
    ensures NamedOnce(s + [e])
  {
  }

  // Whatever the store returns, no ID is listed twice.
  lemma {:induction false} UnseenNamedOnce(entries: seq<LogEntry>, seen: set<string>, page: seq<LogEntry>)
    requires NamedOnce(entries) && forall id :: id != "" && HasId(entries, id) ==> id in seen
    ensures NamedOnce(entries + Unseen(seen, page))
    ensures forall e :: e in Unseen(seen, page) ==> e in page && (e.id == "" || e.id !in seen)
  {
    if page != [] {
      var n := |page| - 1;
      var before := entries + Unseen(seen, page[..n]);
      UnseenNamedOnce(entries, seen, page[..n]);
      if !Repeats(seen, page, n) {
        forall j | 0 <= j < |before| && before[j].id != ""
          ensures before[j].id != page[n].id
        {
          if j < |entries| {
            assert HasId(entries, before[j].id);
          } else {
            var e := Unseen(seen, page[..n])[j - |entries|];
            assert e in page[..n];
            var k :| 0 <= k < n && page[..n][k] == e;
            assert HasId(page[..n], e.id);
          }
        }
        NamedOnceMore(before, page[n]);
        assert entries + Unseen(seen, page) == before + [page[n]];
      } else {
        assert entries + Unseen(seen, page) == before;
      }
    }
  }

  // A page of the session past what was fetched repeats nothing.
  lemma {:induction false} NothingRepeats(
    session: seq<LogEntry>, entries: seq<LogEntry>, seen: set<string>, page: seq<LogEntry>)
    requires NewestFirst(session) && IsPrefix(entries, session) && IsPrefix(page, session[|entries|..])
    requires SeenIn(seen, entries)
    ensures Unseen(seen, page) == page
  {
    if page != [] {
      var n := |page| - 1;
      NothingRepeats(session, entries, seen, page[..n]);
      NoRepeat(session, entries, seen, page, n);
      assert page == page[..n] + [page[n]];
    }
  }

  lemma NoRepeat(session: seq<LogEntry>, entries: seq<LogEntry>, seen: set<string>, page: seq<LogEntry>, n: nat)
    requires NewestFirst(session) && IsPrefix(entries, session) && IsPrefix(page, session[|entries|..])
    requires SeenIn(seen, entries) && n < |page|
    ensures !Repeats(seen, page, n)
  {
    var at := |entries| + n;
    assert page[n] == session[at];
    assert forall k :: 0 <= k < |entries| ==> entries[k] == session[k];
    assert forall k :: 0 <= k < n ==> page[..n][k] == session[|entries| + k];
  }

  // Adding such a page extends the fetched part of the session.
  lemma PageAdded(
    session: seq<LogEntry>, entries: seq<LogEntry>, seen: set<string>, page: seq<LogEntry>, ids: set<string>)
    requires NewestFirst(session) && IsPrefix(entries, session) && IsPrefix(page, session[|entries|..])
    requires SeenIn(seen, entries)
    requires forall id :: id in ids <==> id in seen || (id != "" && HasId(page, id))
    ensures Unseen(seen, page) == page
    ensures IsPrefix(entries + page, session) && SeenIn(ids, entries + page)
  {
    NothingRepeats(session, entries, seen, page);
    forall id | id in ids
      ensures HasId(entries + page, id)
    {
      if id in seen {
        var k :| 0 <= k < |entries| && entries[k].id == id;
        assert (entries + page)[k].id == id;
      } else {
        var k :| 0 <= k < |page| && page[k].id == id;
        assert (entries + page)[|entries| + k].id == id;
      }
    }
  }

  // ---- what is returned ----

  function WithAnchor(entries: seq<LogEntry>, anchor: LogEntry): seq<LogEntry> {
    if HasId(entries, anchor.id) then entries else entries + [anchor]
  }

  // The index of the anchor, or 0.
  function AnchorIndex(entries: seq<LogEntry>, id: string): (i: nat)
    ensures HasId(entries, id) ==> i < |entries| && entries[i].id == id
  {
    if entries == [] then 0
    else if entries[0].id == id then 0
    else if HasId(entries[1..], id) then 1 + AnchorIndex(entries[1..], id)
    else
      assert forall i :: 1 <= i < |entries| ==> entries[i] == entries[1..][i - 1];
      0
  }

  function Window(sorted: seq<LogEntry>, anchor: LogEntry, limit: nat): seq<LogEntry> {
    if |sorted| <= limit then sorted
    else if AnchorIndex(sorted, anchor.id) < |sorted| / 2 then sorted[..limit]
    else sorted[|sorted| - limit..]
  }

  // The conversation shown for the n newest entries of a session.
  function View(session: seq<LogEntry>, n: nat, anchor: LogEntry, limit: nat): Conversation
    requires n <= |session|
  {
    var sorted := Sorted(WithAnchor(session[..n], anchor));
    Conversation(anchor.id, Window(sorted, anchor, limit), |session| > |sorted| || |sorted| > limit)
  }

  method BuildSession(
    anchor: Option<LogEntry>, limit: int, getPage: (Cursor, nat) -> Lookup, ghost session: seq<LogEntry>)
    returns (r: Build)
    requires NewestFirst(session) && Serves(getPage, session)
    ensures anchor.None? ==> r == Built(Conversation("", [], false))
    ensures anchor.Some? && r.Built? ==>
      exists n: nat :: FetchedEnough(session, n, Clamp(limit)) && r.conversation == View(session, n, anchor.value, Clamp(limit))
  {
    var max := Clamp(limit);
    if anchor.None? {
      return Built(Conversation("", [], false));
    }
    var a := anchor.value;
    var fetched := FetchEntries(max, getPage, session);
    if fetched.FetchError? {
      return Error(fetched.error);
    }
    var entries := fetched.entries;
    ghost var n := |entries|;
    var anchorFound := Holds(entries, a.id);
    if !anchorFound {
      entries := entries + [a];
    }
    assert entries == WithAnchor(session[..n], a);
    entries := Sorted(entries);
    var truncated := fetched.total > |entries|;
    if |entries| > max {
      entries := CutTo(entries, a, max);
      truncated := true;
    }
    assert View(session, n, a, max) == Conversation(a.id, entries, truncated);
    return Built(Conversation(a.id, entries, truncated));
  }

  // The search for the anchor among the fetched entries.
  method Holds(entries: seq<LogEntry>, id: string) returns (found: bool)
    ensures found <==> HasId(entries, id)
  {
    var i := 0;
    while i < |entries|
      invariant i <= |entries|
      invariant forall j :: 0 <= j < i ==> entries[j].id != id
    {
      if entries[i].id == id {
        return true;
      }
      i := i + 1;
    }
    return false;
  }

  // Cutting to the limit, at the end away from the anchor.
  method CutTo(entries: seq<LogEntry>, anchor: LogEntry, limit: nat) returns (w: seq<LogEntry>)
    requires |entries| > limit
    ensures w == Window(entries, anchor, limit)
  {
    var anchorIndex := FindAnchor(entries, anchor.id);
    if anchorIndex < |entries| / 2 {
      return entries[..limit];
    }
    return entries[|entries| - limit..];
  }

  method FindAnchor(entries: seq<LogEntry>, id: string) returns (k: nat)
    ensures k == AnchorIndex(entries, id)
  {
    k := 0;
    var i := 0;
    while i < |entries|
      invariant i <= |entries| && k == 0
      invariant forall j :: 0 <= j < i ==> entries[j].id != id
    {
      if entries[i].id == id {
        FirstIndex(entries, id, i);
        return i;
      }
      i := i + 1;
    }
    NoIndex(entries, id);
  }

  lemma {:induction false} FirstIndex(entries: seq<LogEntry>, id: string, i: nat)
    requires i < |entries| && entries[i].id == id
    requires forall j :: 0 <= j < i ==> entries[j].id != id
    ensures AnchorIndex(entries, id) == i
  {
    if i > 0 {
      assert entries[1..][i - 1].id == id;
      FirstIndex(entries[1..], id, i - 1);
    }
  }

  lemma NoIndex(entries: seq<LogEntry>, id: string)
    requires !HasId(entries, id)
    ensures AnchorIndex(entries, id) == 0
  {
    if entries != [] {
      assert entries[0].id != id;
      assert forall i :: 0 <= i < |entries[1..]| ==> entries[1..][i] == entries[i + 1];
    }
  }

  // ---- what the view promises ----

  // Some entry of the session is not shown.
  ghost predicate Incomplete(session: seq<LogEntry>, shown: seq<LogEntry>) {
    exists i :: 0 <= i < |session| && !HasId(shown, session[i].id)
  }

  ghost predicate FromSession(session: seq<LogEntry>, anchor: LogEntry, shown: seq<LogEntry>) {
    forall e :: e in shown ==> e == anchor || e in session
  }

  lemma WithAnchorHolds(session: seq<LogEntry>, n: nat, anchor: LogEntry)
    requires NewestFirst(session) && n <= |session|
    ensures var all := WithAnchor(session[..n], anchor);
      DistinctIds(all) && HasId(all, anchor.id) && FromSession(session, anchor, all)
  {
    var entries := session[..n];
    if !HasId(entries, anchor.id) {
      assert (entries + [anchor])[n] == anchor;
    }
  }

  lemma SortedIds(s: seq<LogEntry>, id: string)
    ensures HasId(Sorted(s), id) <==> HasId(s, id)
  {
    SortedHolds(s);
    if HasId(s, id) {
      var i :| 0 <= i < |s| && s[i].id == id;
      assert s[i] in Sorted(s);
    }
    if HasId(Sorted(s), id) {
      var i :| 0 <= i < |Sorted(s)| && Sorted(s)[i].id == id;
      assert Sorted(s)[i] in s;
    }
  }

  // One entry too many: the window drops the first or the last, never the anchor.
  lemma WindowHolds(sorted: seq<LogEntry>, anchor: LogEntry, limit: nat)
    requires limit >= 1 && |sorted| <= limit + 1 && HasId(sorted, anchor.id)
    requires Ascending(sorted) && DistinctIds(sorted)
    ensures var w := Window(sorted, anchor, limit);
      && |w| <= limit && HasId(w, anchor.id) && Ascending(w) && DistinctIds(w)
      && (forall e :: e in w ==> e in sorted)
  {
    var k := AnchorIndex(sorted, anchor.id);
    var w := Window(sorted, anchor, limit);
    if |sorted| > limit {
      if k < |sorted| / 2 {
        assert w[k].id == anchor.id;
      } else {
        assert w[k - 1].id == anchor.id;
      }
    }
  }

  lemma WindowDrops(sorted: seq<LogEntry>, anchor: LogEntry, limit: nat)
    requires limit >= 1 && |sorted| == limit + 1 && HasId(sorted, anchor.id) && DistinctIds(sorted)
    ensures exists j :: 0 <= j < |sorted| && sorted[j].id != anchor.id && !HasId(Window(sorted, anchor, limit), sorted[j].id)
  {
    var k := AnchorIndex(sorted, anchor.id);
    var w := Window(sorted, anchor, limit);
    if k < |sorted| / 2 {
      assert forall i :: 0 <= i < |w| ==> w[i] == sorted[i];
      assert !HasId(w, sorted[limit].id);
    } else {
      assert forall i :: 0 <= i < |w| ==> w[i] == sorted[i + 1];
      assert !HasId(w, sorted[0].id);
    }
  }

  // The view is ascending in (time, ID), names no entry twice, is no longer
  // than the limit, holds the anchor, and shows only entries of the session and
  // the anchor.
  lemma ViewIsBounded(session: seq<LogEntry>, n: nat, anchor: LogEntry, limit: nat)
    requires NewestFirst(session) && limit >= 1 && n <= |session| && n <= limit
    ensures var shown := View(session, n, anchor, limit).entries;
      && Ascending(shown) && DistinctIds(shown) && |shown| <= limit
      && HasId(shown, anchor.id) && FromSession(session, anchor, shown)
  {
    var all := WithAnchor(session[..n], anchor);
    WithAnchorHolds(session, n, anchor);
    SortedAscending(all);
    SortedDistinct(all);
    SortedHolds(all);
    SortedIds(all, anchor.id);
    WindowHolds(Sorted(all), anchor, limit);
  }

  function Distance(j: nat, k: nat): nat {
    if j < k then k - j else j - k
  }

  // shown is a stretch of all from the given place, and what it leaves out is no
  // closer to place i than what it holds.
  predicate Closest(all: seq<LogEntry>, shown: seq<LogEntry>, i: nat, start: nat) {
    && start + |shown| <= |all| && shown == all[start..start + |shown|]
    && forall j, k ::
         0 <= j < |all| && !(start <= j < start + |shown|) && start <= k < start + |shown| ==>
         Distance(j, i) >= Distance(k, i)
  }

  lemma WindowIsClosest(all: seq<LogEntry>, anchor: LogEntry, limit: nat) returns (i: nat, start: nat)
    requires limit >= 1 && |all| <= limit + 1 && HasId(all, anchor.id)
    ensures i < |all| && all[i].id == anchor.id && Closest(all, Window(all, anchor, limit), i, start)
    ensures |Window(all, anchor, limit)| == if |all| <= limit then |all| else limit
  {
    i := AnchorIndex(all, anchor.id);
    start := if |all| <= limit || i < |all| / 2 then 0 else 1;
  }

  // Of the fetched entries and the anchor, in order, the view shows all that fit
  // the limit, those closest to the anchor.
  lemma ViewKeepsClosest(session: seq<LogEntry>, n: nat, anchor: LogEntry, limit: nat) returns (i: nat, start: nat)
    requires NewestFirst(session) && limit >= 1 && n <= |session| && n <= limit
    ensures var all, v := Sorted(WithAnchor(session[..n], anchor)), View(session, n, anchor, limit);
      && i < |all| && all[i].id == anchor.id && Closest(all, v.entries, i, start)
      && |v.entries| == (if |all| <= limit then |all| else limit) && v.anchorId == anchor.id
  {
    var all := WithAnchor(session[..n], anchor);
    WithAnchorHolds(session, n, anchor);
    SortedHolds(all);
    SortedIds(all, anchor.id);
    i, start := WindowIsClosest(Sorted(all), anchor, limit);
  }

  // The IDs before the window is cut.
  lemma AllIds(session: seq<LogEntry>, n: nat, anchor: LogEntry, i: nat)
    requires NewestFirst(session) && n <= |session| && i < |session|
    ensures HasId(Sorted(WithAnchor(session[..n], anchor)), session[i].id) <==> i < n || session[i].id == anchor.id
  {
    var entries := session[..n];
    var all := WithAnchor(entries, anchor);
    SortedIds(all, session[i].id);
    if i < n {
      assert all[i].id == session[i].id;
    }
    if HasId(entries, session[i].id) {
      var j :| 0 <= j < |entries| && entries[j].id == session[i].id;
      assert session[j].id == session[i].id;
    }
    if session[i].id == anchor.id {
      WithAnchorHolds(session, n, anchor);
    }
    if HasId(all, session[i].id) && !HasId(entries, session[i].id) {
      var j :| 0 <= j < |all| && all[j].id == session[i].id;
      assert j == n ==> all[j] == anchor;
    }
  }

  lemma CutIsIncomplete(session: seq<LogEntry>, n: nat, anchor: LogEntry, limit: nat)
    requires NewestFirst(session) && limit >= 1 && n <= |session| && n <= limit
    requires |WithAnchor(session[..n], anchor)| == limit + 1
    ensures Incomplete(session, View(session, n, anchor, limit).entries)
  {
    var all := WithAnchor(session[..n], anchor);
    WithAnchorHolds(session, n, anchor);
    SortedDistinct(all);
    SortedHolds(all);
    SortedIds(all, anchor.id);
    WindowDrops(Sorted(all), anchor, limit);
    var j :| 0 <= j < |Sorted(all)| && Sorted(all)[j].id != anchor.id
      && !HasId(Window(Sorted(all), anchor, limit), Sorted(all)[j].id);
    var i := FetchedAt(session, n, anchor, Sorted(all)[j]);
    assert session[i].id == Sorted(all)[j].id;
  }

  // An entry beside the anchor was fetched from the session.
  lemma FetchedAt(session: seq<LogEntry>, n: nat, anchor: LogEntry, e: LogEntry) returns (i: nat)
    requires n <= |session| && e in WithAnchor(session[..n], anchor) && e.id != anchor.id
    ensures i < |session| && session[i] == e
  {
    assert e in session[..n];
    i :| i < n && session[..n][i] == e;
  }

  // Which entries are missing when nothing is cut.
  lemma UncutIsIncomplete(session: seq<LogEntry>, n: nat, anchor: LogEntry, limit: nat)
    requires NewestFirst(session) && limit >= 1 && n <= |session| && n <= limit
    requires |WithAnchor(session[..n], anchor)| <= limit
    ensures Incomplete(session, View(session, n, anchor, limit).entries) <==>
      exists i :: n <= i < |session| && session[i].id != anchor.id
  {
    var all := WithAnchor(session[..n], anchor);
    SortedHolds(all);
    forall i | 0 <= i < |session|
      ensures HasId(Sorted(all), session[i].id) <==> i < n || session[i].id == anchor.id
    {
      AllIds(session, n, anchor, i);
    }
  }

  // The one case in which Truncated is wrong: paging stopped early, one entry
  // short of the whole session, and the anchor is not of the session but takes
  // that entry's place in the count.
  predicate OneHidden(session: seq<LogEntry>, n: nat, anchor: LogEntry, limit: nat) {
    n < limit && |session| == n + 1 && !HasId(session, anchor.id)
  }

  // Truncated is true exactly when some entry of the session is not shown, but
  // for that case; and in it it is false although an entry is missing.
  lemma TruncatedMeansIncomplete(session: seq<LogEntry>, n: nat, anchor: LogEntry, limit: nat)
    requires NewestFirst(session) && limit >= 1 && n <= |session| && n <= limit
    ensures var view := View(session, n, anchor, limit);
      (view.truncated <==> Incomplete(session, view.entries)) <==> !OneHidden(session, n, anchor, limit)
  {
    var all := WithAnchor(session[..n], anchor);
    SortedHolds(all);
    if |all| > limit {
      CutIsIncomplete(session, n, anchor, limit);
      assert !OneHidden(session, n, anchor, limit);
    } else {
      UncutIsIncomplete(session, n, anchor, limit);
      if HasId(session[..n], anchor.id) {
        AnchorFetched(session, n, anchor);
      } else {
        AnchorAppended(session, n, anchor);
      }
    }
  }

  lemma AnchorFetched(session: seq<LogEntry>, n: nat, anchor: LogEntry)
    requires NewestFirst(session) && n <= |session| && HasId(session[..n], anchor.id)
    ensures HasId(session, anchor.id)
    ensures |session| > n <==> exists i :: n <= i < |session| && session[i].id != anchor.id
  {
    var j :| 0 <= j < |session[..n]| && session[..n][j].id == anchor.id;
    assert session[j].id == anchor.id;
    if |session| > n {
      assert session[n].id != session[j].id;
    }
  }

  lemma AnchorAppended(session: seq<LogEntry>, n: nat, anchor: LogEntry)
    requires NewestFirst(session) && n <= |session| && !HasId(session[..n], anchor.id)
    ensures |session| > n + 1 ==> exists i :: n <= i < |session| && session[i].id != anchor.id
    ensures |session| == n + 1 ==> (session[n].id == anchor.id <==> HasId(session, anchor.id))
  {
    if |session| > n + 1 {
      assert session[n].id != session[n + 1].id;
    }
    if HasId(session, anchor.id) {
      var j :| 0 <= j < |session| && session[j].id == anchor.id;
      if j < n {
        assert session[..n][j].id == anchor.id;
      }
    }
  }

  // In particular it is right whenever the anchor is of the session, and
  // whenever every entry of the session can serve as a cursor.
  lemma TruncatedIsRight(session: seq<LogEntry>, n: nat, anchor: LogEntry, limit: nat)
    requires NewestFirst(session) && limit >= 1 && FetchedEnough(session, n, limit)
    requires HasId(session, anchor.id) || forall i :: 0 <= i < |session| ==> !NoCursorFrom(session[i])
    ensures var view := View(session, n, anchor, limit);
      view.truncated <==> Incomplete(session, view.entries)
  {
    TruncatedMeansIncomplete(session, n, anchor, limit);
  }

  // The case is reached: a store that returns one entry for the first page, an
  // entry without an ID, of a session of two, asked for an anchor of no session.
  lemma HiddenEntry(session: seq<LogEntry>, anchor: LogEntry)
    requires |session| == 2 && session[0].id == "" && session[1].id == "b" && session[1].time < session[0].time
    requires anchor.id == "z"
    ensures NewestFirst(session) && FetchedEnough(session, 1, 40) && OneHidden(session, 1, anchor, 40)
    ensures !View(session, 1, anchor, 40).truncated && Incomplete(session, View(session, 1, anchor, 40).entries)
  {
    assert Older(session[1], session[0]);
    var all := WithAnchor(session[..1], anchor);
    assert !HasId(session[..1], anchor.id);
    SortedHolds(all);
    TruncatedMeansIncomplete(session, 1, anchor, 40);
  }

  // A store that returns full pages reaches it only with a limit over a hundred,
  // when the hundredth entry of a session of a hundred and one gives no cursor.
  lemma HiddenNeedsManyEntries(session: seq<LogEntry>, n: nat, anchor: LogEntry, limit: int)
    requires FetchedEnough(session, n, Clamp(limit)) && WholePages(session, n, Clamp(limit))
    requires OneHidden(session, n, anchor, Clamp(limit))
    ensures n == 100 && |session| == 101 && Clamp(limit) > 100 && NoCursorFrom(session[99])
  {
  }
}
