// buildConversationThread and buildConversation of
// internal/auditlog/conversation_helpers.go: the walk along response links, back
// from the anchor and then forward, under a deadline.

module ThreadConversation {
  import opened Prelude
  import opened EntryOrder
  import Session = SessionConversation

  // expired: the failure is the caller's deadline (deadlineExpired).
  datatype Found = Entry(entry: LogEntry) | Nothing | LookupError(error: string, expired: bool)

  // A lookup by ID. The first argument numbers the calls: the answer may change
  // from one call to the next.
  type Finder = (nat, string) -> Found

  function Extracted(field: Option<string>): string {
    if field.None? then "" else TrimSpace(field.value)
  }

  function PreviousOf(e: LogEntry): string {
    Extracted(e.previousId)
  }

  function ResponseOf(e: LogEntry): string {
    Extracted(e.responseId)
  }

  // b continues the response of a.
  predicate Linked(a: LogEntry, b: LogEntry) {
    PreviousOf(b) == ResponseOf(a) && ResponseOf(a) != ""
  }

  // A lookup returns only entries with the asked-for link.
  ghost predicate FindsResponses(find: Finder) {
    forall call, id :: find(call, id).Entry? ==> ResponseOf(find(call, id).entry) == id
  }

  ghost predicate FindsContinuations(find: Finder) {
    forall call, id :: find(call, id).Entry? ==> PreviousOf(find(call, id).entry) == id
  }

  predicate Chain(thread: seq<LogEntry>) {
    forall i :: 0 < i < |thread| ==> Linked(thread[i - 1], thread[i])
  }

  // A connected piece of the chain, each entry once, with the anchor in it.
  predicate Segment(thread: seq<LogEntry>, anchor: LogEntry, limit: nat) {
    DistinctIds(thread) && Chain(thread) && anchor in thread && |thread| <= limit
  }

  function IdSet(thread: seq<LogEntry>): set<string> {
    set e | e in thread :: e.id
  }

  // The walk does not go on past id: there is no link, no such entry, or only
  // one that is already in the thread.
  ghost predicate EndsAt(find: Finder, id: string, thread: seq<LogEntry>) {
    || id == ""
    || exists call :: Stops(find(call, id), thread)
  }

  predicate Stops(found: Found, thread: seq<LogEntry>) {
    found.Nothing? || (found.Entry? && found.entry.id in IdSet(thread))
  }

  ghost predicate Expires(find: Finder) {
    exists call, id :: DeadlineHit(find(call, id))
  }

  predicate DeadlineHit(found: Found) {
    found.LookupError? && found.expired
  }

  datatype Walk = WalkError(error: string) | Walked(thread: seq<LogEntry>, truncated: bool)

  lemma Prepended(e: LogEntry, thread: seq<LogEntry>)
    requires DistinctIds(thread) && Chain(thread) && thread != []
    requires e.id !in IdSet(thread) && Linked(e, thread[0])
    ensures DistinctIds([e] + thread) && Chain([e] + thread)
    ensures IdSet([e] + thread) == IdSet(thread) + {e.id}
  {
    assert forall i :: 0 <= i < |thread| ==> thread[i].id in IdSet(thread);
    assert forall x :: x in [e] + thread <==> x == e || x in thread;
  }

  lemma Appended(e: LogEntry, thread: seq<LogEntry>)
    requires DistinctIds(thread) && Chain(thread) && thread != []
    requires e.id !in IdSet(thread) && Linked(thread[|thread| - 1], e)
    ensures DistinctIds(thread + [e]) && Chain(thread + [e])
    ensures IdSet(thread + [e]) == IdSet(thread) + {e.id}
  {
    assert forall i :: 0 <= i < |thread| ==> thread[i].id in IdSet(thread);
    assert forall x :: x in thread + [e] <==> x == e || x in thread;
  }

  // The first loop: the anchor's ancestors, in front of it.
  method WalkBack(anchor: LogEntry, limit: nat, findByResponse: Finder) returns (w: Walk)
    requires limit >= 1 && FindsResponses(findByResponse)
    ensures w.Walked? ==> Segment(w.thread, anchor, limit) && w.thread[|w.thread| - 1] == anchor
    ensures w.Walked? && !w.truncated && |w.thread| < limit ==>
      EndsAt(findByResponse, PreviousOf(w.thread[0]), w.thread)
    ensures w.Walked? && w.truncated ==> Expires(findByResponse)
  {
    var thread := [anchor];
    var seen := {anchor.id};
    var current := anchor;
    var call := 0;
    while |thread| < limit
      invariant 1 <= |thread| <= limit && thread[0] == current && thread[|thread| - 1] == anchor
      invariant DistinctIds(thread) && Chain(thread)
      invariant seen == IdSet(thread)
      decreases limit - |thread|
    {
      var previous := PreviousOf(current);
      if previous == "" {
        return Walked(thread, false);
      }
      var found := findByResponse(call, previous);
      match found {
        case LookupError(error, expired) =>
          assert expired ==> DeadlineHit(findByResponse(call, previous));
          return if expired then Walked(thread, true) else WalkError(error);
        case Nothing =>
          assert Stops(findByResponse(call, previous), thread);
          return Walked(thread, false);
        case Entry(parent) =>
          if parent.id in seen {
            assert Stops(findByResponse(call, previous), thread);
            return Walked(thread, false);
          }
          Prepended(parent, thread);
          thread := [parent] + thread;
          seen := seen + {parent.id};
          current := parent;
      }
      call := call + 1;
    }
    return Walked(thread, false);
  }

  // The second loop: the entries that continue from the anchor.
  method WalkForward(back: seq<LogEntry>, anchor: LogEntry, limit: nat, findByPrevious: Finder) returns (w: Walk)
    requires FindsContinuations(findByPrevious)
    requires Segment(back, anchor, limit) && back[|back| - 1] == anchor
    ensures w.Walked? ==> Segment(w.thread, anchor, limit) && |back| <= |w.thread| && w.thread[..|back|] == back
    ensures w.Walked? && !w.truncated && |w.thread| < limit ==>
      EndsAt(findByPrevious, ResponseOf(w.thread[|w.thread| - 1]), w.thread)
    ensures w.Walked? && w.truncated ==> Expires(findByPrevious)
  {
    var thread := back;
    var seen := IdSet(back);
    var current := anchor;
    var call := 0;
    while |thread| < limit
      invariant |back| <= |thread| <= limit && thread[..|back|] == back && thread[|thread| - 1] == current
      invariant DistinctIds(thread) && Chain(thread) && anchor in thread
      invariant seen == IdSet(thread)
      decreases limit - |thread|
    {
      var response := ResponseOf(current);
      if response == "" {
        return Walked(thread, false);
      }
      var found := findByPrevious(call, response);
      match found {
        case LookupError(error, expired) =>
          assert expired ==> DeadlineHit(findByPrevious(call, response));
          return if expired then Walked(thread, true) else WalkError(error);
        case Nothing =>
          assert Stops(findByPrevious(call, response), thread);
          return Walked(thread, false);
        case Entry(child) =>
          if child.id in seen {
            assert Stops(findByPrevious(call, response), thread);
            return Walked(thread, false);
          }
          Appended(child, thread);
          thread := thread + [child];
          seen := seen + {child.id};
          current := child;
      }
      call := call + 1;
    }
    return Walked(thread, false);
  }

  // The walked segment: connected, and complete on both ends unless the limit or
  // the deadline stopped it.
  ghost predicate WalkedFrom(
    thread: seq<LogEntry>, truncated: bool, anchor: LogEntry, limit: nat, findByResponse: Finder, findByPrevious: Finder)
  {
    && Segment(thread, anchor, limit)
    && (truncated ==> Expires(findByResponse) || Expires(findByPrevious))
    && (!truncated && |thread| < limit ==>
          && EndsAt(findByResponse, PreviousOf(thread[0]), thread)
          && EndsAt(findByPrevious, ResponseOf(thread[|thread| - 1]), thread))
  }

  method WalkThread(anchor: LogEntry, limit: nat, findByResponse: Finder, findByPrevious: Finder) returns (w: Walk)
    requires limit >= 1 && FindsResponses(findByResponse) && FindsContinuations(findByPrevious)
    ensures w.Walked? ==> WalkedFrom(w.thread, w.truncated, anchor, limit, findByResponse, findByPrevious)
  {
    w := WalkBack(anchor, limit, findByResponse);
    if w.WalkError? || w.truncated {
      return;
    }
    var back := w.thread;
    w := WalkForward(back, anchor, limit, findByPrevious);
    if w.Walked? {
      StillEnds(findByResponse, PreviousOf(back[0]), back, w.thread);
    }
  }

  lemma StillEnds(find: Finder, id: string, a: seq<LogEntry>, b: seq<LogEntry>)
    requires |a| <= |b| && b[..|a|] == a
    ensures EndsAt(find, id, a) ==> EndsAt(find, id, b)
  {
    assert forall e :: e in a ==> e in b;
    if id != "" && EndsAt(find, id, a) {
      var call :| Stops(find(call, id), a);
      assert Stops(find(call, id), b);
    }
  }

  // What the caller sees of a walked segment.
  predicate Shows(entries: seq<LogEntry>, thread: seq<LogEntry>, anchor: LogEntry, limit: nat) {
    && Ascending(entries) && DistinctIds(entries) && |entries| <= limit
    && anchor in entries && multiset(entries) == multiset(thread)
  }

  method BuildThread(anchor: Found, logId: string, limit: int, findByResponse: Finder, findByPrevious: Finder)
    returns (r: Session.Build, ghost thread: seq<LogEntry>)
    requires FindsResponses(findByResponse) && FindsContinuations(findByPrevious)
    ensures anchor.LookupError? ==> r == Session.Error(anchor.error)
    ensures anchor.Nothing? ==> r == Session.Built(Session.Conversation(logId, [], false))
    ensures anchor.Entry? && r.Built? ==>
      && r.conversation.anchorId == anchor.entry.id
      && WalkedFrom(thread, r.conversation.truncated, anchor.entry, Clamp(limit), findByResponse, findByPrevious)
      && Shows(r.conversation.entries, thread, anchor.entry, Clamp(limit))
      && (TimesIncrease(thread) ==> r.conversation.entries == thread)
  {
    thread := [];
    match anchor {
      case LookupError(error, _) =>
        return Session.Error(error), [];
      case Nothing =>
        return Session.Built(Session.Conversation(logId, [], false)), [];
      case Entry(a) =>
        var w := WalkThread(a, Clamp(limit), findByResponse, findByPrevious);
        if w.WalkError? {
          return Session.Error(w.error), [];
        }
        SegmentSorted(w.thread, a, Clamp(limit));
        return Session.Built(Session.Conversation(a.id, Sorted(w.thread), w.truncated)), w.thread;
    }
  }

  // Timestamps strictly increase along the links.
  predicate TimesIncrease(thread: seq<LogEntry>) {
    forall i :: 0 < i < |thread| ==> thread[i - 1].time < thread[i].time
  }

  lemma {:induction false} TimesAscend(thread: seq<LogEntry>, i: nat, j: nat)
    requires TimesIncrease(thread) && i < j < |thread|
    ensures Older(thread[i], thread[j])
  {
    if i + 1 < j {
      TimesAscend(thread, i, j - 1);
    }
  }

  // Sorting orders the segment and, when times already increase along it, leaves
  // it as walked.
  lemma SegmentSorted(thread: seq<LogEntry>, anchor: LogEntry, limit: nat)
    requires Segment(thread, anchor, limit)
    ensures Shows(Sorted(thread), thread, anchor, limit)
    ensures TimesIncrease(thread) ==> Sorted(thread) == thread
  {
    SortedHolds(thread);
    SortedAscending(thread);
    SortedDistinct(thread);
    if TimesIncrease(thread) {
      forall i, j | 0 <= i < j < |thread|
        ensures Older(thread[i], thread[j])
      {
        TimesAscend(thread, i, j);
      }
      SortedIdentity(thread);
    }
  }

  // ---- buildConversation ----

  // An entry of a session is shown with its session, any other with its thread.
  method BuildConversation(
    anchor: Found, logId: string, limit: int, getPage: (Session.Cursor, nat) -> Session.Lookup,
    findByResponse: Finder, findByPrevious: Finder, ghost session: seq<LogEntry>)
    returns (r: Session.Build, ghost thread: seq<LogEntry>)
    requires FindsResponses(findByResponse) && FindsContinuations(findByPrevious)
    requires Session.NewestFirst(session) && Session.Serves(getPage, session)
    ensures anchor.LookupError? ==> r == Session.Error(anchor.error)
    ensures anchor.Nothing? ==> r == Session.Built(Session.Conversation(logId, [], false))
    ensures anchor.Entry? && r.Built? && TrimSpace(anchor.entry.sessionId) != "" ==>
      exists n: nat :: IsSessionView(r.conversation, session, n, anchor.entry, Clamp(limit))
    ensures anchor.Entry? && r.Built? && TrimSpace(anchor.entry.sessionId) == "" ==>
      && r.conversation.anchorId == anchor.entry.id
      && WalkedFrom(thread, r.conversation.truncated, anchor.entry, Clamp(limit), findByResponse, findByPrevious)
      && Shows(r.conversation.entries, thread, anchor.entry, Clamp(limit))
    ensures anchor.Entry? && r.Built? ==>
      && Ascending(r.conversation.entries) && DistinctIds(r.conversation.entries)
      && |r.conversation.entries| <= Clamp(limit) && Session.HasId(r.conversation.entries, anchor.entry.id)
  {
    thread := [];
    match anchor {
      case LookupError(error, _) =>
        return Session.Error(error), [];
      case Nothing =>
        return Session.Built(Session.Conversation(logId, [], false)), [];
      case Entry(a) =>
        if TrimSpace(a.sessionId) != "" {
          r := Session.BuildSession(Some(a), limit, getPage, session);
          if r.Built? {
            ghost var n: nat :| Session.FetchedEnough(session, n, Clamp(limit)) && r.conversation == Session.View(session, n, a, Clamp(limit));
            Session.ViewIsBounded(session, n, a, Clamp(limit));
            assert IsSessionView(r.conversation, session, n, a, Clamp(limit));
          }
        } else {
          r, thread := BuildThread(Entry(a), logId, limit, findByResponse, findByPrevious);
        }
    }
  }

  // The view of the n newest entries of the session.
  ghost predicate IsSessionView(c: Session.Conversation, session: seq<LogEntry>, n: nat, anchor: LogEntry, limit: nat) {
    Session.FetchedEnough(session, n, limit) && c == Session.View(session, n, anchor, limit)
  }
}
