// Audit log entries and the order the conversation view sorts them in.

module EntryOrder {
  import opened Prelude

  // previousId and responseId are the string fields of the captured bodies;
  // None when there is no body or no such string.
  datatype LogEntry = LogEntry(
    id: string, time: int, sessionId: string, previousId: Option<string>, responseId: Option<string>)

  // Byte-wise string comparison.
  predicate LexLess(a: string, b: string) {
    b != "" && (a == "" || a[0] < b[0] || (a[0] == b[0] && LexLess(a[1..], b[1..])))
  }

  // The first place where the two differ decides, or that one ends there.
  lemma {:induction false} LexLessIs(a: string, b: string)
    ensures LexLess(a, b) <==> exists k :: 0 <= k <= |a| && LessAt(a, b, k)
  {
    if a != "" && b != "" && a[0] == b[0] {
      LexLessIs(a[1..], b[1..]);
      if k :| 0 <= k <= |a[1..]| && LessAt(a[1..], b[1..], k) {
        assert LessAt(a, b, k + 1);
      }
      if k :| 0 <= k <= |a| && LessAt(a, b, k) {
        assert k > 0;
        assert LessAt(a[1..], b[1..], k - 1);
      }
    } else if LexLess(a, b) {
      assert LessAt(a, b, 0);
    }
  }

  predicate LessAt(a: string, b: string, k: nat)
    requires k <= |a|
  {
    k < |b| && (forall j :: 0 <= j < k ==> a[j] == b[j]) && (k == |a| || a[k] < b[k])
  }

  lemma {:induction false} LexTotal(a: string, b: string)
    ensures LexLess(a, b) || LexLess(b, a) || a == b
    ensures !(LexLess(a, b) && LexLess(b, a))
    ensures !LexLess(a, a)
  {
    if a != "" {
      LexTotal(a[1..], a[1..]);
    }
    if a != "" && b != "" {
      LexTotal(a[1..], b[1..]);
      assert a == [a[0]] + a[1..] && b == [b[0]] + b[1..];
    }
  }

  lemma {:induction false} LexTransitive(a: string, b: string, c: string)
    requires LexLess(a, b) && LexLess(b, c)
    ensures LexLess(a, c)
  {
    if a != "" && a[0] == b[0] && b[0] == c[0] {
      LexTransitive(a[1..], b[1..], c[1..]);
    }
  }

  // Older first, ties by ID.
  predicate Older(a: LogEntry, b: LogEntry) {
    a.time < b.time || (a.time == b.time && LexLess(a.id, b.id))
  }

  lemma OlderTotal(a: LogEntry, b: LogEntry)
    ensures a.id != b.id ==> Older(a, b) || Older(b, a)
    ensures !(Older(a, b) && Older(b, a))
  {
    LexTotal(a.id, b.id);
  }

  lemma OlderTransitive(a: LogEntry, b: LogEntry, c: LogEntry)
    requires Older(a, b) && Older(b, c)
    ensures Older(a, c)
  {
    if a.time == b.time == c.time {
      LexTransitive(a.id, b.id, c.id);
    }
  }

  predicate DistinctIds(s: seq<LogEntry>) {
    forall i, j :: 0 <= i < j < |s| ==> s[i].id != s[j].id
  }

  predicate Ascending(s: seq<LogEntry>) {
    forall i, j :: 0 <= i < j < |s| ==> Older(s[i], s[j])
  }

  function Place(e: LogEntry, s: seq<LogEntry>): seq<LogEntry> {
    if s == [] || Older(e, s[0]) then [e] + s else [s[0]] + Place(e, s[1..])
  }

  // sort.Slice by Older; the entries sorted here have distinct IDs, so the
  // result is the only ascending arrangement.
  function Sorted(s: seq<LogEntry>): seq<LogEntry> {
    if s == [] then [] else Place(s[0], Sorted(s[1..]))
  }

  lemma {:induction false} PlaceHolds(e: LogEntry, s: seq<LogEntry>)
    ensures multiset(Place(e, s)) == multiset([e]) + multiset(s)
    ensures |Place(e, s)| == |s| + 1
    ensures forall x :: x in Place(e, s) <==> x == e || x in s
  {
    if s != [] && !Older(e, s[0]) {
      PlaceHolds(e, s[1..]);
      assert s == [s[0]] + s[1..];
    }
  }

  lemma {:induction false} PlaceAscending(e: LogEntry, s: seq<LogEntry>)
    requires Ascending(s) && forall x :: x in s ==> x.id != e.id
    ensures Ascending(Place(e, s))
  {
    if s != [] {
      OlderTotal(e, s[0]);
      if Older(e, s[0]) {
        forall j | 0 <= j < |s|
          ensures Older(e, s[j])
        {
          if j > 0 {
            OlderTransitive(e, s[0], s[j]);
          }
        }
      } else {
        PlaceAscending(e, s[1..]);
        PlaceHolds(e, s[1..]);
        forall x | x in Place(e, s[1..])
          ensures Older(s[0], x)
        {
          if x != e {
            var k :| 0 <= k < |s[1..]| && s[1..][k] == x;
            assert s[k + 1] == x;
          }
        }
        HeadFirst(s[0], Place(e, s[1..]));
      }
    }
  }

  lemma HeadFirst(e: LogEntry, s: seq<LogEntry>)
    requires Ascending(s) && forall x :: x in s ==> Older(e, x)
    ensures Ascending([e] + s)
  {
  }

  lemma {:induction false} SortedHolds(s: seq<LogEntry>)
    ensures multiset(Sorted(s)) == multiset(s)
    ensures |Sorted(s)| == |s|
    ensures forall x :: x in Sorted(s) <==> x in s
  {
    if s != [] {
      SortedHolds(s[1..]);
      PlaceHolds(s[0], Sorted(s[1..]));
      assert s == [s[0]] + s[1..];
    }
  }

  lemma {:induction false} SortedAscending(s: seq<LogEntry>)
    requires DistinctIds(s)
    ensures Ascending(Sorted(s))
  {
    if s != [] {
      SortedAscending(s[1..]);
      SortedHolds(s[1..]);
      forall x | x in s[1..]
        ensures x.id != s[0].id
      {
        var k :| 0 <= k < |s[1..]| && s[1..][k] == x;
        assert s[k + 1] == x;
      }
      PlaceAscending(s[0], Sorted(s[1..]));
    }
  }

  // Sorting what is already ascending changes nothing.
  lemma {:induction false} SortedIdentity(s: seq<LogEntry>)
    requires Ascending(s)
    ensures Sorted(s) == s
  {
    if s != [] {
      SortedIdentity(s[1..]);
      assert s == [s[0]] + s[1..];
      assert |s| > 1 ==> Older(s[0], s[1..][0]);
    }
  }

  lemma SortedDistinct(s: seq<LogEntry>)
    requires DistinctIds(s)
    ensures DistinctIds(Sorted(s))
  {
    SortedHolds(s);
    SortedAscending(s);
    forall i, j | 0 <= i < j < |Sorted(s)|
      ensures Sorted(s)[i].id != Sorted(s)[j].id
    {
      var a, b := Sorted(s)[i], Sorted(s)[j];
      assert a in s && b in s;
      assert Older(a, b);
      OlderTotal(a, a);
    }
  }

  function Clamp(limit: int): (n: nat)
    ensures 1 <= n <= 200
    ensures 1 <= limit <= 200 ==> n == limit
    ensures limit <= 0 ==> n == 40
    ensures limit > 200 ==> n == 200
  {
    if limit <= 0 then 40 else if limit > 200 then 200 else limit
  }
}
