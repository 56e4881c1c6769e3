// What the string helpers of the Go standard library promise.

module Strings {
  import opened Prelude

  // The characters with the White_Space property of Unicode.
  const WhiteSpace: set<int> := {
    0x9, 0xA, 0xB, 0xC, 0xD, 0x20, 0x85, 0xA0, 0x1680, 0x2000, 0x2001, 0x2002, 0x2003, 0x2004, 0x2005,
    0x2006, 0x2007, 0x2008, 0x2009, 0x200A, 0x2028, 0x2029, 0x202F, 0x205F, 0x3000}

  lemma SpaceIs(c: char)
    ensures IsSpace(c) <==> c as int in WhiteSpace
  {
  }

  predicate Blank(s: string) {
    forall i :: 0 <= i < |s| ==> IsSpace(s[i])
  }

  // Neither the first nor the last character is white space.
  predicate Bare(s: string) {
    s != "" ==> !IsSpace(s[0]) && !IsSpace(s[|s| - 1])
  }

  lemma {:induction false} TrimLeftIs(s: string) returns (head: string)
    ensures Blank(head) && s == head + TrimLeft(s) && (TrimLeft(s) != "" ==> !IsSpace(TrimLeft(s)[0]))
  {
    if s != "" && IsSpace(s[0]) {
      head := TrimLeftIs(s[1..]);
      assert s == [s[0]] + s[1..];
      head := [s[0]] + head;
    } else {
      head := "";
    }
  }

  lemma {:induction false} TrimRightIs(s: string) returns (tail: string)
    ensures Blank(tail) && s == TrimRight(s) + tail && (TrimRight(s) != "" ==> !IsSpace(TrimRight(s)[|TrimRight(s)| - 1]))
  {
    if s != "" && IsSpace(s[|s| - 1]) {
      var n := |s| - 1;
      tail := TrimRightIs(s[..n]);
      assert s == s[..n] + [s[n]];
      tail := tail + [s[n]];
    } else {
      tail := "";
    }
  }

  // Trimming takes off white space only, and all of it at both ends.
  lemma TrimSpaceIs(s: string) returns (head: string, tail: string)
    ensures Blank(head) && Blank(tail) && s == head + TrimSpace(s) + tail && Bare(TrimSpace(s))
  {
    head := TrimLeftIs(s);
    tail := TrimRightIs(TrimLeft(s));
    var left, core := TrimLeft(s), TrimSpace(s);
    assert left == core + tail;
    if core != "" {
      assert left[0] == core[0];
    }
  }

  lemma {:induction false} TrimBlankLeft(head: string, s: string)
    requires Blank(head) && (s != "" ==> !IsSpace(s[0]))
    ensures TrimLeft(head + s) == s
  {
    if head == "" {
      assert head + s == s;
    } else {
      assert (head + s)[1..] == head[1..] + s;
      TrimBlankLeft(head[1..], s);
    }
  }

  lemma {:induction false} TrimBlankRight(s: string, tail: string)
    requires Blank(tail) && (s != "" ==> !IsSpace(s[|s| - 1]))
    ensures TrimRight(s + tail) == s
  {
    if tail == "" {
      assert s + tail == s;
    } else {
      var n := |tail| - 1;
      assert (s + tail)[..|s + tail| - 1] == s + tail[..n];
      TrimBlankRight(s, tail[..n]);
    }
  }

  // Whatever stands between white space is what trimming leaves.
  lemma TrimSpaceOnly(head: string, core: string, tail: string)
    requires Blank(head) && Blank(tail) && Bare(core)
    ensures TrimSpace(head + core + tail) == core
  {
    if core == "" {
      assert head + core + tail == head + tail + "";
      assert Blank(head + tail);
      TrimBlankLeft(head + tail, "");
    } else {
      assert head + core + tail == head + (core + tail);
      TrimBlankLeft(head, core + tail);
      TrimBlankRight(core, tail);
    }
  }

  lemma {:induction false} BlankIsTrimmed(s: string)
    ensures TrimSpace(s) == "" <==> Blank(s)
  {
    var head, tail := TrimSpaceIs(s);
    if TrimSpace(s) != "" {
      assert s[|head|] == TrimSpace(s)[0];
    }
    if Blank(s) {
      assert s == s + "" + "";
      TrimSpaceOnly(s, "", "");
    }
  }

  // Join puts the separator between the parts and nowhere else.
  lemma {:induction false} JoinAppend(a: seq<string>, b: seq<string>, sep: string)
    requires a != [] && b != []
    ensures Join(a + b, sep) == Join(a, sep) + sep + Join(b, sep)
  {
    if |a| > 1 {
      assert (a + b)[1..] == a[1..] + b;
      JoinAppend(a[1..], b, sep);
    } else {
      assert (a + b)[1..] == b;
    }
  }

  lemma JoinFew(x: string, sep: string)
    ensures Join([], sep) == "" && Join([x], sep) == x
  {
  }

  lemma PrefixIs(s: string, prefix: string)
    ensures HasPrefix(s, prefix) <==> exists rest :: s == prefix + rest
  {
    if HasPrefix(s, prefix) {
      assert s == prefix + s[|prefix|..];
    }
    if rest :| s == prefix + rest {
      assert s[..|prefix|] == prefix;
    }
  }
}
