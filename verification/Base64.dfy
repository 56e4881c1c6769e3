// The standard base64 encoding (section 4 of RFC 4648) as Go's
// base64.StdEncoding writes and reads it: padded, line breaks skipped on input,
// the unused low bits of a padded group not checked.

module Base64 {
  import opened Prelude

  type sextet = n: int | 0 <= n < 64

  function Symbol(n: sextet): (c: char)
    ensures SymbolValue(c) == Some(n)
  {
    if n < 26 then ('A' as int + n) as char
    else if n < 52 then ('a' as int + n - 26) as char
    else if n < 62 then ('0' as int + n - 52) as char
    else if n == 62 then '+' else '/'
  }

  function SymbolValue(c: char): Option<sextet> {
    if 'A' <= c <= 'Z' then Some(c as int - 'A' as int)
    else if 'a' <= c <= 'z' then Some(c as int - 'a' as int + 26)
    else if '0' <= c <= '9' then Some(c as int - '0' as int + 52)
    else if c == '+' then Some(62)
    else if c == '/' then Some(63)
    else None
  }

  // Table 1 of RFC 4648: the letters A to Z, the letters a to z and the digits in
  // this order, then two signs.
  lemma SymbolIs(n: sextet)
    ensures n <= 25 <==> 'A' <= Symbol(n) <= 'Z'
    ensures 26 <= n <= 51 <==> 'a' <= Symbol(n) <= 'z'
    ensures 52 <= n <= 61 <==> '0' <= Symbol(n) <= '9'
    ensures n == 62 <==> Symbol(n) == '+'
    ensures n == 63 <==> Symbol(n) == '/'
    ensures forall m: sextet :: n < m && (m <= 25 || 26 <= n <= m <= 51 || 52 <= n <= m <= 61) ==>
      Symbol(m) as int - Symbol(n) as int == m - n
  {
  }

  // The four sextets of three bytes.
  function First(a: byte): sextet { a / 4 }
  function Second(a: byte, b: byte): sextet { a % 4 * 16 + b / 16 }
  function Third(b: byte, c: byte): sextet { b % 16 * 4 + c / 64 }
  function Fourth(c: byte): sextet { c % 64 }

  function Encode(data: seq<byte>): string {
    if |data| == 0 then ""
    else if |data| == 1 then [Symbol(First(data[0])), Symbol(Second(data[0], 0)), '=', '=']
    else if |data| == 2 then
      [Symbol(First(data[0])), Symbol(Second(data[0], data[1])), Symbol(Third(data[1], 0)), '=']
    else
      [Symbol(First(data[0])), Symbol(Second(data[0], data[1])), Symbol(Third(data[1], data[2])), Symbol(Fourth(data[2]))]
      + Encode(data[3..])
  }

  // Three bytes and four symbols are the same 24 bits.
  predicate SameBits(a: byte, b: byte, c: byte, w: sextet, x: sextet, y: sextet, z: sextet) {
    a * 65536 + b * 256 + c == w * 262144 + x * 4096 + y * 64 + z
  }

  lemma SextetsAre(a: byte, b: byte, c: byte)
    ensures SameBits(a, b, c, First(a), Second(a, b), Third(b, c), Fourth(c))
  {
  }

  // Every group of three bytes becomes four symbols with its bits, the first
  // byte first; what is left over is filled up with zero bits and padded.
  lemma EncodedGroup(data: seq<byte>) returns (w: sextet, x: sextet, y: sextet, z: sextet)
    requires |data| >= 3
    ensures SameBits(data[0], data[1], data[2], w, x, y, z)
    ensures Encode(data) == [Symbol(w), Symbol(x), Symbol(y), Symbol(z)] + Encode(data[3..])
  {
    w, x, y, z := First(data[0]), Second(data[0], data[1]), Third(data[1], data[2]), Fourth(data[2]);
    SextetsAre(data[0], data[1], data[2]);
  }

  lemma EncodedTail(data: seq<byte>) returns (w: sextet, x: sextet, y: sextet)
    requires |data| < 3
    ensures data == [] ==> Encode(data) == ""
    ensures |data| == 1 ==> SameBits(data[0], 0, 0, w, x, 0, 0) && Encode(data) == [Symbol(w), Symbol(x), '=', '=']
    ensures |data| == 2 ==>
      SameBits(data[0], data[1], 0, w, x, y, 0) && Encode(data) == [Symbol(w), Symbol(x), Symbol(y), '=']
  {
    w, x, y := 0, 0, 0;
    if data != [] {
      var b: byte := if |data| == 2 then data[1] else 0;
      w, x, y := First(data[0]), Second(data[0], b), Third(b, 0);
      SextetsAre(data[0], b, 0);
    }
  }

  predicate LineBreak(c: char) {
    c == '\r' || c == '\n'
  }

  function WithoutBreaks(s: string): string {
    if s == "" then ""
    else if LineBreak(s[0]) then WithoutBreaks(s[1..])
    else [s[0]] + WithoutBreaks(s[1..])
  }

  function Decode(s: string): Option<seq<byte>> {
    DecodeGroups(WithoutBreaks(s))
  }

  // The bytes of one group of four symbols; the third and the fourth are None
  // where the group is padded.
  function Group(a: sextet, b: sextet, c: Option<sextet>, d: Option<sextet>): seq<byte> {
    [a * 4 + b / 16]
    + (if c.Some? then [b % 16 * 16 + c.value / 4] else [])
    + (if c.Some? && d.Some? then [c.value % 4 * 64 + d.value] else [])
  }

  function DecodeGroups(s: string): Option<seq<byte>> {
    if s == "" then Some([])
    else if |s| < 4 || SymbolValue(s[0]).None? || SymbolValue(s[1]).None? then None
    else
      var a, b, c, d := SymbolValue(s[0]).value, SymbolValue(s[1]).value, SymbolValue(s[2]), SymbolValue(s[3]);
      if s[2] == '=' then if s[3] == '=' && |s| == 4 then Some(Group(a, b, None, None)) else None
      else if c.None? then None
      else if s[3] == '=' then if |s| == 4 then Some(Group(a, b, c, None)) else None
      else if d.None? then None
      else
        var rest := DecodeGroups(s[4..]);
        if rest.None? then None else Some(Group(a, b, c, d) + rest.value)
  }

  lemma GroupOf(a: byte, b: byte, c: byte)
    ensures Group(First(a), Second(a, 0), None, None) == [a]
    ensures Group(First(a), Second(a, b), Some(Third(b, 0)), None) == [a, b]
    ensures Group(First(a), Second(a, b), Some(Third(b, c)), Some(Fourth(c))) == [a, b, c]
  {
    FirstByte(a, 0);
    FirstByte(a, b);
    SecondByte(a, b, 0);
    SecondByte(a, b, c);
    ThirdByte(b, c);
  }

  lemma FirstByte(a: byte, b: byte)
    ensures First(a) * 4 + Second(a, b) / 16 == a
  {
  }

  lemma SecondByte(a: byte, b: byte, c: byte)
    ensures Second(a, b) % 16 * 16 + Third(b, c) / 4 == b
  {
  }

  lemma ThirdByte(b: byte, c: byte)
    ensures Third(b, c) % 4 * 64 + Fourth(c) == c
  {
  }

  lemma LastGroupReads(a: sextet, b: sextet, c: sextet)
    ensures DecodeGroups([Symbol(a), Symbol(b), '=', '=']) == Some(Group(a, b, None, None))
    ensures DecodeGroups([Symbol(a), Symbol(b), Symbol(c), '=']) == Some(Group(a, b, Some(c), None))
  {
  }

  lemma GroupReads(a: sextet, b: sextet, c: sextet, d: sextet, s: string)
    requires DecodeGroups(s).Some?
    ensures DecodeGroups([Symbol(a), Symbol(b), Symbol(c), Symbol(d)] + s)
         == Some(Group(a, b, Some(c), Some(d)) + DecodeGroups(s).value)
  {
    assert ([Symbol(a), Symbol(b), Symbol(c), Symbol(d)] + s)[4..] == s;
  }

  lemma TailRoundTrip(a: byte, b: byte)
    ensures DecodeGroups(Encode([a])) == Some([a])
    ensures DecodeGroups(Encode([a, b])) == Some([a, b])
  {
    GroupOf(a, b, 0);
    LastGroupReads(First(a), Second(a, 0), 0);
    LastGroupReads(First(a), Second(a, b), Third(b, 0));
  }

  lemma HeadRoundTrip(a: byte, b: byte, c: byte, data: seq<byte>)
    requires DecodeGroups(Encode(data)) == Some(data)
    ensures DecodeGroups(Encode([a, b, c] + data)) == Some([a, b, c] + data)
  {
    GroupOf(a, b, c);
    GroupReads(First(a), Second(a, b), Third(b, c), Fourth(c), Encode(data));
    assert ([a, b, c] + data)[3..] == data;
  }

  predicate RoundTrips(data: seq<byte>) {
    DecodeGroups(Encode(data)) == Some(data)
  }

  lemma HeadStep(data: seq<byte>)
    requires |data| >= 3 && RoundTrips(data[3..])
    ensures RoundTrips(data)
  {
    WholeRoundTrip(data[0], data[1], data[2], data[3..], data);
  }

  lemma WholeRoundTrip(a: byte, b: byte, c: byte, rest: seq<byte>, data: seq<byte>)
    requires RoundTrips(rest) && data == [a, b, c] + rest
    ensures RoundTrips(data)
  {
    HeadRoundTrip(a, b, c, rest);
  }

  lemma {:induction false} GroupsRoundTrip(data: seq<byte>)
    ensures RoundTrips(data)
  {
    if |data| < 3 {
      ShortRoundTrip(data);
    } else {
      GroupsRoundTrip(data[3..]);
      HeadStep(data);
    }
  }

  lemma ShortRoundTrip(data: seq<byte>)
    requires |data| < 3
    ensures DecodeGroups(Encode(data)) == Some(data)
  {
    if |data| == 1 {
      assert data == [data[0]];
      TailRoundTrip(data[0], 0);
    } else if |data| == 2 {
      assert data == [data[0], data[1]];
      TailRoundTrip(data[0], data[1]);
    }
  }

  // Encoded text holds alphabet symbols and padding only.
  predicate Plain(c: char) {
    SymbolValue(c).Some? || c == '='
  }

  lemma {:induction false} EncodedIsPlain(data: seq<byte>, i: nat)
    requires i < |Encode(data)|
    ensures Plain(Encode(data)[i])
  {
    if |data| >= 3 && i >= 4 {
      EncodedIsPlain(data[3..], i - 4);
    }
  }

  lemma {:induction false} NothingToSkip(s: string)
    requires forall i :: 0 <= i < |s| ==> Plain(s[i])
    ensures WithoutBreaks(s) == s
  {
    if s != "" {
      assert Plain(s[0]);
      NothingToSkip(s[1..]);
    }
  }

  // Decoding undoes encoding, and a non-empty payload encodes to text without
  // ':' (or any other byte outside the alphabet).
  lemma RoundTrip(data: seq<byte>)
    ensures Decode(Encode(data)) == Some(data)
    ensures forall i :: 0 <= i < |Encode(data)| ==> Plain(Encode(data)[i])
    ensures data == [] <==> Encode(data) == ""
  {
    forall i | 0 <= i < |Encode(data)|
      ensures Plain(Encode(data)[i])
    {
      EncodedIsPlain(data, i);
    }
    NothingToSkip(Encode(data));
    GroupsRoundTrip(data);
  }

  // A symbol outside the alphabet that is no line break is never skipped: the
  // text does not decode.
  lemma {:induction false} ForeignSymbol(s: string, i: nat)
    requires i < |s| && !Plain(s[i]) && !LineBreak(s[i])
    ensures Decode(s).None?
  {
    var j := KeptAt(s, i);
    ForeignGroup(WithoutBreaks(s), j);
  }

  lemma {:induction false} KeptAt(s: string, i: nat) returns (j: nat)
    requires i < |s| && !LineBreak(s[i])
    ensures j < |WithoutBreaks(s)| && WithoutBreaks(s)[j] == s[i]
  {
    if i == 0 {
      j := 0;
    } else {
      j := KeptAt(s[1..], i - 1);
      if !LineBreak(s[0]) {
        j := j + 1;
      }
    }
  }

  lemma {:induction false} ForeignGroup(s: string, i: nat)
    requires i < |s| && !Plain(s[i])
    ensures DecodeGroups(s).None?
  {
    if i >= 4 {
      ForeignGroup(s[4..], i - 4);
    }
  }

  // ---- what is read ----

  lemma {:induction false} WithoutBreaksAppend(a: string, b: string)
    ensures WithoutBreaks(a + b) == WithoutBreaks(a) + WithoutBreaks(b)
  {
    if a == "" {
      assert a + b == b;
    } else {
      assert (a + b)[1..] == a[1..] + b;
      WithoutBreaksAppend(a[1..], b);
    }
  }

  // A line break, wherever it stands, changes nothing.
  lemma BreaksAreSkipped(a: string, c: char, b: string)
    requires c == '\r' || c == '\n'
    ensures Decode(a + [c] + b) == Decode(a + b)
  {
    assert [c][1..] == "";
    WithoutBreaksAppend(a + [c], b);
    WithoutBreaksAppend(a, [c]);
    WithoutBreaksAppend(a, b);
    assert WithoutBreaks(a) + "" == WithoutBreaks(a);
  }

  // Groups of four symbols, the last one padded with one or two signs at most.
  predicate WellFormed(s: string) {
    && |s| % 4 == 0
    && (forall i :: 0 <= i < |s| ==> SymbolValue(s[i]).Some? || (s[i] == '=' && i >= |s| - 2))
    && (s != "" && s[|s| - 2] == '=' ==> s[|s| - 1] == '=')
  }

  lemma PaddingIsNone()
    ensures SymbolValue('=').None?
  {
  }

  lemma WellFormedHead(s: string)
    requires |s| > 4
    ensures WellFormed(s) <==>
      (forall i :: 0 <= i < 4 ==> SymbolValue(s[i]).Some?) && WellFormed(s[4..])
  {
    PaddingIsNone();
    var rest := s[4..];
    assert forall i :: 4 <= i < |s| ==> s[i] == rest[i - 4];
    if WellFormed(s) {
      assert |s| >= 8;
      assert forall i :: 0 <= i < |rest| ==> rest[i] == s[i + 4];
    }
  }

  lemma {:induction false} GroupsRead(s: string)
    ensures DecodeGroups(s).Some? <==> WellFormed(s)
  {
    PaddingIsNone();
    if |s| > 4 {
      WellFormedHead(s);
      GroupsRead(s[4..]);
    } else {
      LastGroupRead(s);
    }
  }

  lemma LastGroupRead(s: string)
    requires |s| <= 4
    ensures DecodeGroups(s).Some? <==> WellFormed(s)
  {
    PaddingIsNone();
    assert |s| == 4 ==> s[4..] == "";
  }

  // Anything else is refused.
  lemma DecodesWellFormed(s: string)
    ensures Decode(s).Some? <==> WellFormed(WithoutBreaks(s))
  {
    GroupsRead(WithoutBreaks(s));
  }
}
