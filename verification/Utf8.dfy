// UTF-8 as section 3 of RFC 3629 defines it, and the decoding steps of Go's
// unicode/utf8 that the byte loops of this repository use.

module Utf8 {
  import opened Prelude

  // A Unicode scalar value.
  type rune = c: int | 0 <= c < 0xD800 || 0xE000 <= c < 0x110000

  function Encode(c: rune): seq<byte> {
    if c < 0x80 then [c]
    else if c < 0x800 then [0xC0 + c / 64, 0x80 + c % 64]
    else if c < 0x10000 then [0xE0 + c / 4096, 0x80 + c / 64 % 64, 0x80 + c % 64]
    else [0xF0 + c / 262144, 0x80 + c / 4096 % 64, 0x80 + c / 64 % 64, 0x80 + c % 64]
  }

  function EncodeAll(s: seq<rune>): seq<byte> {
    if s == [] then [] else EncodeAll(s[..|s| - 1]) + Encode(s[|s| - 1])
  }

  // utf8.RuneStart: not a continuation byte.
  predicate RuneStart(b: byte) {
    b / 64 != 2
  }

  const RuneError: rune := 0xFFFD

  // How many bytes a sequence with this first byte takes; 0 for a byte no
  // sequence starts with.
  function LeadSize(b: byte): nat {
    if b < 0x80 then 1
    else if 0xC2 <= b < 0xE0 then 2
    else if 0xE0 <= b < 0xF0 then 3
    else if 0xF0 <= b < 0xF5 then 4
    else 0
  }

  // The second byte leaves out overlong forms, surrogates and values past the last scalar.
  predicate SecondFits(lead: byte, b: byte) {
    && (if lead == 0xE0 then 0xA0 else if lead == 0xF0 then 0x90 else 0x80) <= b
    && b <= if lead == 0xED then 0x9F else if lead == 0xF4 then 0x8F else 0xBF
  }

  // utf8.DecodeRuneInString: the rune and its size; (RuneError, 1) for an invalid encoding.
  function DecodeRune(s: seq<byte>): (rune, nat) {
    if s == [] then (RuneError, 0)
    else
      var n := LeadSize(s[0]);
      if n == 1 then (s[0], 1)
      else if n == 0 || |s| < n || !SecondFits(s[0], s[1]) then (RuneError, 1)
      else if n == 2 then (Two(s[0], s[1]), 2)
      else if s[2] / 64 != 2 then (RuneError, 1)
      else if n == 3 then (Three(s[0], s[1], s[2]), 3)
      else if s[3] / 64 != 2 then (RuneError, 1)
      else (Four(s[0], s[1], s[2], s[3]), 4)
  }

  function Two(a: byte, b: byte): rune {
    a % 32 * 64 + b % 64
  }

  function Three(a: byte, b: byte, c: byte): rune
    requires LeadSize(a) == 3 && SecondFits(a, b) && c / 64 == 2
  {
    a % 16 * 4096 + b % 64 * 64 + c % 64
  }

  function Four(a: byte, b: byte, c: byte, d: byte): rune
    requires LeadSize(a) == 4 && SecondFits(a, b) && c / 64 == 2 && d / 64 == 2
  {
    a % 8 * 262144 + b % 64 * 4096 + c % 64 * 64 + d % 64
  }

  // The start of the last sequence: back over continuation bytes, at most three.
  function LastStart(s: seq<byte>, start: nat, steps: nat): (k: nat)
    requires start < |s|
    ensures k <= start
  {
    if start == 0 || steps == 0 || RuneStart(s[start]) then start else LastStart(s, start - 1, steps - 1)
  }

  // utf8.DecodeLastRuneInString.
  function DecodeLastRune(s: seq<byte>): (r: (rune, nat))
    ensures r.1 <= |s| && (s != [] ==> r.1 >= 1)
  {
    if s == [] then (RuneError, 0)
    else if s[|s| - 1] < 0x80 then (s[|s| - 1], 1)
    else
      var start := if |s| == 1 then 0 else LastStart(s, |s| - 2, 2);
      var (r, size) := DecodeRune(s[start..]);
      if start + size != |s| || size == 0 then (RuneError, 1) else (r, size)
  }

  // ---- one encoded rune ----

  lemma EncodeShape(c: rune)
    ensures 1 <= |Encode(c)| <= 4 && RuneStart(Encode(c)[0])
    ensures forall i :: 1 <= i < |Encode(c)| ==> !RuneStart(Encode(c)[i])
    ensures |Encode(c)| == 1 <==> Encode(c)[|Encode(c)| - 1] < 0x80
  {
  }

  lemma DecodeEncodedShort(c: rune)
    requires c < 0x800
    ensures DecodeRune(Encode(c)) == (c, |Encode(c)|)
  {
    if c >= 0x80 {
      DecodeEncodedTwo(c);
    }
  }

  lemma DecodeEncodedTwo(c: rune)
    requires 0x80 <= c < 0x800
    ensures DecodeRune(Encode(c)) == (c, 2)
  {
    var a, b := 0xC0 + c / 64, 0x80 + c % 64;
    assert Encode(c) == [a, b];
    assert a % 32 == c / 64 && b % 64 == c % 64;
    assert LeadSize(a) == 2 && SecondFits(a, b);
    assert Two(a, b) == c;
  }

  lemma DecodeEncodedThree(c: rune)
    requires 0x800 <= c < 0x10000
    ensures DecodeRune(Encode(c)) == (c, 3)
  {
    var a, b, d := 0xE0 + c / 4096, 0x80 + c / 64 % 64, 0x80 + c % 64;
    assert Encode(c) == [a, b, d];
    assert a % 16 == c / 4096 && b % 64 == c / 64 % 64 && d % 64 == c % 64;
    assert SecondFits(a, b);
    assert Three(a, b, d) == c;
  }

  lemma FourDigits(c: rune)
    requires 0x10000 <= c
    ensures c == c / 262144 * 262144 + c / 4096 % 64 * 4096 + c / 64 % 64 * 64 + c % 64
    ensures c / 262144 <= 4 && (c < 262144 ==> c / 4096 >= 16) && (c >= 0x100000 ==> c / 4096 % 64 < 16)
  {
    assert c / 64 == c / 4096 * 64 + c / 64 % 64;
    assert c / 4096 == c / 262144 * 64 + c / 4096 % 64;
  }

  lemma DecodeEncodedFour(c: rune)
    requires 0x10000 <= c
    ensures DecodeRune(Encode(c)) == (c, 4)
  {
    FourDigits(c);
    var w: nat, x: nat, y: nat, z: nat := c / 262144, c / 4096 % 64, c / 64 % 64, c % 64;
    assert SecondFits(0xF0 + w, 0x80 + x);
    FourOf(w, x, y, z);
  }

  lemma FourOf(w: nat, x: nat, y: nat, z: nat)
    requires w <= 4 && x < 64 && y < 64 && z < 64 && SecondFits(0xF0 + w, 0x80 + x)
    ensures Four(0xF0 + w, 0x80 + x, 0x80 + y, 0x80 + z) == w * 262144 + x * 4096 + y * 64 + z
  {
  }

  // Decoding undoes encoding.
  lemma DecodeEncoded(c: rune)
    ensures DecodeRune(Encode(c)) == (c, |Encode(c)|)
  {
    if c < 0x800 {
      DecodeEncodedShort(c);
    } else if c < 0x10000 {
      DecodeEncodedThree(c);
    } else {
      DecodeEncodedFour(c);
    }
  }

  // ---- what is read as a rune is its encoding ----

  lemma TwoRead(a: byte, b: byte)
    requires LeadSize(a) == 2 && SecondFits(a, b)
    ensures Encode(Two(a, b)) == [a, b]
  {
    var h: nat, l: nat := a - 0xC0, b - 0x80;
    assert a % 32 == h && b % 64 == l;
    assert Two(a, b) == h * 64 + l;
    assert (h * 64 + l) / 64 == h && (h * 64 + l) % 64 == l;
  }

  lemma Digits(h: nat, m: nat, l: nat)
    requires m < 64 && l < 64
    ensures (h * 4096 + m * 64 + l) / 4096 == h
    ensures (h * 4096 + m * 64 + l) / 64 % 64 == m && (h * 4096 + m * 64 + l) % 64 == l
  {
    var n := h * 4096 + m * 64 + l;
    assert n / 64 == h * 64 + m;
    assert (h * 64 + m) / 64 == h && (h * 64 + m) % 64 == m;
  }

  lemma ThreeRead(a: byte, b: byte, c: byte)
    requires LeadSize(a) == 3 && SecondFits(a, b) && c / 64 == 2
    ensures Encode(Three(a, b, c)) == [a, b, c]
  {
    var h: nat, m: nat, l: nat := a - 0xE0, b - 0x80, c - 0x80;
    ThreeDigits(a, b, c);
    Digits(h, m, l);
    ThreeRange(h, m, l);
    EncodeThree(h, m, l, Three(a, b, c));
  }

  lemma ThreeDigits(a: byte, b: byte, c: byte)
    requires LeadSize(a) == 3 && SecondFits(a, b) && c / 64 == 2
    ensures Three(a, b, c) == (a - 0xE0) * 4096 + (b - 0x80) * 64 + (c - 0x80)
  {
    assert a % 16 == a - 0xE0 && b % 64 == b - 0x80 && c % 64 == c - 0x80;
  }

  lemma ThreeRange(h: nat, m: nat, l: nat)
    requires h < 16 && m < 64 && l < 64 && (h == 0 ==> m >= 32)
    ensures 0x800 <= h * 4096 + m * 64 + l < 0x10000
  {
  }

  lemma EncodeThree(h: nat, m: nat, l: nat, r: rune)
    requires h < 16 && m < 64 && l < 64 && 0x800 <= r < 0x10000
    requires r / 4096 == h && r / 64 % 64 == m && r % 64 == l
    ensures Encode(r) == [0xE0 + h, 0x80 + m, 0x80 + l]
  {
  }

  lemma FourRead(a: byte, b: byte, c: byte, d: byte)
    requires LeadSize(a) == 4 && SecondFits(a, b) && c / 64 == 2 && d / 64 == 2
    ensures Encode(Four(a, b, c, d)) == [a, b, c, d]
  {
    var g: nat, h: nat, m: nat, l: nat := a - 0xF0, b - 0x80, c - 0x80, d - 0x80;
    var r := Four(a, b, c, d);
    FourSum(a, b, c, d);
    Digits(g * 64 + h, m, l);
    FourQuotients(g, h, r);
    FourRange(g, h, m, l);
    EncodeFour(g, h, m, l, r);
  }

  lemma FourSum(a: byte, b: byte, c: byte, d: byte)
    requires LeadSize(a) == 4 && SecondFits(a, b) && c / 64 == 2 && d / 64 == 2
    ensures Four(a, b, c, d) == ((a - 0xF0) * 64 + (b - 0x80)) * 4096 + (c - 0x80) * 64 + (d - 0x80)
  {
    assert a % 8 == a - 0xF0 && b % 64 == b - 0x80 && c % 64 == c - 0x80 && d % 64 == d - 0x80;
  }

  lemma FourRange(g: nat, h: nat, m: nat, l: nat)
    requires g < 5 && h < 64 && m < 64 && l < 64 && (g == 0 ==> h >= 16)
    ensures 0x10000 <= (g * 64 + h) * 4096 + m * 64 + l
  {
  }

  lemma EncodeFour(g: nat, h: nat, m: nat, l: nat, r: rune)
    requires g < 5 && h < 64 && m < 64 && l < 64 && 0x10000 <= r
    requires r / 262144 == g && r / 4096 % 64 == h && r / 64 % 64 == m && r % 64 == l
    ensures Encode(r) == [0xF0 + g, 0x80 + h, 0x80 + m, 0x80 + l]
  {
  }

  lemma FourQuotients(g: nat, h: nat, n: nat)
    requires h < 64 && n / 4096 == g * 64 + h
    ensures n / 262144 == g && n / 4096 % 64 == h
  {
    assert n / 262144 == n / 4096 / 64;
    assert (g * 64 + h) / 64 == g && (g * 64 + h) % 64 == h;
  }

  // Bytes are read as a rune only when they are its encoding; overlong forms,
  // surrogates and everything else give RuneError and one byte.
  lemma DecodedIsEncoding(s: seq<byte>)
    requires s != []
    ensures var (r, size) := DecodeRune(s);
      (r, size) == (0xFFFD, 1) || (size <= |s| && s[..size] == Encode(r))
  {
    var n := LeadSize(s[0]);
    if n > 1 && |s| >= n && SecondFits(s[0], s[1]) {
      if n == 2 {
        TwoRead(s[0], s[1]);
      } else if n == 3 && s[2] / 64 == 2 {
        ThreeRead(s[0], s[1], s[2]);
      } else if n == 4 && s[2] / 64 == 2 && s[3] / 64 == 2 {
        FourRead(s[0], s[1], s[2], s[3]);
      }
    }
  }

  // The last rune read is what the text ends in, or RuneError and one byte.
  lemma LastDecodedIsEncoding(s: seq<byte>)
    requires s != []
    ensures var (r, size) := DecodeLastRune(s);
      (r, size) == (0xFFFD, 1) || s[|s| - size..] == Encode(r)
  {
    if s[|s| - 1] >= 0x80 {
      var start := if |s| == 1 then 0 else LastStart(s, |s| - 2, 2);
      DecodedIsEncoding(s[start..]);
      var (r, size) := DecodeRune(s[start..]);
      if start + size == |s| {
        assert s[start..][..size] == s[start..];
      }
    }
  }

  // ---- the last rune of a valid text ----

  lemma {:induction false} LastStartFound(s: seq<byte>, k: nat, start: nat, steps: nat)
    requires k <= start < |s| && start - k <= steps && RuneStart(s[k])
    requires forall i :: k < i <= start ==> !RuneStart(s[i])
    ensures LastStart(s, start, steps) == k
  {
    if start > k {
      LastStartFound(s, k, start - 1, steps - 1);
    }
  }

  // The last rune of a text followed by an encoded rune is that rune.
  lemma LastRune(s: seq<byte>, c: rune)
    ensures DecodeLastRune(s + Encode(c)) == (c, |Encode(c)|)
  {
    var e := Encode(c);
    var t := s + e;
    EncodeShape(c);
    assert forall i :: 0 <= i < |e| ==> t[|s| + i] == e[i];
    if |e| > 1 {
      LastStartFound(t, |s|, |t| - 2, 2);
      assert t[|s|..] == e;
    }
    DecodeEncoded(c);
  }

  lemma AllButLast(rs: seq<rune>)
    requires rs != []
    ensures DecodeLastRune(EncodeAll(rs)) == (rs[|rs| - 1], |Encode(rs[|rs| - 1])|)
    ensures EncodeAll(rs)[..|EncodeAll(rs)| - |Encode(rs[|rs| - 1])|] == EncodeAll(rs[..|rs| - 1])
  {
    LastRune(EncodeAll(rs[..|rs| - 1]), rs[|rs| - 1]);
  }

  lemma EmptyText(rs: seq<rune>)
    ensures EncodeAll(rs) == [] <==> rs == []
  {
    if rs != [] {
      EncodeShape(rs[|rs| - 1]);
    }
  }

  // A valid text reads as one sequence of runes only.
  lemma {:induction false} EncodeAllInjective(a: seq<rune>, b: seq<rune>)
    requires EncodeAll(a) == EncodeAll(b)
    ensures a == b
  {
    EmptyText(a);
    EmptyText(b);
    if a != [] && b != [] {
      AllButLast(a);
      AllButLast(b);
      EncodeAllInjective(a[..|a| - 1], b[..|b| - 1]);
      LastAndRest(a, b);
    }
  }

  lemma LastAndRest(a: seq<rune>, b: seq<rune>)
    requires a != [] && b != [] && a[..|a| - 1] == b[..|b| - 1] && a[|a| - 1] == b[|b| - 1]
    ensures a == b
  {
    assert a == a[..|a| - 1] + [a[|a| - 1]] && b == b[..|b| - 1] + [b[|b| - 1]];
  }

  lemma {:induction false} EncodeAllAppend(a: seq<rune>, b: seq<rune>)
    ensures EncodeAll(a + b) == EncodeAll(a) + EncodeAll(b)
  {
    if b == [] {
      assert a + b == a;
    } else {
      var n := |b| - 1;
      assert (a + b)[..|a + b| - 1] == a + b[..n];
      EncodeAllAppend(a, b[..n]);
    }
  }

  // ---- rune boundaries ----

  // The byte offset of rune k.
  function Offset(rs: seq<rune>, k: nat): nat
    requires k <= |rs|
  {
    |EncodeAll(rs[..k])|
  }

  lemma OffsetStep(rs: seq<rune>, k: nat)
    requires k < |rs|
    ensures Offset(rs, k + 1) == Offset(rs, k) + |Encode(rs[k])|
    ensures 1 <= |Encode(rs[k])| <= 4
  {
    EncodeShape(rs[k]);
    assert rs[..k + 1][..k] == rs[..k];
  }

  lemma PrefixBytes(rs: seq<rune>, k: nat)
    requires k <= |rs|
    ensures Offset(rs, k) <= |EncodeAll(rs)|
    ensures EncodeAll(rs)[..Offset(rs, k)] == EncodeAll(rs[..k])
  {
    assert rs == rs[..k] + rs[k..];
    EncodeAllAppend(rs[..k], rs[k..]);
  }

  // Every byte belongs to one rune, and is a rune start exactly at its offset.
  lemma {:induction false} RuneOfByte(rs: seq<rune>, p: nat) returns (k: nat)
    requires p < |EncodeAll(rs)|
    ensures k < |rs| && Offset(rs, k) <= p < Offset(rs, k + 1)
    ensures RuneStart(EncodeAll(rs)[p]) <==> p == Offset(rs, k)
  {
    var n := |rs| - 1;
    var head := EncodeAll(rs[..n]);
    assert rs[..n + 1] == rs;
    if p < |head| {
      k := RuneOfByte(rs[..n], p);
      assert rs[..n][..k] == rs[..k] && rs[..n][..k + 1] == rs[..k + 1];
    } else {
      k := n;
      EncodeShape(rs[n]);
      assert EncodeAll(rs)[p] == Encode(rs[n])[p - |head|];
    }
  }
}
