// Byte loops that must cut between runes: the recorded text of a stream
// (pluginapi/stream.go) and the stored error message of an attempt
// (internal/auditlog/auditlog.go).

module TextCuts {
  import opened Prelude
  import opened Utf8

  // ---- dropping the last runes ----

  // The length left after cutting tail runes off the end.
  function CutTail(s: seq<byte>, tail: int): (cut: nat)
    ensures cut <= |s|
    decreases |s|
  {
    if tail <= 0 || s == [] then |s| else CutTail(s[..|s| - DecodeLastRune(s).1], tail - 1)
  }

  lemma CutOnce(s: seq<byte>, cut: nat, tail: int)
    requires 0 < cut <= |s| && tail > 0
    ensures var size := DecodeLastRune(s[..cut]).1;
      size <= cut && CutTail(s[..cut], tail) == CutTail(s[..cut - size], tail - 1)
  {
    var size := DecodeLastRune(s[..cut]).1;
    assert s[..cut][..cut - size] == s[..cut - size];
  }

  function Keep(n: nat, tail: int): nat {
    if tail <= 0 then n else if tail >= n then 0 else n - tail
  }

  // Text n without its last rune is the text before it.
  predicate GrowsByRune(texts: seq<seq<byte>>, n: nat)
    requires 0 < n < |texts|
  {
    var s := texts[n];
    s != [] && s[..|s| - DecodeLastRune(s).1] == texts[n - 1]
  }

  lemma {:induction false} CutGoesBack(texts: seq<seq<byte>>, n: nat, tail: int)
    requires n < |texts| && texts[0] == [] && forall m :: 0 < m < |texts| ==> GrowsByRune(texts, m)
    ensures CutTail(texts[n], tail) == |texts[Keep(n, tail)]|
    decreases n
  {
    if tail > 0 && n > 0 {
      assert GrowsByRune(texts, n);
      CutGoesBack(texts, n - 1, tail - 1);
    }
  }

  function Beginnings(rs: seq<rune>): (texts: seq<seq<byte>>)
    ensures |texts| == |rs| + 1 && forall k :: 0 <= k <= |rs| ==> texts[k] == EncodeAll(rs[..k])
  {
    seq(|rs| + 1, k requires 0 <= k <= |rs| => EncodeAll(rs[..k]))
  }

  lemma BeginningsGrow(rs: seq<rune>, n: nat)
    requires 0 < n <= |rs|
    ensures GrowsByRune(Beginnings(rs), n)
  {
    EmptyText(rs[..n]);
    AllButLast(rs[..n]);
    assert rs[..n][..n - 1] == rs[..n - 1];
  }

  // On valid text the loop drops whole runes: the last tail of them, or all.
  lemma CutTailDropsRunes(rs: seq<rune>, tail: int)
    ensures CutTail(EncodeAll(rs), tail) == Offset(rs, Keep(|rs|, tail))
  {
    var texts := Beginnings(rs);
    forall n | 0 < n < |texts|
      ensures GrowsByRune(texts, n)
    {
      BeginningsGrow(rs, n);
    }
    CutGoesBack(texts, |rs|, tail);
    assert rs[..|rs|] == rs;
  }

  datatype Event = Event(textDelta: bool, choice: int, text: seq<byte>)

  // ReplaceTail's text for one choice.
  function TailReplaced(current: seq<byte>, tail: int, text: seq<byte>): seq<byte> {
    current[..CutTail(current, tail)] + text
  }

  function Get(texts: map<int, seq<byte>>, choice: int): seq<byte> {
    if choice in texts then texts[choice] else []
  }

  // Only text deltas change the text, and only of their choice.
  predicate Concerns(ev: Option<Event>, choice: int) {
    ev.Some? && ev.value.textDelta && ev.value.choice == choice
  }

  class StreamState {
    var texts: map<int, seq<byte>>
    var events: nat

    constructor ()
      ensures texts == map[] && events == 0
    {
      texts := map[];
      events := 0;
    }

    function Text(choice: int): seq<byte>
      reads this`texts
    {
      Get(texts, choice)
    }

    // The builder of a choice, created on first use.
    method Builder(choice: int) returns (b: seq<byte>)
      modifies this`texts
      ensures choice in texts && b == texts[choice] == old(Text(choice))
      ensures forall c :: Get(texts, c) == Get(old(texts), c)
    {
      if choice !in texts {
        texts := texts[choice := []];
      }
      b := texts[choice];
    }

    method Append(ev: Option<Event>)
      modifies this
      ensures events == old(events) + if ev.Some? then 1 else 0
      ensures forall c :: Text(c) == if Concerns(ev, c) then old(Text(c)) + ev.value.text else old(Text(c))
    {
      if ev.None? {
        return;
      }
      events := events + 1;
      if !ev.value.textDelta {
        return;
      }
      var choice := ev.value.choice;
      var b := Builder(choice);
      ghost var before := texts;
      assert forall c :: Get(before, c) == Get(old(texts), c);
      texts := texts[choice := b + ev.value.text];
      assert forall c :: Get(texts, c) == if c == choice then b + ev.value.text else Get(before, c);
    }

    method ReplaceTail(ev: Option<Event>, tail: int, text: seq<byte>)
      modifies this
      ensures events == old(events) + if ev.Some? then 1 else 0
      ensures forall c :: Text(c) == if Concerns(ev, c) then TailReplaced(old(Text(c)), tail, text) else old(Text(c))
    {
      if ev.None? {
        return;
      }
      events := events + 1;
      if !ev.value.textDelta {
        return;
      }
      var choice := ev.value.choice;
      var current := Builder(choice);
      ghost var before := texts;
      assert forall c :: Get(before, c) == Get(old(texts), c);
      var cut := FindCut(current, tail);
      texts := texts[choice := current[..cut] + text];
      assert forall c :: Get(texts, c) == if c == choice then current[..cut] + text else Get(before, c);
    }

    // The loop of ReplaceTail.
    static method FindCut(current: seq<byte>, tail: int) returns (cut: nat)
      ensures cut == CutTail(current, tail)
    {
      cut := |current|;
      var i := 0;
      assert current[..cut] == current;
      while i < tail && cut > 0
        invariant cut <= |current| && 0 <= i && (i <= tail || i == 0)
        invariant CutTail(current, tail) == CutTail(current[..cut], tail - i)
        decreases tail - i
      {
        var (_, size) := DecodeLastRune(current[..cut]);
        CutOnce(current, cut, tail - i);
        cut := cut - size;
        i := i + 1;
      }
    }

    // One recorded step.
    method Record(step: Step)
      modifies this
      ensures forall c :: Text(c) == BytesAfter(old(Text(c)), step, c)
    {
      match step {
        case Appended(choice, text) =>
          Append(Some(Event(true, choice, EncodeAll(text))));
        case TailCut(choice, tail, text) =>
          ReplaceTail(Some(Event(true, choice, EncodeAll(text))), tail, EncodeAll(text));
        case Other(choice) =>
          Append(Some(Event(false, choice, [])));
      }
    }
  }

  // ---- any run of steps, rune by rune ----

  // A recorded event, its text given as runes.
  datatype Step =
    | Appended(choice: int, text: seq<rune>)
    | TailCut(choice: int, tail: int, text: seq<rune>)
    | Other(choice: int)

  function BytesAfter(current: seq<byte>, step: Step, choice: int): seq<byte> {
    match step
    case Appended(c, text) => if c == choice then current + EncodeAll(text) else current
    case TailCut(c, tail, text) => if c == choice then TailReplaced(current, tail, EncodeAll(text)) else current
    case Other(_) => current
  }

  // Append; or drop the last min(tail, n) runes and append.
  function RunesAfter(current: seq<rune>, step: Step, choice: int): seq<rune> {
    match step
    case Appended(c, text) => if c == choice then current + text else current
    case TailCut(c, tail, text) => if c == choice then current[..Keep(|current|, tail)] + text else current
    case Other(_) => current
  }

  function RunesOf(steps: seq<Step>, choice: int): seq<rune> {
    if steps == [] then []
    else RunesAfter(RunesOf(steps[..|steps| - 1], choice), steps[|steps| - 1], choice)
  }

  // One step keeps bytes and runes together.
  lemma StepRefines(current: seq<rune>, step: Step, choice: int)
    ensures BytesAfter(EncodeAll(current), step, choice) == EncodeAll(RunesAfter(current, step, choice))
  {
    match step
    case Appended(c, text) => EncodeAllAppend(current, text);
    case TailCut(c, tail, text) =>
      CutTailDropsRunes(current, tail);
      PrefixBytes(current, Keep(|current|, tail));
      EncodeAllAppend(current[..Keep(|current|, tail)], text);
    case Other(_) =>
  }

  // After any run of steps from an empty state the text of each choice is the
  // encoding of the rune-level fold, hence valid UTF-8.
  method RecordAll(s: StreamState, steps: seq<Step>)
    requires s.texts == map[]
    modifies s
    ensures forall c :: s.Text(c) == EncodeAll(RunesOf(steps, c))
  {
    var i := 0;
    while i < |steps|
      invariant i <= |steps|
      invariant forall c :: s.Text(c) == EncodeAll(RunesOf(steps[..i], c))
    {
      assert steps[..i + 1][..i] == steps[..i];
      forall c
        ensures BytesAfter(EncodeAll(RunesOf(steps[..i], c)), steps[i], c) == EncodeAll(RunesOf(steps[..i + 1], c))
      {
        StepRefines(RunesOf(steps[..i], c), steps[i], c);
      }
      s.Record(steps[i]);
      i := i + 1;
    }
    assert steps[..i] == steps;
  }

  // ---- the stored error message ----

  const MaxErrorLength: nat := 2048

  method TruncateErrorMessage(message: seq<byte>) returns (r: seq<byte>)
    ensures r == message[..Cut(message, MaxErrorLength)]
  {
    if |message| <= MaxErrorLength {
      return message;
    }
    var cut: nat := MaxErrorLength;
    while cut > 0 && !RuneStart(message[cut])
      invariant cut <= MaxErrorLength
      invariant BackTo(message, MaxErrorLength) == BackTo(message, cut)
    {
      cut := cut - 1;
    }
    return message[..cut];
  }

  // Back to the nearest rune start, or to the beginning.
  function BackTo(s: seq<byte>, cut: nat): (k: nat)
    requires cut < |s|
    ensures k <= cut && (k == 0 || RuneStart(s[k]))
    ensures forall i :: k < i <= cut ==> !RuneStart(s[i])
  {
    if cut == 0 || RuneStart(s[cut]) then cut else BackTo(s, cut - 1)
  }

  function Cut(s: seq<byte>, limit: nat): (k: nat)
    ensures k <= |s|
  {
    if |s| <= limit then |s| else BackTo(s, limit)
  }

  // A valid message is cut after whole runes: as many as fit the limit. At most
  // three bytes more than necessary are lost.
  lemma CutKeepsRunes(rs: seq<rune>, limit: nat) returns (k: nat)
    ensures k <= |rs| && EncodeAll(rs)[..Cut(EncodeAll(rs), limit)] == EncodeAll(rs[..k])
    ensures Offset(rs, k) <= limit
    ensures k < |rs| ==> limit < Offset(rs, k + 1) && limit - 3 <= Offset(rs, k)
  {
    var s := EncodeAll(rs);
    if |s| <= limit {
      k := |rs|;
      assert rs[..k] == rs;
    } else {
      k := RuneOfByte(rs, limit);
      OffsetStep(rs, k);
      PrefixBytes(rs, k);
      CutIsOffset(rs, limit, k);
    }
  }

  // The stored error message takes up 2048 bytes at most: a valid message that
  // fits is kept, any other loses only the runes that do not fit.
  lemma StoredErrorFits(rs: seq<rune>) returns (k: nat)
    ensures k <= |rs| && EncodeAll(rs)[..Cut(EncodeAll(rs), MaxErrorLength)] == EncodeAll(rs[..k])
    ensures Offset(rs, k) <= 2048 && (k < |rs| ==> Offset(rs, k + 1) > 2048)
    ensures |EncodeAll(rs)| <= 2048 ==> k == |rs|
  {
    k := CutKeepsRunes(rs, MaxErrorLength);
    if k < |rs| {
      PrefixBytes(rs, k + 1);
    }
  }

  // Whatever the bytes, no more than 2048 are kept, and those from the start.
  lemma StoredErrorIsPrefix(s: seq<byte>)
    ensures Cut(s, MaxErrorLength) <= 2048 && (|s| <= 2048 ==> Cut(s, MaxErrorLength) == |s|)
  {
  }

  lemma CutIsOffset(rs: seq<rune>, limit: nat, k: nat)
    requires limit < |EncodeAll(rs)| && k < |rs| && Offset(rs, k) <= limit < Offset(rs, k + 1)
    ensures BackTo(EncodeAll(rs), limit) == Offset(rs, k)
  {
    var s := EncodeAll(rs);
    var cut := BackTo(s, limit);
    var at := RuneOfByte(rs, Offset(rs, k));
    SameRune(rs, Offset(rs, k), k, at);
    assert RuneStart(s[Offset(rs, k)]);
    if cut > 0 {
      var j := RuneOfByte(rs, cut);
      SameRune(rs, cut, k, j);
    }
  }

  // A byte belongs to one rune only.
  lemma SameRune(rs: seq<rune>, p: nat, j: nat, k: nat)
    requires j < |rs| && k < |rs|
    requires Offset(rs, j) <= p < Offset(rs, j + 1) && Offset(rs, k) <= p < Offset(rs, k + 1)
    ensures j == k
  {
    if j < k {
      OffsetGrows(rs, j + 1, k);
    } else if k < j {
      OffsetGrows(rs, k + 1, j);
    }
  }

  lemma {:induction false} OffsetGrows(rs: seq<rune>, j: nat, k: nat)
    requires j <= k <= |rs|
    ensures Offset(rs, j) <= Offset(rs, k)
  {
    if j < k {
      OffsetGrows(rs, j, k - 1);
      OffsetStep(rs, k - 1);
    }
  }
}
