/** Content-Length framing over a byte stream that arrives in arbitrary chunks. */
module StdioFraming {
  import opened Decimal
  import opened Wrappers

  type Byte = b: nat | b < 0x100
  type Bytes = seq<Byte>

  const CR: Byte := 0x0d
  const LF: Byte := 0x0a
  const SP: Byte := 0x20

  /** "content-length:" */
  const LABEL: Bytes :=
    [0x63, 0x6f, 0x6e, 0x74, 0x65, 0x6e, 0x74, 0x2d, 0x6c, 0x65, 0x6e, 0x67, 0x74, 0x68, 0x3a]

  /** "Content-Length: " */
  const PREFIX: Bytes :=
    [0x43, 0x6f, 0x6e, 0x74, 0x65, 0x6e, 0x74, 0x2d, 0x4c, 0x65, 0x6e, 0x67, 0x74, 0x68, 0x3a, SP]

  const HEADER_END: Bytes := [CR, LF, CR, LF]

  // ---- Writing ----

  function DigitBytes(ds: seq<Digit>): (r: Bytes)
    ensures |r| == |ds| && forall i :: 0 <= i < |r| ==> r[i] as int == 0x30 + ds[i] as int
  {
    seq(|ds|, i requires 0 <= i < |ds| => (0x30 + ds[i] as int) as Byte)
  }

  function Header(length: nat): Bytes {
    PREFIX + DigitBytes(Digits(length)) + HEADER_END
  }

  function Frame(body: Bytes): Bytes {
    Header(|body|) + body
  }

  function Frames(bodies: seq<Bytes>): Bytes {
    if |bodies| == 0 then [] else Frame(bodies[0]) + Frames(bodies[1..])
  }

  // ---- The header pattern: label, any white space, at least one digit; case ignored; leftmost match ----

  function Lower(b: Byte): Byte {
    if 0x41 <= b <= 0x5a then b + 0x20 else b
  }

  predicate LabelAt(h: Bytes) {
    |h| >= |LABEL| && forall i :: 0 <= i < |LABEL| ==> Lower(h[i]) == LABEL[i]
  }

  /** The length of the UTF-8 encoded white-space character at the front, or 0. */
  function SpaceLength(h: Bytes): (n: nat)
    ensures n <= |h|
  {
    if |h| >= 1 && (0x09 <= h[0] <= 0x0d || h[0] == SP) then 1
    else if |h| >= 2 && h[0] == 0xc2 && h[1] == 0xa0 then 2
    else if |h| >= 3 && (
      || (h[0] == 0xe1 && h[1] == 0x9a && h[2] == 0x80)
      || (h[0] == 0xe2 && h[1] == 0x80 && (0x80 <= h[2] <= 0x8a || h[2] == 0xa8 || h[2] == 0xa9 || h[2] == 0xaf))
      || (h[0] == 0xe2 && h[1] == 0x81 && h[2] == 0x9f)
      || (h[0] == 0xe3 && h[1] == 0x80 && h[2] == 0x80)
      || (h[0] == 0xef && h[1] == 0xbb && h[2] == 0xbf)) then 3
    else 0
  }

  function SkipSpaces(h: Bytes): Bytes
    decreases |h|
  {
    if SpaceLength(h) == 0 then h else SkipSpaces(h[SpaceLength(h)..])
  }

  predicate IsDigit(b: Byte) {
    0x30 <= b <= 0x39
  }

  function LeadingDigits(h: Bytes): seq<Digit> {
    if |h| == 0 || !IsDigit(h[0]) then [] else [(h[0] - 0x30) as Digit] + LeadingDigits(h[1..])
  }

  function MatchHere(h: Bytes): Option<nat> {
    if !LabelAt(h) then None
    else
      var ds := LeadingDigits(SkipSpaces(h[|LABEL|..]));
      if |ds| == 0 then None else Some(Value(ds))
  }

  function FindLength(h: Bytes): Option<nat> {
    if MatchHere(h).Some? then MatchHere(h) else if |h| == 0 then None else FindLength(h[1..])
  }

  // ---- Reading ----

  predicate HeaderEndAt(buffer: Bytes, i: nat) {
    i + 4 <= |buffer| && buffer[i] == CR && buffer[i + 1] == LF && buffer[i + 2] == CR && buffer[i + 3] == LF
  }

  function HeaderEndFrom(buffer: Bytes, i: nat): (r: Option<nat>)
    ensures r.Some? ==> i <= r.value && HeaderEndAt(buffer, r.value)
    decreases |buffer| - i
  {
    if i + 4 > |buffer| then None else if HeaderEndAt(buffer, i) then Some(i) else HeaderEndFrom(buffer, i + 1)
  }

  /** The first blank line, or -1. */
  method IndexOfHeaderEnd(buffer: Bytes) returns (r: int)
    ensures r == (if HeaderEndFrom(buffer, 0).None? then -1 else HeaderEndFrom(buffer, 0).value)
  {
    var i := 0;
    while i < |buffer| - 3
      invariant 0 <= i && HeaderEndFrom(buffer, i) == HeaderEndFrom(buffer, 0)
    {
      if buffer[i] == CR && buffer[i + 1] == LF && buffer[i + 2] == CR && buffer[i + 3] == LF {
        return i;
      }
      i := i + 1;
    }
    r := -1;
  }

  function IndexOfLF(buffer: Bytes, i: nat): (r: nat)
    requires exists k :: i <= k < |buffer| && buffer[k] == LF
    ensures i <= r < |buffer| && buffer[r] == LF && forall k :: i <= k < r ==> buffer[k] != LF
    decreases |buffer| - i
  {
    if buffer[i] == LF then i else IndexOfLF(buffer, i + 1)
  }

  datatype Parsed = Parsed(body: Bytes, rest: Bytes)

  /** One framed message off the front; lines of a header without a length are dropped one at a time. */
  function TryRead(buffer: Bytes): (r: Option<Parsed>)
    ensures r.Some? ==> |r.value.rest| < |buffer|
    decreases |buffer|
  {
    var end := HeaderEndFrom(buffer, 0);
    if end.None? then None
    else
      match FindLength(buffer[..end.value])
      case None =>
        assert buffer[end.value + 1] == LF;
        TryRead(buffer[IndexOfLF(buffer, 0) + 1..])
      case Some(length) =>
        TakeBody(buffer, end.value + 4, length)
  }

  /** The body, once all of it has arrived. */
  function TakeBody(buffer: Bytes, start: nat, length: nat): (r: Option<Parsed>)
    requires start <= |buffer|
    ensures r.Some? ==> |r.value.rest| <= |buffer| - start
  {
    if |buffer| < start + length then None
    else Some(Parsed(buffer[start..start + length], buffer[start + length..]))
  }

  datatype Drained = Drained(bodies: seq<Bytes>, rest: Bytes)

  /** Everything that can be read now, and what is left. */
  function Drain(buffer: Bytes): Drained
    decreases |buffer|
  {
    var p := TryRead(buffer);
    if p.None? then Drained([], buffer)
    else
      var more := Drain(p.value.rest);
      Drained([p.value.body] + more.bodies, more.rest)
  }

  class Reader {
    var buffer: Bytes
    var emitted: seq<Bytes>

    constructor ()
      ensures buffer == [] && emitted == []
    {
      buffer, emitted := [], [];
    }

    method OnStdout(chunk: Bytes)
      modifies this
      ensures var d := Drain(old(buffer) + chunk); buffer == d.rest && emitted == old(emitted) + d.bodies
    {
      buffer := buffer + chunk;
      ghost var total := Drain(buffer);
      ghost var was := emitted;
      assert emitted + total.bodies == was + total.bodies;
      while true
        invariant Drain(buffer).rest == total.rest && emitted + Drain(buffer).bodies == was + total.bodies
        decreases |buffer|
      {
        var p := TryRead(buffer);
        if p.None? {
          break;
        }
        ghost var left := Drain(p.value.rest).bodies;
        assert emitted + ([p.value.body] + left) == (emitted + [p.value.body]) + left;
        buffer := p.value.rest;
        emitted := emitted + [p.value.body];
      }
      assert emitted + [] == emitted;
    }
  }

  // ---- Chunking does not matter, for any stream whatever ----

  lemma {:induction false} HeaderEndIsStable(b: Bytes, x: Bytes, i: nat)
    requires HeaderEndFrom(b, i).Some?
    ensures HeaderEndFrom(b + x, i) == HeaderEndFrom(b, i)
    decreases |b| - i
  {
    assert (b + x)[..|b|] == b;
    if !HeaderEndAt(b, i) {
      HeaderEndIsStable(b, x, i + 1);
    }
  }

  lemma {:induction false} LFIsStable(b: Bytes, x: Bytes, i: nat)
    requires exists k :: i <= k < |b| && b[k] == LF
    ensures (exists k :: i <= k < |b + x| && (b + x)[k] == LF) && IndexOfLF(b + x, i) == IndexOfLF(b, i)
  {
    var k :| i <= k < |b| && b[k] == LF;
    assert (b + x)[k] == LF;
    var m := IndexOfLF(b, i);
    assert forall j :: i <= j <= m ==> (b + x)[j] == b[j];
  }

  lemma {:induction false} BodyIsStable(b: Bytes, x: Bytes, start: nat, length: nat)
    requires start <= |b| && TakeBody(b, start, length).Some?
    ensures var p := TakeBody(b, start, length).value;
            TakeBody(b + x, start, length) == Some(Parsed(p.body, p.rest + x))
  {
    assert (b + x)[start..start + length] == b[start..start + length];
    assert (b + x)[start + length..] == b[start + length..] + x;
  }

  lemma {:induction false} DropIsStable(b: Bytes, x: Bytes, k: nat)
    requires k < |b| && b[k] == LF
    ensures (b + x)[k] == LF
    ensures (b + x)[IndexOfLF(b + x, 0) + 1..] == b[IndexOfLF(b, 0) + 1..] + x
  {
    LFIsStable(b, x, 0);
    var nl := IndexOfLF(b, 0) + 1;
    assert (b + x)[nl..] == b[nl..] + x;
  }

  /** A message that can be read is read the same way whatever follows it. */
  lemma {:induction false} ReadIsStable(b: Bytes, x: Bytes)
    requires TryRead(b).Some?
    ensures TryRead(b + x) == Some(Parsed(TryRead(b).value.body, TryRead(b).value.rest + x))
    decreases |b|
  {
    HeaderEndIsStable(b, x, 0);
    var end := HeaderEndFrom(b, 0).value;
    assert (b + x)[..end] == b[..end];
    var length := FindLength(b[..end]);
    if length.None? {
      assert b[end + 1] == LF;
      DropIsStable(b, x, end + 1);
      ReadIsStable(b[IndexOfLF(b, 0) + 1..], x);
    } else {
      BodyIsStable(b, x, end + 4, length.value);
    }
  }

  lemma DrainStep(b: Bytes, p: Parsed)
    requires TryRead(b) == Some(p)
    ensures Drain(b) == Drained([p.body] + Drain(p.rest).bodies, Drain(p.rest).rest)
  {
  }

  lemma Regroup(m: Bytes, a: seq<Bytes>, b: seq<Bytes>)
    ensures [m] + (a + b) == ([m] + a) + b
  {
  }

  lemma {:induction false} DrainInParts(b: Bytes, x: Bytes)
    ensures Drain(b + x) == Drained(Drain(b).bodies + Drain(Drain(b).rest + x).bodies, Drain(Drain(b).rest + x).rest)
    decreases |b|
  {
    var p := TryRead(b);
    if p.None? {
      assert [] + Drain(b + x).bodies == Drain(b + x).bodies;
    } else {
      ReadIsStable(b, x);
      DrainInParts(p.value.rest, x);
      DrainStep(b, p.value);
      DrainStep(b + x, Parsed(p.value.body, p.value.rest + x));
      Regroup(p.value.body, Drain(p.value.rest).bodies, Drain(Drain(p.value.rest).rest + x).bodies);
    }
  }

  function Concat(chunks: seq<Bytes>): Bytes {
    if |chunks| == 0 then [] else Concat(chunks[..|chunks| - 1]) + chunks[|chunks| - 1]
  }

  /** What a reader has emitted and holds after the chunks have arrived one by one. */
  function Feed(chunks: seq<Bytes>): Drained {
    if |chunks| == 0 then Drained([], [])
    else
      var before := Feed(chunks[..|chunks| - 1]);
      var now := Drain(before.rest + chunks[|chunks| - 1]);
      Drained(before.bodies + now.bodies, now.rest)
  }

  /** Any byte stream, garbage included, cut into any chunks, reads as if it had arrived at once. */
  lemma {:induction false} ChunkingIsInvisible(chunks: seq<Bytes>)
    ensures Feed(chunks) == Drain(Concat(chunks))
    decreases |chunks|
  {
    if |chunks| > 0 {
      var init := chunks[..|chunks| - 1];
      ChunkingIsInvisible(init);
      DrainInParts(Concat(init), chunks[|chunks| - 1]);
    }
  }

  // ---- Round trip ----

  lemma {:induction false} DigitsThenStop(ds: seq<Digit>)
    ensures LeadingDigits(DigitBytes(ds)) == ds
  {
    if |ds| > 0 {
      DigitsThenStop(ds[1..]);
      assert DigitBytes(ds)[1..] == DigitBytes(ds[1..]);
      assert ds == [ds[0]] + ds[1..];
    }
  }

  lemma {:induction false} LabelMatches(rest: Bytes)
    ensures LabelAt(PREFIX + rest) && (PREFIX + rest)[|LABEL|..] == [SP] + rest
  {
    var text := PREFIX + rest;
    assert forall i :: 0 <= i < |LABEL| ==> text[i] == PREFIX[i] && Lower(PREFIX[i]) == LABEL[i];
  }

  lemma {:induction false} OneSpaceSkipped(rest: Bytes)
    requires |rest| > 0 && IsDigit(rest[0])
    ensures SkipSpaces([SP] + rest) == rest
  {
    assert ([SP] + rest)[1..] == rest;
    assert SpaceLength(rest) == 0;
  }

  lemma {:induction false} PatternMatches(ds: seq<Digit>)
    requires |ds| > 0
    ensures FindLength(PREFIX + DigitBytes(ds)) == Some(Value(ds))
  {
    LabelMatches(DigitBytes(ds));
    OneSpaceSkipped(DigitBytes(ds));
    DigitsThenStop(ds);
    assert MatchHere(PREFIX + DigitBytes(ds)) == Some(Value(ds));
  }

  lemma {:induction false} HeaderIsFound(length: nat, x: Bytes)
    ensures HeaderEndFrom(Header(length) + x, 0) == Some(|Header(length)| - 4)
    ensures FindLength((Header(length) + x)[..|Header(length)| - 4]) == Some(length)
  {
    var text := PREFIX + DigitBytes(Digits(length));
    var b := Header(length) + x;
    assert b[..|text|] == text;
    assert forall i :: 0 <= i < |text| ==> text[i] != CR;
    assert forall i :: 0 <= i < |text| ==> b[i] == text[i];
    assert b[|text|] == CR && b[|text| + 1] == LF && b[|text| + 2] == CR && b[|text| + 3] == LF;
    NoEarlierEnd(b, 0, |text|);
    PatternMatches(Digits(length));
    ValueOfDigits(length);
  }

  lemma {:induction false} NoEarlierEnd(b: Bytes, i: nat, n: nat)
    requires i <= n && HeaderEndAt(b, n) && forall k :: i <= k < n ==> b[k] != CR
    ensures HeaderEndFrom(b, i) == Some(n)
    decreases n - i
  {
    if i < n { NoEarlierEnd(b, i + 1, n); }
  }

  lemma {:induction false} FrameReadsBack(body: Bytes, x: Bytes)
    ensures TryRead(Frame(body) + x) == Some(Parsed(body, x))
  {
    HeaderIsFound(|body|, body + x);
    var b := Frame(body) + x;
    assert b == Header(|body|) + (body + x);
    var start := |Header(|body|)|;
    assert b[start..start + |body|] == body && b[start + |body|..] == x;
  }

  lemma {:induction false} FramesDrain(bodies: seq<Bytes>)
    ensures Drain(Frames(bodies)) == Drained(bodies, [])
  {
    if |bodies| > 0 {
      assert bodies == [bodies[0]] + bodies[1..];
      FrameReadsBack(bodies[0], Frames(bodies[1..]));
      FramesDrain(bodies[1..]);
      DrainStep(Frames(bodies), Parsed(bodies[0], Frames(bodies[1..])));
    }
  }

  /** Bodies written by the framing come out exactly, in order, with nothing left over, under any chunking. */
  lemma {:induction false} FramingRoundTrip(bodies: seq<Bytes>, chunks: seq<Bytes>)
    requires Concat(chunks) == Frames(bodies)
    ensures Feed(chunks) == Drained(bodies, [])
  {
    ChunkingIsInvisible(chunks);
    FramesDrain(bodies);
  }
}
