/** The carrier cell: its wire language, the batch encoder and the batch decoder
    (internal/cell/cell.go). */
module Cell {
  import opened Bytes

  const HEADER := 16
  const FRAME_HEADER := 16
  const MAX_CELL := 256 * 1024
  const MAX_FRAMES := 4096
  const HTTP3_WINDOW := 1024 * 1024
  const MAX_STREAMS := 32
  const MAX_AUTHORITY := 512

  const OPEN: byte := 1
  const DATA: byte := 2
  const FIN: byte := 3
  const RESET: byte := 4
  const CREDIT: byte := 5
  const AUTH: byte := 6
  const OPENED: byte := 7
  const ACK: byte := 8
  const HELLO: byte := 9

  const MAGIC: seq<byte> := [0x4E, 0x46, 0x4F, 0x58] // NFOX

  datatype Frame = Frame(kind: byte, stream: u32, sequence: u32, body: seq<byte>) {
    function Size(): nat { FRAME_HEADER + |body| }
  }

  // ---------------------------------------------------------------- wire language

  /** The bytes of one frame. */
  function Wire(f: Frame): (w: seq<byte>)
    ensures |w| == f.Size()
  {
    [f.kind, 0, 0, 0] + BE32(f.stream) + BE32(f.sequence) + BE32(Wrap32(|f.body|)) + f.body
  }

  /** The bytes of consecutive frames. */
  function Payload(fs: seq<Frame>): seq<byte> {
    if fs == [] then [] else Payload(fs[..|fs| - 1]) + Wire(fs[|fs| - 1])
  }

  function CellHeader(sequence: u32, used: nat, count: nat): (h: seq<byte>)
    ensures |h| == HEADER
  {
    MAGIC + BE32(sequence) + BE32(Wrap32(used)) + BE16(count % 0x1_0000) + [0, 0]
  }

  /** The meaningful part of a cell; everything after it is filler. */
  function UsedPrefix(sequence: u32, fs: seq<Frame>): seq<byte> {
    CellHeader(sequence, HEADER + |Payload(fs)|, |fs|) + Payload(fs)
  }

  predicate KindsUpTo(fs: seq<Frame>, highest: byte) {
    forall i :: 0 <= i < |fs| ==> OPEN <= fs[i].kind <= highest
  }

  /** The used prefix of a legal cell with this sequence and these frames. */
  predicate IsPrefix(b: seq<byte>, sequence: u32, fs: seq<Frame>, highest: byte) {
    && |b| <= MAX_CELL
    && |fs| <= MAX_FRAMES
    && KindsUpTo(fs, highest)
    && b == UsedPrefix(sequence, fs)
  }

  /** The body is a legal cell carrying these frames, followed by `filler` arbitrary bytes. */
  predicate IsCell(b: seq<byte>, sequence: u32, fs: seq<Frame>, filler: nat) {
    && |b| <= MAX_CELL
    && filler <= |b|
    && IsPrefix(b[..|b| - filler], sequence, fs, HELLO)
  }

  // ---------------------------------------------------------------- payload lemmas

  lemma PayloadNothing()
    ensures Payload([]) == []
  {
  }

  lemma PayloadSnoc(fs: seq<Frame>, f: Frame)
    ensures Payload(fs + [f]) == Payload(fs) + Wire(f)
  {
    assert (fs + [f])[..|fs|] == fs;
  }

  lemma {:induction false} PayloadAppend(a: seq<Frame>, b: seq<Frame>)
    ensures Payload(a + b) == Payload(a) + Payload(b)
  {
    hide Wire, BE32;
    if b == [] {
      assert a + b == a;
    } else {
      var n := |b| - 1;
      assert (a + b)[..|a + b| - 1] == a + b[..n];
      PayloadAppend(a, b[..n]);
    }
  }

  lemma PayloadFront(fs: seq<Frame>)
    requires fs != []
    ensures Payload(fs) == Wire(fs[0]) + Payload(fs[1..])
  {
    PayloadAppend([fs[0]], fs[1..]);
    assert [fs[0]] + fs[1..] == fs;
    assert [fs[0]][..0] == [];
    assert Payload([fs[0]]) == Wire(fs[0]);
  }

  /** Every frame occupies at least its header. */
  lemma {:induction false} PayloadLength(fs: seq<Frame>)
    ensures |Payload(fs)| >= FRAME_HEADER * |fs|
  {
    if fs != [] {
      PayloadLength(fs[..|fs| - 1]);
    }
  }

  /** A prefix of the frames occupies a prefix of the payload. */
  lemma PayloadTake(fs: seq<Frame>, i: nat)
    requires i <= |fs|
    ensures Payload(fs) == Payload(fs[..i]) + Payload(fs[i..])
    ensures i < |fs| ==> Payload(fs) == Payload(fs[..i]) + Wire(fs[i]) + Payload(fs[i + 1..])
  {
    hide Wire, BE32, Payload;
    assert fs == fs[..i] + fs[i..];
    PayloadAppend(fs[..i], fs[i..]);
    if i < |fs| {
      PayloadFront(fs[i..]);
      assert fs[i..][1..] == fs[i + 1..];
      Assoc(Payload(fs[..i]), Wire(fs[i]), Payload(fs[i + 1..]));
    }
  }

  /** One step of a loop over the frames. */
  lemma PayloadStep(fs: seq<Frame>, i: nat)
    requires i < |fs|
    ensures Payload(fs[..i + 1]) == Payload(fs[..i]) + Wire(fs[i])
    ensures |Payload(fs)| >= |Payload(fs[..i])| + fs[i].Size()
  {
    hide Wire;
    PayloadTake(fs, i);
    assert fs[..i + 1] == fs[..i] + [fs[i]];
    PayloadSnoc(fs[..i], fs[i]);
  }

  /** A frame can be read back from the front of any byte string it starts. */
  lemma WireInjective(f: Frame, x: seq<byte>, g: Frame, y: seq<byte>)
    requires |f.body| < 0x1_0000_0000 && |g.body| < 0x1_0000_0000
    requires Wire(f) + x == Wire(g) + y
    ensures f == g && x == y
  {
    var w := Wire(f) + x;
    WireFields(f, x);
    WireFields(g, y);
    assert |f.body| == |g.body|;
    assert f.body == w[16..16 + |f.body|] == g.body;
    assert x == w[16 + |f.body|..] == y;
  }

  lemma WireFields(f: Frame, x: seq<byte>)
    requires |f.body| < 0x1_0000_0000
    ensures var w := Wire(f) + x;
            && f.kind == w[0] && w[1] == 0 && w[2] == 0 && w[3] == 0
            && f.stream == FromBE32(w[4..8])
            && f.sequence == FromBE32(w[8..12])
            && |f.body| == FromBE32(w[12..16])
            && f.body == w[16..16 + |f.body|]
            && x == w[16 + |f.body|..]
  {
    var w := Wire(f) + x;
    assert w[4..8] == BE32(f.stream);
    assert w[8..12] == BE32(f.sequence);
    assert w[12..16] == BE32(Wrap32(|f.body|));
    BE32Inverse(f.stream);
    BE32Inverse(f.sequence);
    BE32Inverse(Wrap32(|f.body|));
  }

  /** The converse: bytes with a zero reserved field are the wire form of the fields they hold. */
  lemma FieldsWire(w: seq<byte>, n: nat)
    requires 16 + n <= |w| && w[1] == 0 && w[2] == 0 && w[3] == 0
    requires n == FromBE32(w[12..16])
    ensures w[..16 + n] == Wire(Frame(w[0], FromBE32(w[4..8]), FromBE32(w[8..12]), w[16..16 + n]))
  {
    hide BE32, FromBE32;
    FromBE32Inverse(w[4..8]);
    FromBE32Inverse(w[8..12]);
    FromBE32Inverse(w[12..16]);
    SplitHead(w, n);
  }

  predicate Short(fs: seq<Frame>) {
    forall i :: 0 <= i < |fs| ==> |fs[i].body| < 0x1_0000_0000
  }

  /** Two frame lists whose payloads start the same bytes agree on their common length. */
  lemma {:induction false} PayloadInjective(a: seq<Frame>, x: seq<byte>, b: seq<Frame>, y: seq<byte>)
    requires Short(a) && Short(b) && |a| <= |b|
    requires Payload(a) + x == Payload(b) + y
    ensures a == b[..|a|] && x == Payload(b[|a|..]) + y
  {
    hide Wire, BE32;
    if a == [] {
      assert b[|a|..] == b;
    } else {
      PayloadFront(a);
      PayloadFront(b);
      var a', b' := a[1..], b[1..];
      hide Wire, BE32, Payload;
      Assoc(Wire(a[0]), Payload(a'), x);
      Assoc(Wire(b[0]), Payload(b'), y);
      WireInjective(a[0], Payload(a') + x, b[0], Payload(b') + y);
      PayloadInjective(a', x, b', y);
      Uncons(a, |a|);
      Uncons(b, |a|);
    }
  }

  lemma {:induction false} PayloadBodies(fs: seq<Frame>, limit: nat)
    requires |Payload(fs)| <= limit
    ensures forall i :: 0 <= i < |fs| ==> |fs[i].body| <= limit
  {
    if fs != [] {
      PayloadBodies(fs[..|fs| - 1], limit);
    }
  }

  lemma HeaderFields(s: u32, used: u32, count: u16)
    ensures var h := CellHeader(s, used, count);
            && h[..4] == MAGIC && FromBE32(h[4..8]) == s && FromBE32(h[8..12]) == used
            && FromBE16(h[12..14]) == count && h[14] == 0 && h[15] == 0
  {
    BE32Inverse(s);
    BE32Inverse(used);
    BE16Inverse(count);
    hide BE32, FromBE32, BE16, FromBE16;
    FiveParts(MAGIC, BE32(s), BE32(used), BE16(count), [0, 0]);
  }

  /** The header fields of a used prefix, wherever the byte string continues or stops. */
  lemma PrefixFields(b: seq<byte>, s: u32, fs: seq<Frame>, highest: byte, b': seq<byte>)
    requires IsPrefix(b, s, fs, highest)
    requires HEADER <= |b'| && (b <= b' || b' <= b)
    ensures b'[..4] == MAGIC && FromBE32(b'[4..8]) == s && FromBE32(b'[8..12]) == |b|
    ensures FromBE16(b'[12..14]) == |fs| && b'[14] == 0 && b'[15] == 0
    ensures |b| == HEADER + |Payload(fs)| && b[HEADER..] == Payload(fs)
    ensures Short(fs) && HEADER + FRAME_HEADER * |fs| <= |b|
  {
    var h := CellHeader(s, HEADER + |Payload(fs)|, |fs|);
    assert b == h + Payload(fs);
    PayloadBodies(fs, MAX_CELL);
    PayloadLength(fs);
    HeaderFields(s, |b|, |fs|);
    assert h == CellHeader(s, |b|, |fs|);
    hide CellHeader, BE32, FromBE32, BE16, FromBE16, Payload, IsPrefix, UsedPrefix;
    assert b[HEADER..] == Payload(fs);
    PrefixOfAgreeing(h, b, b');
    SliceAgree(h, b', 0, 4);
    SliceAgree(h, b', 4, 8);
    SliceAgree(h, b', 8, 12);
    SliceAgree(h, b', 12, 14);
  }

  /** The converse of PrefixFields for the header alone. */
  lemma FieldsHeader(b: seq<byte>)
    requires HEADER <= |b| && b[..4] == MAGIC && b[14] == 0 && b[15] == 0
    ensures b[..HEADER] == CellHeader(FromBE32(b[4..8]), FromBE32(b[8..12]), FromBE16(b[12..14]))
  {
    hide BE32, FromBE32, BE16, FromBE16;
    FromBE32Inverse(b[4..8]);
    FromBE32Inverse(b[8..12]);
    FromBE16Inverse(b[12..14]);
    SplitSixteen(b);
  }

  // ---------------------------------------------------------------- the language is unambiguous

  /** A byte string is the used prefix of at most one cell. */
  lemma PrefixUnique(b: seq<byte>, s1: u32, fs1: seq<Frame>, s2: u32, fs2: seq<Frame>)
    requires IsPrefix(b, s1, fs1, HELLO) && IsPrefix(b, s2, fs2, HELLO)
    ensures s1 == s2 && fs1 == fs2
  {
    PrefixFields(b, s1, fs1, HELLO, b);
    PrefixFields(b, s2, fs2, HELLO, b);
    assert Payload(fs1) + [] == Payload(fs2) + [];
    PayloadInjective(fs1, [], fs2, []);
  }

  /** What a cell carries, and where its filler starts, is determined by its bytes. */
  lemma CellUnique(b: seq<byte>, s1: u32, fs1: seq<Frame>, n1: nat, s2: u32, fs2: seq<Frame>, n2: nat)
    requires IsCell(b, s1, fs1, n1) && IsCell(b, s2, fs2, n2)
    ensures s1 == s2 && fs1 == fs2 && n1 == n2
  {
    PrefixFields(b[..|b| - n1], s1, fs1, HELLO, b);
    PrefixFields(b[..|b| - n2], s2, fs2, HELLO, b);
    PrefixUnique(b[..|b| - n1], s1, fs1, s2, fs2);
  }

  /** The length field of the frame header at `pos`. */
  function LengthAt(b: seq<byte>, pos: nat): u32
    requires pos + FRAME_HEADER <= |b|
  {
    FromBE32(b[pos + 12..pos + 16])
  }

  /** The kind is in range and the three reserved bytes are zero. */
  predicate HeadOk(b: seq<byte>, pos: nat, highest: byte)
    requires pos + FRAME_HEADER <= |b|
  {
    OPEN <= b[pos] <= highest && b[pos + 1] == 0 && b[pos + 2] == 0 && b[pos + 3] == 0
  }

  function FrameAt(b: seq<byte>, pos: nat, n: nat): Frame
    requires pos + FRAME_HEADER + n <= |b|
  {
    Frame(b[pos], FromBE32(b[pos + 4..pos + 8]), FromBE32(b[pos + 8..pos + 12]), b[pos + 16..pos + 16 + n])
  }

  lemma FrontFrame(b: seq<byte>, pos: nat, f: Frame, x: seq<byte>, highest: byte)
    requires pos <= |b| && b[pos..] == Wire(f) + x
    requires |f.body| < 0x1_0000_0000 && OPEN <= f.kind <= highest
    ensures pos + f.Size() <= |b| && LengthAt(b, pos) == |f.body| && HeadOk(b, pos, highest)
    ensures FrameAt(b, pos, |f.body|) == f && b[pos + f.Size()..] == x
  {
    var w := b[pos..];
    WireFields(f, x);
    assert |w| == f.Size() + |x|;
    hide Wire, BE32, FromBE32;
    assert w[4..8] == b[pos + 4..pos + 8];
    assert w[8..12] == b[pos + 8..pos + 12];
    assert w[12..16] == b[pos + 12..pos + 16];
    assert w[16..16 + |f.body|] == b[pos + 16..pos + 16 + |f.body|];
    assert w[f.Size()..] == b[pos + f.Size()..];
  }

  /** What is left of a legal prefix after the frames `got`. */
  lemma Rest(b: seq<byte>, s: u32, fs: seq<Frame>, highest: byte, got: seq<Frame>, pos: nat)
    requires IsPrefix(b, s, fs, highest) && highest <= HELLO
    requires Short(got) && |got| <= |fs|
    requires HEADER <= pos <= |b| && b[HEADER..pos] == Payload(got)
    ensures got == fs[..|got|] && b[pos..] == Payload(fs[|got|..]) && Short(fs)
  {
    hide Payload, IsPrefix, FromBE32, FromBE16, Short;
    PrefixFields(b, s, fs, highest, b);
    SplitSuffix(b, HEADER, pos);
    assert Payload(fs) + [] == Payload(fs);
    PayloadInjective(got, b[pos..], fs, []);
    assert Payload(fs[|got|..]) + [] == Payload(fs[|got|..]);
  }

  /** Where a decoder that has read the frames `got` stands inside a legal prefix: the next frame
      starts at its position and lies within the prefix. */
  lemma NextFrame(b: seq<byte>, s: u32, fs: seq<Frame>, highest: byte, got: seq<Frame>, pos: nat)
    requires IsPrefix(b, s, fs, highest) && highest <= HELLO
    requires Short(got) && |got| <= |fs|
    requires HEADER <= pos <= |b| && b[HEADER..pos] == Payload(got)
    ensures got == fs[..|got|]
    ensures |got| == |fs| ==> pos == |b|
    ensures |got| < |fs| ==>
              && pos + fs[|got|].Size() <= |b|
              && LengthAt(b, pos) == |fs[|got|].body|
              && HeadOk(b, pos, highest)
              && FrameAt(b, pos, LengthAt(b, pos)) == fs[|got|]
  {
    Rest(b, s, fs, highest, got, pos);
    if |got| < |fs| {
      assert OPEN <= fs[|got|].kind <= highest;
      hide Wire, BE32, IsPrefix, UsedPrefix, LengthAt, HeadOk, FrameAt, FromBE32;
      var rest := fs[|got|..];
      PayloadFront(rest);
      FrontFrame(b, pos, rest[0], Payload(rest[1..]), highest);
    }
  }

  lemma SameHead(a: seq<byte>, b: seq<byte>, pos: nat, highest: byte)
    requires a <= b || b <= a
    requires pos + FRAME_HEADER <= |a| && pos + FRAME_HEADER <= |b|
    ensures LengthAt(a, pos) == LengthAt(b, pos)
    ensures HeadOk(a, pos, highest) == HeadOk(b, pos, highest)
  {
    hide FromBE32;
    SliceAgree(a, b, pos + 12, pos + 16);
  }

  /** The same, read off the bytes that have arrived so far. */
  lemma Progress(b: seq<byte>, s: u32, fs: seq<Frame>, highest: byte, arrived: seq<byte>, got: seq<Frame>, pos: nat)
    requires IsPrefix(b, s, fs, highest) && highest <= HELLO
    requires b <= arrived || arrived <= b
    requires Short(got) && |got| <= |fs|
    requires HEADER <= pos <= |b| && pos <= |arrived| && arrived[HEADER..pos] == Payload(got)
    ensures got == fs[..|got|]
    ensures |got| == |fs| ==> pos == |b|
    ensures |got| < |fs| ==> pos + FRAME_HEADER <= |b|
    ensures |got| < |fs| && pos + FRAME_HEADER <= |arrived| ==>
              && LengthAt(arrived, pos) <= |b| - pos - FRAME_HEADER
              && HeadOk(arrived, pos, highest)
  {
    hide Payload, FrameAt, FromBE32, IsPrefix, Short, LengthAt, HeadOk;
    SliceAgree(b, arrived, HEADER, pos);
    NextFrame(b, s, fs, highest, got, pos);
    if |got| < |fs| && pos + FRAME_HEADER <= |arrived| {
      SameHead(b, arrived, pos, highest);
    }
  }

  // ---------------------------------------------------------------- encoder

  datatype Result<+T> = Ok(value: T) | Bad

  predicate Encodable(capacity: int, frames: seq<Frame>) {
    && HEADER <= capacity <= MAX_CELL
    && |frames| <= MAX_FRAMES
    && KindsUpTo(frames, HELLO)
    && HEADER + |Payload(frames)| <= capacity
  }

  /** The writers below fill the buffer from left to right and leave what follows alone. */
  method PutUint32(a: array<byte>, pos: nat, x: u32)
    requires pos + 4 <= a.Length
    modifies a
    ensures a[..pos + 4] == old(a[..pos]) + BE32(x)
    ensures forall k :: pos + 4 <= k < a.Length ==> a[k] == old(a[k])
  {
    var b := BE32(x);
    hide BE32;
    a[pos], a[pos + 1], a[pos + 2], a[pos + 3] := b[0], b[1], b[2], b[3];
  }

  method PutKind(a: array<byte>, pos: nat, kind: byte)
    requires pos + 4 <= a.Length
    modifies a
    ensures a[..pos + 4] == old(a[..pos]) + [kind, 0, 0, 0]
    ensures forall k :: pos + 4 <= k < a.Length ==> a[k] == old(a[k])
  {
    a[pos], a[pos + 1], a[pos + 2], a[pos + 3] := kind, 0, 0, 0;
  }

  method CopyBytes(a: array<byte>, pos: nat, part: seq<byte>)
    requires pos + |part| <= a.Length
    modifies a
    ensures a[..pos + |part|] == old(a[..pos]) + part
    ensures forall k :: pos + |part| <= k < a.Length ==> a[k] == old(a[k])
  {
    var i := 0;
    while i < |part|
      invariant 0 <= i <= |part|
      invariant a[..pos + i] == old(a[..pos]) + part[..i]
      invariant forall k :: pos + i <= k < a.Length ==> a[k] == old(a[k])
    {
      a[pos + i] := part[i];
      i := i + 1;
    }
  }

  method WriteFrame(a: array<byte>, pos: nat, f: Frame)
    requires pos + f.Size() <= a.Length
    modifies a
    ensures a[..pos + f.Size()] == old(a[..pos]) + Wire(f)
    ensures forall k :: pos + f.Size() <= k < a.Length ==> a[k] == old(a[k])
  {
    hide BE32;
    ghost var x := a[..pos];
    PutKind(a, pos, f.kind);
    PutUint32(a, pos + 4, f.stream);
    PutUint32(a, pos + 8, f.sequence);
    PutUint32(a, pos + 12, Wrap32(|f.body|));
    CopyBytes(a, pos + FRAME_HEADER, f.body);
    assert a[..pos + f.Size()] ==
           x + [f.kind, 0, 0, 0] + BE32(f.stream) + BE32(f.sequence) + BE32(Wrap32(|f.body|)) + f.body;
  }

  /** The encoder's first pass: the length of the used prefix, unless a frame is illegal or does not fit. */
  method Measure(capacity: nat, frames: seq<Frame>) returns (used: Option<nat>)
    requires HEADER <= capacity
    ensures used.Some? <==> KindsUpTo(frames, HELLO) && HEADER + |Payload(frames)| <= capacity
    ensures used.Some? ==> used.value == HEADER + |Payload(frames)|
  {
    hide Wire, Payload;
    PayloadNothing();
    var n := HEADER;
    var i := 0;
    assert frames[..0] == [];
    while i < |frames|
      invariant 0 <= i <= |frames|
      invariant n == HEADER + |Payload(frames[..i])| <= capacity
      invariant KindsUpTo(frames[..i], HELLO)
    {
      var f := frames[i];
      PayloadStep(frames, i);
      if f.kind < OPEN || f.kind > HELLO || capacity - n < FRAME_HEADER
         || |f.body| > capacity - n - FRAME_HEADER {
        return None;
      }
      n := n + f.Size();
      i := i + 1;
    }
    assert frames[..i] == frames;
    return Some(n);
  }

  /** The encoder's second pass. */
  method WriteFrames(body: array<byte>, frames: seq<Frame>)
    requires HEADER + |Payload(frames)| <= body.Length
    modifies body
    ensures body[..HEADER + |Payload(frames)|] == old(body[..HEADER]) + Payload(frames)
    ensures forall k :: HEADER + |Payload(frames)| <= k < body.Length ==> body[k] == old(body[k])
  {
    var pos := HEADER;
    var i := 0;
    while i < |frames|
      invariant 0 <= i <= |frames|
      invariant pos == HEADER + |Payload(frames[..i])| <= body.Length
      invariant body[..pos] == old(body[..HEADER]) + Payload(frames[..i])
      invariant forall k :: pos <= k < body.Length ==> body[k] == old(body[k])
    {
      PayloadStep(frames, i);
      hide Wire, Payload;
      Assoc(old(body[..HEADER]), Payload(frames[..i]), Wire(frames[i]));
      WriteFrame(body, pos, frames[i]);
      pos := pos + frames[i].Size();
      i := i + 1;
    }
    assert frames[..i] == frames;
  }

  /** The new buffer holds arbitrary bytes: they stand for the random filler. `entropy` says
      whether the random source delivered. */
  method Encode(sequence: u32, capacity: int, frames: seq<Frame>, entropy: bool)
    returns (r: Result<array<byte>>)
    ensures r.Ok? <==> Encodable(capacity, frames) && entropy
    ensures r.Ok? ==> r.value.Length == capacity && fresh(r.value)
    ensures r.Ok? ==> IsCell(r.value[..], sequence, frames, capacity - HEADER - |Payload(frames)|)
  {
    if capacity < HEADER || capacity > MAX_CELL || |frames| > MAX_FRAMES {
      return Bad;
    }
    var measured := Measure(capacity, frames);
    if measured.None? || !entropy {
      return Bad;
    }
    var used := measured.value;
    var body := new byte[capacity];
    WriteHeader(body, sequence, used, |frames|);
    WriteFrames(body, frames);
    hide CellHeader, Payload;
    assert body[..used] == UsedPrefix(sequence, frames);
    assert body[..][..capacity - (capacity - used)] == body[..used];
    return Ok(body);
  }

  method WriteHeader(body: array<byte>, sequence: u32, used: nat, count: nat)
    requires HEADER <= body.Length
    modifies body
    ensures body[..HEADER] == CellHeader(sequence, used, count)
    ensures forall k :: HEADER <= k < body.Length ==> body[k] == old(body[k])
  {
    hide BE32;
    CopyBytes(body, 0, MAGIC);
    PutUint32(body, 4, sequence);
    PutUint32(body, 8, Wrap32(used));
    var c := BE16(count % 0x1_0000);
    body[12], body[13], body[14], body[15] := c[0], c[1], 0, 0;
    assert body[..HEADER] == body[..12] + c + [0, 0];
  }

  // ---------------------------------------------------------------- decoder

  datatype Decoded = Decoded(sequence: u32, frames: seq<Frame>, filler: nat)

  ghost predicate NoCell(body: seq<byte>) {
    forall s, fs, n :: !IsCell(body, s, fs, n)
  }

  method Decode(body: seq<byte>) returns (r: Result<Decoded>)
    ensures r.Ok? ==> IsCell(body, r.value.sequence, r.value.frames, r.value.filler)
    ensures r.Bad? ==> NoCell(body)
  {
    hide BE32, FromBE32, BE16, FromBE16, Payload, CellHeader, NoCell, Wire, IsCell, LengthAt, HeadOk, FrameAt;
    if |body| < HEADER || |body| > MAX_CELL || body[..4] != MAGIC || body[15] != 0 || body[14] != 0 {
      BadHeader(body);
      return Bad;
    }
    var number := FromBE32(body[4..8]);
    var used := FromBE32(body[8..12]);
    var count := FromBE16(body[12..14]);
    if used < HEADER || used > |body| || count > MAX_FRAMES || count > (used - HEADER) / FRAME_HEADER {
      BadHeader(body);
      return Bad;
    }
    var frames: seq<Frame> := [];
    var pos: nat := HEADER;
    PayloadNothing();
    while |frames| < count
      invariant |frames| <= count
      invariant HEADER <= pos <= used
      invariant body[HEADER..pos] == Payload(frames)
      invariant Legible(frames)
      decreases count - |frames|
    {
      if pos + FRAME_HEADER > used || LengthAt(body, pos) > used - pos - FRAME_HEADER || !HeadOk(body, pos, HELLO) {
        BadFrame(body, frames, pos);
        return Bad;
      }
      var f := FrameAt(body, pos, LengthAt(body, pos));
      ParsedFrame(body, pos, frames, f);
      frames := frames + [f];
      pos := pos + f.Size();
    }
    if pos != used {
      BadFrame(body, frames, pos);
      return Bad;
    }
    WholeCell(body, used, frames);
    return Ok(Decoded(number, frames, |body| - used));
  }

  lemma BadHeader(body: seq<byte>)
    requires HEADER <= |body| <= MAX_CELL && body[..4] == MAGIC && body[15] == 0 && body[14] == 0 ==>
               var used: nat := FromBE32(body[8..12]);
               var count := FromBE16(body[12..14]);
               used < HEADER || used > |body| || count > MAX_FRAMES || count > (used - HEADER) / FRAME_HEADER
    ensures NoCell(body)
  {
    forall s, fs, n ensures !IsCell(body, s, fs, n) {
      if IsCell(body, s, fs, n) {
        PrefixFields(body[..|body| - n], s, fs, HELLO, body);
      }
    }
  }

  /** If the batch decoder cannot continue after the frames `got`, the body is no cell at all. */
  lemma BadFrame(body: seq<byte>, got: seq<Frame>, pos: nat)
    requires HEADER <= |body|
    requires var used: nat := FromBE32(body[8..12]);
             && HEADER <= pos <= used <= |body|
             && body[HEADER..pos] == Payload(got) && Short(got)
             && |got| <= FromBE16(body[12..14])
             && if |got| == FromBE16(body[12..14]) then pos != used
                else pos + FRAME_HEADER > used || LengthAt(body, pos) > used - pos - FRAME_HEADER
                     || !HeadOk(body, pos, HELLO)
    ensures NoCell(body)
  {
    hide BE32, FromBE32, BE16, FromBE16, Payload, Wire, HeadOk, LengthAt, Short, UsedPrefix;
    forall s, fs, n ensures !IsCell(body, s, fs, n) {
      if IsCell(body, s, fs, n) {
        PrefixFields(body[..|body| - n], s, fs, HELLO, body);
        Progress(body[..|body| - n], s, fs, HELLO, body, got, pos);
      }
    }
  }

  /** The frames may stand in a cell. */
  predicate Legible(fs: seq<Frame>) {
    KindsUpTo(fs, HELLO) && Short(fs)
  }

  /** The frames read make up the cell whose header announces them. */
  lemma WholeCell(body: seq<byte>, used: nat, fs: seq<Frame>)
    requires HEADER <= used <= |body| <= MAX_CELL && |fs| <= MAX_FRAMES && Legible(fs)
    requires body[..4] == MAGIC && body[14] == 0 && body[15] == 0
    requires used == FromBE32(body[8..12]) && |fs| == FromBE16(body[12..14])
    requires body[HEADER..used] == Payload(fs)
    ensures IsCell(body, FromBE32(body[4..8]), fs, |body| - used)
  {
    hide BE32, FromBE32, BE16, FromBE16, Payload, CellHeader, Short;
    FieldsHeader(body);
    Glue(body, 0, HEADER, used);
    assert body[..|body| - (|body| - used)] == body[..used];
  }

  lemma ParsedFrame(body: seq<byte>, pos: nat, got: seq<Frame>, f: Frame)
    requires HEADER <= pos <= |body| - 16 && pos + 16 + LengthAt(body, pos) <= |body|
    requires HeadOk(body, pos, HELLO)
    requires body[HEADER..pos] == Payload(got) && Legible(got)
    requires f == FrameAt(body, pos, LengthAt(body, pos))
    ensures |f.body| == LengthAt(body, pos)
    ensures body[HEADER..pos + f.Size()] == Payload(got + [f]) && Legible(got + [f])
  {
    hide Payload, Wire, BE32, FromBE32;
    FrameBytes(body, pos, f);
    PayloadSnoc(got, f);
    hide LengthAt, FrameAt;
    Glue(body, HEADER, pos, pos + f.Size());
  }

  lemma FrameBytes(body: seq<byte>, pos: nat, f: Frame)
    requires pos <= |body| - 16 && pos + 16 + LengthAt(body, pos) <= |body|
    requires body[pos + 1] == 0 && body[pos + 2] == 0 && body[pos + 3] == 0
    requires f == FrameAt(body, pos, LengthAt(body, pos))
    ensures body[pos..pos + f.Size()] == Wire(f)
  {
    var w := body[pos..];
    var n := LengthAt(body, pos);
    assert w[4..8] == body[pos + 4..pos + 8] && w[8..12] == body[pos + 8..pos + 12];
    assert w[12..16] == body[pos + 12..pos + 16] && w[16..16 + n] == body[pos + 16..pos + 16 + n];
    FieldsWire(w, n);
    assert w[..16 + n] == body[pos..pos + 16 + n];
  }

  /** Decoding an encoded cell gives back exactly what was encoded, whatever the filler bytes are. */
  method EncodeThenDecode(sequence: u32, capacity: int, frames: seq<Frame>) returns (r: Result<Decoded>)
    ensures Encodable(capacity, frames) ==>
              r == Ok(Decoded(sequence, frames, capacity - HEADER - |Payload(frames)|))
    ensures !Encodable(capacity, frames) ==> r.Bad?
  {
    var e := Encode(sequence, capacity, frames, true);
    if e.Bad? {
      return Bad;
    }
    var body := e.value[..];
    r := Decode(body);
    var n := capacity - HEADER - |Payload(frames)|;
    assert IsCell(body, sequence, frames, n);
    if r.Ok? {
      CellUnique(body, sequence, frames, n, r.value.sequence, r.value.frames, r.value.filler);
    }
  }

  /** Canonicity: re-encoding what a body decodes to reproduces its used prefix byte for byte. */
  method DecodeThenEncode(body: seq<byte>) returns (r: Result<Decoded>, again: seq<byte>)
    ensures r.Bad? ==> NoCell(body)
    ensures r.Ok? ==> |again| == |body| && r.value.filler <= |body|
                      && again[..|body| - r.value.filler] == body[..|body| - r.value.filler]
                      && IsCell(body, r.value.sequence, r.value.frames, r.value.filler)
  {
    r := Decode(body);
    again := [];
    if r.Ok? {
      PrefixFields(body[..|body| - r.value.filler], r.value.sequence, r.value.frames, HELLO, body);
      var e := Encode(r.value.sequence, |body|, r.value.frames, true);
      again := e.value[..];
    }
  }

  /** cell.Uint32: the four-byte body of a CREDIT frame. */
  function Uint32(n: u32): (b: seq<byte>)
    ensures |b| == 4 && FromBE32(b) == n
  {
    BE32Inverse(n);
    BE32(n)
  }
}
