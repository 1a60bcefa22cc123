/** The incremental cell decoder (internal/cell/stream.go): it is fed the used prefix of one cell
    in pieces and hands out each frame as soon as it is complete. */
module StreamDecoding {
  import opened Bytes
  import opened Cell

  /** The prefix accepted by the incremental decoder: no frame kind above OPENED. */
  predicate Legal(b: seq<byte>, sequence: u32, fs: seq<Frame>) {
    IsPrefix(b, sequence, fs, OPENED)
  }

  /** No continuation of the bytes is a legal prefix; after the last piece only the bytes themselves count. */
  ghost predicate Hopeless(b: seq<byte>, sequence: u32, final: bool) {
    forall rest, fs :: (final ==> rest == []) ==> !Legal(b + rest, sequence, fs)
  }

  predicate HeaderRead(b: seq<byte>, sequence: u32, used: nat, count: nat) {
    && HEADER <= |b|
    && b[..4] == MAGIC && FromBE32(b[4..8]) == sequence && b[14] == 0 && b[15] == 0
    && used == FromBE32(b[8..12]) && count == FromBE16(b[12..14])
    && HEADER <= used <= MAX_CELL && count <= MAX_FRAMES
  }

  /** `got` are the frames found in the bytes up to `offset`. */
  predicate Reading(b: seq<byte>, used: nat, count: nat, offset: nat, got: seq<Frame>) {
    && |b| <= used && HEADER <= offset <= |b|
    && |got| <= count && KindsUpTo(got, OPENED) && Short(got)
    && b[HEADER..offset] == Payload(got)
  }

  /** The next frame, if any, is not complete yet. */
  predicate Drained(b: seq<byte>, used: nat, count: nat, offset: nat, got: seq<Frame>)
    requires Reading(b, used, count, offset, got)
  {
    && (|got| < count ==> offset + FRAME_HEADER <= |b| ==> LengthAt(b, offset) > |b| - offset - FRAME_HEADER)
    && (|got| == count ==> offset == used)
    && (|b| == used ==> offset == used && |got| == count)
  }

  predicate Open(b: seq<byte>, sequence: u32, used: nat, count: nat, offset: nat, got: seq<Frame>) {
    && |b| <= MAX_CELL
    && if used == 0 then |b| < HEADER && got == [] && count == 0 && offset == 0
       else HeaderRead(b, sequence, used, count) && Reading(b, used, count, offset, got)
            && Drained(b, used, count, offset, got)
  }

  class StreamDecoder {
    const sequence: u32
    var body: seq<byte>
    var used: nat
    var count: nat
    var offset: nat
    var parsed: nat
    var ended: bool
    /** Everything handed out so far. */
    ghost var emitted: seq<Frame>

    ghost predicate Valid()
      reads this
    {
      !ended ==> parsed == |emitted| && Open(body, sequence, used, count, offset, emitted)
    }

    constructor (sequence: u32)
      ensures Valid() && !ended && this.sequence == sequence && body == [] && emitted == []
    {
      this.sequence := sequence;
      body := [];
      used, count, offset, parsed, ended := 0, 0, 0, 0, false;
      emitted := [];
    }

    method Push(part: seq<byte>, final: bool) returns (ok: bool, frames: seq<Frame>)
      requires Valid()
      modifies this
      ensures Valid()
      ensures old(ended) ==> !ok
      ensures !ok ==> ended && frames == [] && emitted == old(emitted)
      ensures !ok && !old(ended) ==> Hopeless(old(body) + part, sequence, final)
      ensures ok ==> body == old(body) + part && emitted == old(emitted) + frames && ended == final
      ensures ok && final ==> Legal(body, sequence, emitted)
    {
      hide Hopeless, Legal, FromBE32, FromBE16, Payload, Drained;
      PayloadNothing();
      TooLong(body, part, sequence, final);
      frames := [];
      if ended || |part| > MAX_CELL - |body| {
        ended := true;
        return false, [];
      }
      body := body + part;
      if used == 0 && |body| >= HEADER {
        used := FromBE32(body[8..12]);
        count := FromBE16(body[12..14]);
        if body[..4] != MAGIC || FromBE32(body[4..8]) != sequence || body[14] != 0 || body[15] != 0
           || used < HEADER || used > MAX_CELL || count > MAX_FRAMES {
          RefuseHeader(body, sequence, final);
          ended := true;
          return false, [];
        }
        offset := HEADER;
        assert body[HEADER..offset] == Payload(emitted);
      } else if used != 0 {
        StillRead(old(body), part, sequence, used, count, offset, emitted);
      }
      if used != 0 {
        if |body| > used {
          RefuseLength(body, sequence, used, count, final);
          ended := true;
          return false, [];
        }
        ok, frames := Parse(final);
        if !ok {
          return false, [];
        }
      }
      if final {
        if used == 0 || |body| != used || offset != used || parsed != count {
          RefuseEnd(body, sequence, used, count, offset, emitted + frames);
          ended := true;
          return false, [];
        }
        Complete(body, sequence, used, count, emitted + frames);
        ended := true;
      }
      emitted := emitted + frames;
      return true, frames;
    }

    /** The frame loop of Push. */
    method Parse(final: bool) returns (ok: bool, frames: seq<Frame>)
      requires !ended && parsed == |emitted| && used != 0
      requires HeaderRead(body, sequence, used, count) && Reading(body, used, count, offset, emitted)
      modifies this
      ensures body == old(body) && used == old(used) && count == old(count) && emitted == old(emitted)
      ensures ended == !ok
      ensures !ok ==> Hopeless(body, sequence, final)
      ensures ok ==> parsed == |emitted + frames| && Reading(body, used, count, offset, emitted + frames)
      ensures ok ==> Drained(body, used, count, offset, emitted + frames)
    {
      hide HeaderRead, IsPrefix, FromBE32, Payload, Hopeless, HeadOk, Short, KindsUpTo;
      frames := [];
      assert emitted + frames == emitted;
      while parsed < count && offset + FRAME_HEADER <= |body|
        invariant body == old(body) && used == old(used) && count == old(count) && emitted == old(emitted)
        invariant !ended && parsed == |emitted + frames|
        invariant Reading(body, used, count, offset, emitted + frames)
        decreases count - parsed
      {
        var n := LengthAt(body, offset);
        assert used - offset - FRAME_HEADER >= 0; // the unsigned subtraction cannot wrap
        if n > used - offset - FRAME_HEADER || !HeadOk(body, offset, OPENED) {
          RefuseFrame(body, sequence, used, count, offset, emitted + frames, final);
          ended := true;
          return false, [];
        }
        if n > |body| - offset - FRAME_HEADER {
          break;
        }
        var f := FrameAt(body, offset, n);
        ReadOn(body, used, count, offset, emitted + frames);
        assert emitted + (frames + [f]) == emitted + frames + [f];
        frames := frames + [f];
        offset := offset + FRAME_HEADER + n;
        parsed := parsed + 1;
      }
      if parsed == count && offset != used {
        RefuseFrame(body, sequence, used, count, offset, emitted + frames, final);
        ended := true;
        return false, [];
      }
      if |body| == used && (offset != used || parsed != count) {
        RefuseFrame(body, sequence, used, count, offset, emitted + frames, final);
        ended := true;
        return false, [];
      }
      return true, frames;
    }
  }

  /** A complete frame has been read. */
  lemma ReadOn(b: seq<byte>, used: nat, count: nat, offset: nat, got: seq<Frame>)
    requires Reading(b, used, count, offset, got) && |got| < count && offset + FRAME_HEADER <= |b|
    requires LengthAt(b, offset) <= |b| - offset - FRAME_HEADER && HeadOk(b, offset, OPENED)
    ensures var n := LengthAt(b, offset);
            Reading(b, used, count, offset + FRAME_HEADER + n, got + [FrameAt(b, offset, n)])
  {
    hide Payload, LengthAt;
    ParsedFrame(b, offset, got, FrameAt(b, offset, LengthAt(b, offset)));
  }

  // ---------------------------------------------------------------- refusals are never premature

  lemma TooLong(b: seq<byte>, part: seq<byte>, sequence: u32, final: bool)
    ensures |part| > MAX_CELL - |b| ==> Hopeless(b + part, sequence, final)
  {
  }

  lemma RefuseHeader(b: seq<byte>, sequence: u32, final: bool)
    requires HEADER <= |b| && !HeaderRead(b, sequence, FromBE32(b[8..12]), FromBE16(b[12..14]))
    ensures Hopeless(b, sequence, final)
  {
    forall rest, fs ensures !Legal(b + rest, sequence, fs) {
      if Legal(b + rest, sequence, fs) {
        PrefixFields(b + rest, sequence, fs, OPENED, b);
      }
    }
  }

  lemma RefuseLength(b: seq<byte>, sequence: u32, used: nat, count: nat, final: bool)
    requires HeaderRead(b, sequence, used, count) && |b| > used
    ensures Hopeless(b, sequence, final)
  {
    forall rest, fs ensures !Legal(b + rest, sequence, fs) {
      if Legal(b + rest, sequence, fs) {
        PrefixFields(b + rest, sequence, fs, OPENED, b);
      }
    }
  }

  lemma StillRead(earlier: seq<byte>, part: seq<byte>, sequence: u32, used: nat, count: nat, offset: nat,
                  got: seq<Frame>)
    requires HeaderRead(earlier, sequence, used, count) && Reading(earlier, used, count, offset, got)
    ensures HeaderRead(earlier + part, sequence, used, count)
    ensures (earlier + part)[HEADER..offset] == Payload(got)
  {
    var b := earlier + part;
    hide FromBE32, FromBE16, Payload;
    SliceAgree(earlier, b, HEADER, offset);
    SliceAgree(earlier, b, 0, 4);
    SliceAgree(earlier, b, 4, 8);
    SliceAgree(earlier, b, 8, 12);
    SliceAgree(earlier, b, 12, 14);
  }

  /** Where a reader stands with respect to any legal continuation of its bytes. */
  lemma Ahead(b: seq<byte>, sequence: u32, used: nat, count: nat, offset: nat, got: seq<Frame>, rest: seq<byte>,
              fs: seq<Frame>)
    requires HeaderRead(b, sequence, used, count) && Reading(b, used, count, offset, got)
    requires Legal(b + rest, sequence, fs)
    ensures |b + rest| == used && |fs| == count && got <= fs
    ensures |got| == |fs| ==> offset == used
    ensures |got| < |fs| ==> offset + FRAME_HEADER <= used
    ensures |got| < |fs| && offset + FRAME_HEADER <= |b| ==>
              LengthAt(b, offset) <= used - offset - FRAME_HEADER && HeadOk(b, offset, OPENED)
  {
    PrefixFields(b + rest, sequence, fs, OPENED, b);
    Progress(b + rest, sequence, fs, OPENED, b, got, offset);
  }

  lemma RefuseFrame(b: seq<byte>, sequence: u32, used: nat, count: nat, offset: nat, got: seq<Frame>, final: bool)
    requires HeaderRead(b, sequence, used, count) && Reading(b, used, count, offset, got)
    requires || (|got| == count && offset != used)
             || (|b| == used && |got| < count && offset + FRAME_HEADER > |b|)
             || (|got| < count && offset + FRAME_HEADER <= |b|
                 && (LengthAt(b, offset) > used - offset - FRAME_HEADER || !HeadOk(b, offset, OPENED)))
             || (|b| == used && |got| < count && offset + FRAME_HEADER <= |b|
                 && LengthAt(b, offset) > |b| - offset - FRAME_HEADER)
    ensures Hopeless(b, sequence, final)
  {
    hide IsPrefix, HeaderRead, FromBE32, Payload;
    forall rest, fs ensures !Legal(b + rest, sequence, fs) {
      if Legal(b + rest, sequence, fs) {
        Ahead(b, sequence, used, count, offset, got, rest, fs);
      }
    }
  }

  lemma RefuseEnd(b: seq<byte>, sequence: u32, used: nat, count: nat, offset: nat, got: seq<Frame>)
    requires Open(b, sequence, used, count, offset, got)
    requires used == 0 || |b| != used || offset != used || |got| != count
    ensures Hopeless(b, sequence, true)
  {
    hide FromBE32, Payload;
    forall rest, fs | rest == [] ensures !Legal(b + rest, sequence, fs) {
      if Legal(b + rest, sequence, fs) && used != 0 {
        Ahead(b, sequence, used, count, offset, got, rest, fs);
      }
    }
  }

  lemma Complete(b: seq<byte>, sequence: u32, used: nat, count: nat, got: seq<Frame>)
    requires HeaderRead(b, sequence, used, count) && Reading(b, used, count, used, got)
    requires |b| == used && |got| == count
    ensures Legal(b, sequence, got)
  {
    FieldsHeader(b);
    hide FromBE32, FromBE16, BE32, BE16, Payload, CellHeader;
    assert b == b[..HEADER] + b[HEADER..used];
  }

  // ---------------------------------------------------------------- what the decoder promises

  /** Everything handed out so far is a prefix of the frames of every legal cell that starts with the bytes
      received; and a frame whose bytes have all arrived has been handed out. */
  lemma EmittedIsPrefix(b: seq<byte>, sequence: u32, used: nat, count: nat, offset: nat, got: seq<Frame>,
                        rest: seq<byte>, fs: seq<Frame>)
    requires Open(b, sequence, used, count, offset, got)
    requires Legal(b + rest, sequence, fs)
    ensures got <= fs
    ensures forall k :: 0 <= k <= |fs| && HEADER + |Payload(fs[..k])| <= |b| ==> k <= |got|
  {
    if used != 0 {
      Ahead(b, sequence, used, count, offset, got, rest, fs);
      forall k | 0 <= k <= |fs| && HEADER + |Payload(fs[..k])| <= |b| ensures k <= |got| {
        if |got| < k {
          Early(b, sequence, used, count, offset, got, rest, fs, k);
        }
      }
    }
  }

  lemma Early(b: seq<byte>, sequence: u32, used: nat, count: nat, offset: nat, got: seq<Frame>,
              rest: seq<byte>, fs: seq<Frame>, k: nat)
    requires HeaderRead(b, sequence, used, count) && Reading(b, used, count, offset, got)
    requires Legal(b + rest, sequence, fs)
    requires |got| < k <= |fs| && got <= fs && HEADER + |Payload(fs[..k])| <= |b|
    ensures offset + FRAME_HEADER <= |b| && LengthAt(b, offset) <= |b| - offset - FRAME_HEADER
  {
    var i := |got|;
    assert fs[..i] == got;
    assert fs[..k][..i + 1] == fs[..i + 1] && fs[..k][i] == fs[i];
    PayloadStep(fs[..k], i);
    assert fs[..k][..i] == got;
    hide Payload, FromBE32, Wire;
    NextLength(b, sequence, used, count, offset, got, rest, fs);
  }

  lemma NextLength(b: seq<byte>, sequence: u32, used: nat, count: nat, offset: nat, got: seq<Frame>,
                   rest: seq<byte>, fs: seq<Frame>)
    requires HeaderRead(b, sequence, used, count) && Reading(b, used, count, offset, got)
    requires Legal(b + rest, sequence, fs) && |got| < |fs|
    ensures offset == HEADER + |Payload(got)|
    ensures offset + FRAME_HEADER <= |b| ==> LengthAt(b, offset) == |fs[|got|].body|
  {
    SliceAgree(b + rest, b, HEADER, offset);
    hide Payload, FromBE32, FrameAt, HeaderRead;
    NextFrame(b + rest, sequence, fs, OPENED, got, offset);
    if offset + FRAME_HEADER <= |b| {
      SliceAgree(b + rest, b, offset + 12, offset + 16);
    }
  }

  /** The frames stand at the front of whatever cell the bytes are. */
  ghost predicate FrontOf(w: seq<byte>, got: seq<Frame>) {
    forall s, fs, n :: IsCell(w, s, fs, n) ==> got <= fs
  }

  /** What has been handed out stands at the front of every cell that starts with the bytes received, even of one that
      the decoder will refuse for its filler or for a later kind of frame. */
  lemma EmittedOfCell(b: seq<byte>, rest: seq<byte>, sequence: u32, used: nat, count: nat, offset: nat, got: seq<Frame>)
    requires Open(b, sequence, used, count, offset, got)
    ensures FrontOf(b + rest, got)
  {
    hide FromBE32, FromBE16, Payload, IsPrefix, Drained, Short;
    var w := b + rest;
    forall s, fs, n | IsCell(w, s, fs, n) ensures got <= fs {
      if used != 0 {
        var whole := w[..|w| - n];
        PrefixFields(whole, s, fs, HELLO, b);
        Progress(whole, s, fs, HELLO, b, got, offset);
      }
    }
  }

  /** A legal prefix is a cell without filler, and no other. */
  lemma LegalIsCell(b: seq<byte>, sequence: u32, fs: seq<Frame>)
    requires Legal(b, sequence, fs)
    ensures IsCell(b, sequence, fs, 0) && FrontOf(b, fs)
  {
    assert b[..|b| - 0] == b;
    forall s, gs, n | IsCell(b, s, gs, n) ensures fs <= gs {
      CellUnique(b, sequence, fs, 0, s, gs, n);
    }
  }

  /** For every partition of a byte string into pieces: the decoder accepts exactly the legal prefixes, and
      what it hands out over all the pieces is what the prefix carries. */
  method DecodePieces(sequence: u32, pieces: seq<seq<byte>>) returns (ok: bool, frames: seq<Frame>)
    requires pieces != []
    ensures ok ==> Legal(Concat(pieces), sequence, frames)
    ensures ok <==> exists fs :: Legal(Concat(pieces), sequence, fs)
    ensures FrontOf(Concat(pieces), frames)
  {
    hide FrontOf, Legal, Open;
    var d := new StreamDecoder(sequence);
    frames := [];
    var i := 0;
    while i < |pieces|
      invariant 0 <= i <= |pieces|
      invariant d.Valid() && fresh(d) && d.sequence == sequence
      invariant d.body == Concat(pieces[..i]) && frames == d.emitted
      invariant i < |pieces| ==> !d.ended
      invariant i == |pieces| ==> Legal(d.body, sequence, frames)
    {
      var last := i == |pieces| - 1;
      ConcatSnoc(pieces[..i], pieces[i]);
      assert pieces[..i] + [pieces[i]] == pieces[..i + 1];
      ghost var later := Concat(pieces[i..]);
      ConcatAppend(pieces[..i], pieces[i..]);
      assert pieces[..i] + pieces[i..] == pieces;
      EmittedOfCell(d.body, later, sequence, d.used, d.count, d.offset, d.emitted);
      var accepted, more := d.Push(pieces[i], last);
      if !accepted {
        ghost var rest := Concat(pieces[i + 1..]);
        ConcatAppend(pieces[..i + 1], pieces[i + 1..]);
        assert pieces[..i + 1] + pieces[i + 1..] == pieces;
        assert Concat(pieces[..i + 1]) + rest == Concat(pieces);
        assert last ==> rest == [];
        return false, frames;
      }
      frames := frames + more;
      i := i + 1;
    }
    assert pieces[..i] == pieces;
    LegalIsCell(Concat(pieces), sequence, frames);
    return true, frames;
  }

  /** Agreement with the batch decoder on every split: the pieces are accepted exactly when Decode accepts their
      concatenation as a cell without filler, with the expected sequence and only kinds OPEN..OPENED; and what was
      handed out before a refusal is a prefix of what Decode returns. */
  method AgreesWithBatch(sequence: u32, pieces: seq<seq<byte>>)
    returns (ok: bool, frames: seq<Frame>, batch: Result<Decoded>)
    requires pieces != []
    ensures ok <==> batch.Ok? && batch.value.sequence == sequence && batch.value.filler == 0
                    && KindsUpTo(batch.value.frames, OPENED)
    ensures ok ==> frames == batch.value.frames
    ensures !ok && batch.Ok? ==> frames <= batch.value.frames
    ensures batch.Ok? ==> IsCell(Concat(pieces), batch.value.sequence, batch.value.frames, batch.value.filler)
    ensures batch.Bad? ==> NoCell(Concat(pieces))
  {
    ok, frames := DecodePieces(sequence, pieces);
    batch := Decode(Concat(pieces));
    ghost var b := Concat(pieces);
    assert b[..|b| - 0] == b;
    if ok {
      assert IsCell(b, sequence, frames, 0);
      CellUnique(b, sequence, frames, 0, batch.value.sequence, batch.value.frames, batch.value.filler);
    } else if batch.Ok? && batch.value.filler == 0 && KindsUpTo(batch.value.frames, OPENED) {
      assert Legal(b, batch.value.sequence, batch.value.frames);
    }
  }
}
