/** The connection of internal/packet/conn.go: a bounded reliable byte stream whose fields change in place. The upload
    side is proved against the ordered log of PacketUpload, the output side against the replay log of PacketDownload.
    `digest` stands for SHA-256; a place where the code waits is the end of a method (`Wait`, `Blocked`). */
module PacketConn {
  import opened Bytes
  import opened PacketUpload
  import opened PacketDownload

  const INPUT_CHUNK := 16384

  datatype Saved = Saved(body: seq<byte>, hash: seq<byte>)

  datatype ReadResult = Data(bytes: seq<byte>) | Waiting | ReadFailed(fault: Fault)

  datatype WriteEnd = Done | Blocked | WriteFailed(fault: Fault)

  datatype FlightResult = Flew(blocks: seq<Block>) | NotYet | NoFlight(fault: Fault)

  // ---------------------------------------------------------------- the input queue

  /** Chunks are never empty, all but the last are exactly 16 KiB, and the read offset lies inside the first. */
  predicate Packed(input: seq<seq<byte>>, offset: nat) {
    && (forall i :: 0 <= i < |input| ==> 0 < |input[i]| <= INPUT_CHUNK)
    && (forall i :: 0 <= i < |input| - 1 ==> |input[i]| == INPUT_CHUNK)
    && (if input == [] then offset == 0 else offset < |input[0]|)
  }

  /** The bytes still to be read. */
  function Rest(input: seq<seq<byte>>, offset: nat): seq<byte>
    requires Packed(input, offset)
  {
    if input == [] then [] else input[0][offset..] + Concat(input[1..])
  }

  lemma RestSnoc(input: seq<seq<byte>>, offset: nat, part: seq<byte>)
    requires Packed(input, offset) && 0 < |part| <= INPUT_CHUNK
    requires input == [] || |input[|input| - 1]| == INPUT_CHUNK
    ensures Packed(input + [part], offset)
    ensures Rest(input + [part], offset) == Rest(input, offset) + part
  {
    if input == [] {
      assert [part][1..] == [] && [] + [part] == [part];
      assert part[0..] + [] == [] + part;
    } else {
      assert (input + [part])[1..] == input[1..] + [part];
      ConcatSnoc(input[1..], part);
      Assoc(input[0][offset..], Concat(input[1..]), part);
    }
  }

  lemma RestTopUp(input: seq<seq<byte>>, offset: nat, part: seq<byte>)
    requires Packed(input, offset) && input != []
    requires |input[|input| - 1]| + |part| <= INPUT_CHUNK
    ensures var more := input[|input| - 1 := input[|input| - 1] + part];
            Packed(more, offset) && Rest(more, offset) == Rest(input, offset) + part
  {
    var n := |input| - 1;
    var more := input[n := input[n] + part];
    if n == 0 {
      assert more[1..] == [] && input[1..] == [];
      assert (input[0] + part)[offset..] == input[0][offset..] + part;
    } else {
      var middle := input[1..n];
      assert input[1..] == middle + [input[n]];
      assert more[1..] == middle + [input[n] + part];
      ConcatSnoc(middle, input[n]);
      ConcatSnoc(middle, input[n] + part);
      Assoc(Concat(middle), input[n], part);
      Assoc(input[0][offset..], Concat(input[1..]), part);
    }
  }

  /** Reading n bytes of the first chunk. */
  lemma RestRead(input: seq<seq<byte>>, offset: nat, n: nat)
    requires Packed(input, offset) && input != [] && n <= |input[0]| - offset
    ensures var whole := offset + n == |input[0]|;
            var after := if whole then input[1..] else input;
            var at := if whole then 0 else offset + n;
            && Packed(after, at)
            && Rest(input, offset) == input[0][offset..offset + n] + Rest(after, at)
  {
    SplitSuffix(input[0], offset, offset + n);
    if offset + n == |input[0]| {
      assert input[0][offset + n..] == [];
      WholeRest(input[1..]);
    } else {
      hide Concat;
      Assoc(input[0][offset..offset + n], input[0][offset + n..], Concat(input[1..]));
    }
  }

  lemma WholeRest(input: seq<seq<byte>>)
    requires Packed(input, 0)
    ensures Rest(input, 0) == Concat(input)
  {
    assert input != [] ==> input[0][0..] == input[0];
  }

  lemma {:induction false} FullChunks(input: seq<seq<byte>>)
    requires Packed(input, 0)
    ensures |Concat(input)| >= (|input| - 1) * INPUT_CHUNK + (if input == [] then 0 else 1)
  {
    if |input| > 1 {
      FullChunks(input[1..]);
    } else if |input| == 1 {
      assert Concat(input[1..]) == [];
    }
  }

  /** At most 1 MiB unread means at most 65 chunks. */
  lemma FewChunks(input: seq<seq<byte>>, offset: nat)
    requires Packed(input, offset) && |Rest(input, offset)| <= UPLOAD_LIMIT
    ensures |input| <= 65
  {
    if |input| > 1 {
      FullChunks(input[1..]);
    }
  }

  // ---------------------------------------------------------------- tables of the upload side

  function Bodies(pending: map<u64, Saved>): map<u64, seq<byte>> {
    map k | k in pending :: pending[k].body
  }

  /** The receipts are the digests of exactly the last 32 applied blocks. */
  ghost predicate Receipted(receipts: map<u64, seq<byte>>, applied: seq<seq<byte>>, digest: seq<byte> -> seq<byte>) {
    forall k: u64 :: (k in receipts <==> |applied| - RECEIPT_COUNT <= k < |applied|)
              && (k in receipts ==> receipts[k] == digest(applied[k]))
  }

  ghost predicate Hashed(pending: map<u64, Saved>, digest: seq<byte> -> seq<byte>) {
    forall k :: k in pending ==> pending[k].hash == digest(pending[k].body)
  }

  lemma BodiesInsert(pending: map<u64, Saved>, k: u64, s: Saved, digest: seq<byte> -> seq<byte>)
    requires Hashed(pending, digest) && s.hash == digest(s.body)
    ensures Bodies(pending[k := s]) == Bodies(pending)[k := s.body]
    ensures Hashed(pending[k := s], digest)
  {
  }

  lemma BodiesRemove(pending: map<u64, Saved>, k: u64, digest: seq<byte> -> seq<byte>)
    requires Hashed(pending, digest) && k in pending
    ensures k in Bodies(pending) && Bodies(pending)[k] == pending[k].body && pending[k].hash == digest(pending[k].body)
    ensures Bodies(pending - {k}) == Bodies(pending) - {k}
    ensures Hashed(pending - {k}, digest) && |pending - {k}| < |pending|
  {
    assert pending == (pending - {k})[k := pending[k]];
    assert (pending - {k}).Keys == pending.Keys - {k};
  }

  /** Put's bookkeeping: the new receipt comes, the one that is 32 blocks old goes. */
  function Receipt(receipts: map<u64, seq<byte>>, at: u64, hash: seq<byte>): map<u64, seq<byte>>
    requires at < MAX_U64
  {
    var more := receipts[at := hash];
    if at + 1 > RECEIPT_COUNT then more - {at + 1 - RECEIPT_COUNT - 1} else more
  }

  lemma ReceiptStep(receipts: map<u64, seq<byte>>, applied: seq<seq<byte>>, body: seq<byte>,
                    digest: seq<byte> -> seq<byte>)
    requires Receipted(receipts, applied, digest) && |applied| < MAX_U64
    ensures Receipted(Receipt(receipts, |applied|, digest(body)), applied + [body], digest)
  {
  }

  /** Consumed bytes and queued bytes are the applied blocks; the counters and tables describe the log. */
  ghost predicate Tracks(l: Log, consumed: seq<byte>, input: seq<seq<byte>>, offset: nat, bytes: int, next: u64,
                         pending: map<u64, Saved>, receipts: map<u64, seq<byte>>, digest: seq<byte> -> seq<byte>) {
    && l.held == Bodies(pending) && l.consumed == |consumed|
    && next == |l.applied|
    && Packed(input, offset) && consumed + Rest(input, offset) == Concat(l.applied)
    && Hashed(pending, digest)
    && Receipted(receipts, l.applied, digest)
    && bytes == Retained(l)
  }

  lemma HeadFacts(l: Log, consumed: seq<byte>, input: seq<seq<byte>>, offset: nat, bytes: int, next: u64,
                  pending: map<u64, Saved>, receipts: map<u64, seq<byte>>, digest: seq<byte> -> seq<byte>)
    requires Tracks(l, consumed, input, offset, bytes, next, pending, receipts, digest) && Settling(l) && next in pending
    ensures Packed(input, offset) && next < MAX_U64
  {
    hide Packed, Rest, Concat, Hashed, Receipted, Retained, Unread, LegalBody;
    assert next in Bodies(pending);
  }

  /** All that a turn of Put's loop has to keep, said of the values it assigns. */
  lemma DrainStep(l: Log, consumed: seq<byte>, input: seq<seq<byte>>, offset: nat, bytes: int, next: u64,
                  pending: map<u64, Saved>, receipts: map<u64, seq<byte>>, digest: seq<byte> -> seq<byte>,
                  input': seq<seq<byte>>)
    requires Tracks(l, consumed, input, offset, bytes, next, pending, receipts, digest) && Settling(l) && next in pending
    requires Packed(input', offset) && Rest(input', offset) == Rest(input, offset) + pending[next].body
    ensures next < MAX_U64
    ensures var q := Log(l.applied + [pending[next].body], Bodies(pending - {next}), |consumed|);
            && Settling(q) && Settle(q) == Settle(l)
            && Tracks(q, consumed, input', offset, bytes, next + 1, pending - {next},
                      Receipt(receipts, next, pending[next].hash), digest)
    ensures |pending - {next}| < |pending|
  {
    hide Settle, Settling, Retained, Receipted, Receipt, Hashed, Concat, Packed, Rest, Bodies;
    HeadFacts(l, consumed, input, offset, bytes, next, pending, receipts, digest);
    var body := pending[next].body;
    BodiesRemove(pending, next, digest);
    ReceiptStep(receipts, l.applied, body, digest);
    ApplySettling(l);
    SettleTurn(l);
    ConcatSnoc(l.applied, body);
    Assoc(consumed, Rest(input, offset), body);
    assert Apply(l) == Log(l.applied + [body], Bodies(pending - {next}), |consumed|);
  }

  /** All that a read has to keep, said of the values it assigns. */
  lemma ReadStep(l: Log, consumed: seq<byte>, input: seq<seq<byte>>, offset: nat, bytes: int, next: u64,
                 pending: map<u64, Saved>, receipts: map<u64, seq<byte>>, digest: seq<byte> -> seq<byte>,
                 input': seq<seq<byte>>, offset': nat, part: seq<byte>)
    requires Tracks(l, consumed, input, offset, bytes, next, pending, receipts, digest) && LogOk(l)
    requires Packed(input', offset') && Rest(input, offset) == part + Rest(input', offset')
    ensures var q := Consume(l, |part|);
            LogOk(q) && Tracks(q, consumed + part, input', offset', bytes - |part|, next, pending, receipts, digest)
    ensures Unread(l) >= |part|
  {
    assert |consumed + Rest(input, offset)| == |Concat(l.applied)|;
    ConsumeKeeps(l, |part|);
    Assoc(consumed, part, Rest(input', offset'));
    hide LogOk, Bodies, Hashed, Receipted, Retained, Concat, Packed, Rest;
  }

  lemma NothingYet(digest: seq<byte> -> seq<byte>)
    ensures Bodies(map[]) == map[]
    ensures Tracks(Log([], map[], 0), [], [], 0, 0, 0, map[], map[], digest) && LogOk(Log([], map[], 0))
    ensures var r := Replay([], 0, 0, false); ReplayOk(r) && Kept(r) == 0
  {
    assert Bodies(map[]) == map[];
    HeldAbsent(map[], 0, UPLOAD_SLOTS);
    hide HeldBytes;
    assert LogOk(Log([], map[], 0));
    hide LogOk;
    assert Rest([], 0) == [];
    hide Rest, Bodies;
  }

  /** The blocks are those of the history from `floor` on, and these are their bytes. */
  ghost predicate Retains(output: seq<Block>, bytes: int, floor: nat, history: seq<seq<byte>>) {
    && floor <= |history| <= MAX_U64 && |output| == |history| - floor
    && (forall i :: 0 <= i < |output| ==> output[i] == Block(floor + i, history[floor + i]))
    && bytes == |Concat(history[floor..])|
  }

  lemma RetainsMore(output: seq<Block>, bytes: int, floor: nat, history: seq<seq<byte>>, body: seq<byte>)
    requires Retains(output, bytes, floor, history) && |history| < MAX_U64
    ensures Retains(output + [Block(|history|, body)], bytes + |body|, floor, history + [body])
  {
    hide Concat;
    assert (history + [body])[floor..] == history[floor..] + [body];
    ConcatSnoc(history[floor..], body);
  }

  lemma RetainsLess(output: seq<Block>, bytes: int, floor: nat, history: seq<seq<byte>>)
    requires Retains(output, bytes, floor, history)
    ensures output == [] <==> floor == |history|
    ensures output != [] ==>
              output[0].sequence == floor && Retains(output[1..], bytes - |output[0].body|, floor + 1, history)
  {
    hide Concat;
    if output != [] {
      TailBytes(history, floor);
    }
  }

  class Conn {
    const digest: seq<byte> -> seq<byte>
    var closed: bool
    var reason: Fault
    var readWaiting: bool

    var input: seq<seq<byte>>
    var inputOffset: nat
    var inputBytes: int
    var uploadNext: u64
    var pending: map<u64, Saved>
    var receipts: map<u64, seq<byte>>
    ghost var applied: seq<seq<byte>>
    ghost var consumed: seq<byte>

    var output: seq<Block>
    var outputBytes: int
    var outputNext: u64
    var outputFloor: u64
    var generation: u64
    var attached: bool
    var corked: bool
    var cork: seq<byte>
    ghost var history: seq<seq<byte>>

    ghost function UploadLog(): Log
      reads `applied, `pending, `consumed
    {
      Log(applied, Bodies(pending), |consumed|)
    }

    ghost predicate InputTracks()
      reads `input, `inputOffset, `inputBytes, `uploadNext, `pending, `receipts, `applied, `consumed
    {
      Tracks(UploadLog(), consumed, input, inputOffset, inputBytes, uploadNext, pending, receipts, digest)
    }

    ghost predicate UploadValid()
      reads `closed, `input, `inputOffset, `inputBytes, `uploadNext, `pending, `receipts, `applied, `consumed
    {
      !closed ==> InputTracks() && LogOk(UploadLog())
    }

    ghost function ReplayLog(): Replay
      reads `history, `outputFloor, `generation, `attached
    {
      Replay(history, outputFloor, generation, attached)
    }

    /** Block i of the output is number outputFloor + i of everything written. */
    ghost predicate OutputValid()
      reads `closed, `output, `outputBytes, `outputNext, `outputFloor, `generation, `attached, `history
    {
      !closed ==>
        && ReplayOk(ReplayLog())
        && outputNext == |history|
        && Retains(output, outputBytes, outputFloor, history)
    }

    ghost predicate Valid()
      reads this
    {
      UploadValid() && OutputValid()
    }

    constructor (digest: seq<byte> -> seq<byte>)
      ensures Valid() && !closed && UploadLog() == Log([], map[], 0) && ReplayLog() == Replay([], 0, 0, false)
    {
      this.digest := digest;
      closed, reason, readWaiting, corked, cork := false, Closed, false, false, [];
      input, inputOffset, inputBytes, uploadNext, pending, receipts := [], 0, 0, 0, map[], map[];
      applied, consumed := [], [];
      output, outputBytes, outputNext, outputFloor, generation, attached := [], 0, 0, 0, 0, false;
      history := [];
      new;
      NothingYet(digest);
      hide Tracks, LogOk, ReplayOk, Kept, Bodies;
    }

    /** What the invariant means for memory: the counter is the true total of unread and waiting bytes, at most 1 MiB,
        in at most 65 chunks and fifteen waiting blocks beyond the head. */
    lemma UploadBounds()
      requires UploadValid() && !closed
      ensures inputBytes == |Rest(input, inputOffset)| + HeldBytes(Bodies(pending), uploadNext, UPLOAD_SLOTS) <= UPLOAD_LIMIT
      ensures |input| <= 65
      ensures forall k :: k in pending ==> uploadNext < k < uploadNext + UPLOAD_SLOTS
      ensures forall k: u64 :: k in receipts <==> uploadNext - RECEIPT_COUNT <= k < uploadNext
      ensures forall k :: k in receipts ==> receipts[k] == digest(applied[k])
    {
      assert |consumed + Rest(input, inputOffset)| == |Concat(applied)|;
      hide Rest, HeldBytes, Concat;
      assert forall k :: k in pending <==> k in Bodies(pending);
      FewChunks(input, inputOffset);
    }

    // -------------------------------------------------------------- Put and Read

    /** The bytes of a block join the input chunks. */
    method AppendInput(body: seq<byte>)
      requires Packed(input, inputOffset)
      modifies `input
      ensures Packed(input, inputOffset) && Rest(input, inputOffset) == old(Rest(input, inputOffset)) + body
    {
      var left := body;
      ghost var done: seq<byte> := [];
      assert Rest(input, inputOffset) == Rest(input, inputOffset) + [];
      while |left| > 0
        invariant done + left == body
        invariant Packed(input, inputOffset)
        invariant Rest(input, inputOffset) == old(Rest(input, inputOffset)) + done
      {
        ghost var was := input;
        var count;
        if |input| == 0 || |input[|input| - 1]| == INPUT_CHUNK {
          count := Min(|left|, INPUT_CHUNK);
          RestSnoc(input, inputOffset, left[..count]);
          input := input + [left[..count]];
        } else {
          count := Min(|left|, INPUT_CHUNK - |input[|input| - 1]|);
          RestTopUp(input, inputOffset, left[..count]);
          input := input[|input| - 1 := input[|input| - 1] + left[..count]];
        }
        Assoc(old(Rest(input, inputOffset)), done, left[..count]);
        Assoc(done, left[..count], left[count..]);
        assert left == left[..count] + left[count..];
        done := done + left[..count];
        left := left[count..];
      }
      assert done == body;
    }

    /** The loop of Put: blocks whose turn has come move from the window to the input. */
    method Drain()
      requires InputTracks() && Settling(UploadLog())
      modifies `input, `uploadNext, `pending, `receipts, `applied
      ensures InputTracks() && UploadLog() == Settle(old(UploadLog()))
    {
      ghost var start := UploadLog();
      while uploadNext in pending
        invariant InputTracks() && Settling(UploadLog())
        invariant Settle(UploadLog()) == Settle(start)
        decreases |pending|
      {
        DrainOne();
      }
      SettleTurn(UploadLog());
    }

    method DrainOne()
      requires InputTracks() && Settling(UploadLog()) && uploadNext in pending
      modifies `input, `uploadNext, `pending, `receipts, `applied
      ensures InputTracks() && Settling(UploadLog()) && |pending| < |old(pending)|
      ensures Settle(UploadLog()) == Settle(old(UploadLog()))
    {
      hide Settle, Settling, Packed, Rest, Tracks, Receipt, Bodies, LegalBody;
      ghost var l := UploadLog();
      HeadFacts(l, consumed, input, inputOffset, inputBytes, uploadNext, pending, receipts, digest);
      var current := pending[uploadNext];
      var issued := Receipt(receipts, uploadNext, current.hash);
      AppendInput(current.body);
      DrainStep(l, consumed, old(input), inputOffset, inputBytes, uploadNext, pending, receipts, digest, input);
      receipts, pending, uploadNext, applied
        := issued, pending - {uploadNext}, uploadNext + 1, applied + [current.body];
    }

    method Put(sequence: u64, body: seq<byte>) returns (next: u64, fault: Option<Fault>)
      requires UploadValid()
      modifies `input, `inputBytes, `uploadNext, `pending, `receipts, `applied
      ensures UploadValid()
      ensures closed ==> UploadLog() == old(UploadLog()) && fault == Some(if LegalBody(body) then reason else OutOfWindow)
      ensures !closed ==> (UploadLog(), fault) == Answer(old(UploadLog()), sequence, body, digest)
      ensures next == if LegalBody(body) then uploadNext else 0
    {
      ghost var l := UploadLog();
      if |body| == 0 || |body| > MAX_BLOCK {
        return 0, Some(OutOfWindow);
      }
      var hash := digest(body);
      if closed {
        return uploadNext, Some(reason);
      }
      hide Settle, Retained;
      if sequence < uploadNext {
        if sequence !in receipts {
          return uploadNext, Some(Gone);
        }
        return uploadNext, if receipts[sequence] != hash then Some(Conflict) else None;
      }
      if sequence == MAX_U64 || sequence - uploadNext >= UPLOAD_SLOTS {
        return uploadNext, Some(OutOfWindow);
      }
      if sequence in pending {
        return uploadNext, if pending[sequence].hash != hash then Some(Conflict) else None;
      }
      if |body| > UPLOAD_LIMIT - inputBytes {
        return uploadNext, Some(Full);
      }
      Store(sequence, body, hash);
      return uploadNext, None;
    }

    /** The accepting branch of Put. */
    method Store(sequence: u64, body: seq<byte>, hash: seq<byte>)
      requires InputTracks() && LogOk(UploadLog()) && LegalBody(body) && hash == digest(body)
      requires uploadNext <= sequence < uploadNext + UPLOAD_SLOTS && sequence < MAX_U64 && sequence !in pending
      requires |body| <= UPLOAD_LIMIT - inputBytes
      modifies `input, `inputBytes, `uploadNext, `pending, `receipts, `applied
      ensures InputTracks() && LogOk(UploadLog())
      ensures UploadLog() == Settle(old(UploadLog()).(held := old(UploadLog()).held[sequence := body]))
    {
      ghost var l := UploadLog();
      InsertSettling(l, sequence, body);
      SettleOk(l.(held := l.held[sequence := body]));
      BodiesInsert(pending, sequence, Saved(body, hash), digest);
      hide Settle, Settling, LogOk, Retained, Rest, Packed, Receipted, Hashed, Bodies, Concat;
      pending := pending[sequence := Saved(body, hash)];
      inputBytes := inputBytes + |body|;
      Drain();
    }

    /** One pass of the loop in Read, for a buffer of the given size; `late` tells that the deadline has passed. */
    method Read(size: nat, late: bool) returns (r: ReadResult)
      requires UploadValid()
      modifies `input, `inputOffset, `inputBytes, `consumed, `readWaiting
      ensures UploadValid() && UploadLog().applied == old(UploadLog()).applied && UploadLog().held == old(UploadLog()).held
      ensures r.Data? ==> consumed == old(consumed) + r.bytes && (size > 0 ==> 0 < |r.bytes| <= size && !closed)
      ensures !r.Data? ==> consumed == old(consumed)
      ensures size > 0 && !closed && !late ==> (r.Waiting? <==> Unread(old(UploadLog())) == 0)
      ensures r.ReadFailed? <==> size > 0 && (closed || late)
      ensures r.ReadFailed? ==> r.fault == if closed then reason else Late
      ensures size > 0 ==> readWaiting == r.Waiting?
    {
      if size == 0 {
        assert consumed + [] == consumed;
        return Data([]);
      }
      readWaiting := false;
      if closed {
        return ReadFailed(reason);
      }
      if late {
        return ReadFailed(Late);
      }
      assert |consumed + Rest(input, inputOffset)| == |Concat(applied)|;
      if |input| > 0 {
        var bytes := ReadFirst(size);
        return Data(bytes);
      }
      readWaiting := true;
      return Waiting;
    }

    method ReadFirst(size: nat) returns (bytes: seq<byte>)
      requires InputTracks() && LogOk(UploadLog()) && size > 0 && input != []
      modifies `input, `inputOffset, `inputBytes, `consumed
      ensures InputTracks() && LogOk(UploadLog())
      ensures 0 < |bytes| <= size && consumed == old(consumed) + bytes
      ensures UploadLog() == Consume(old(UploadLog()), |bytes|)
      ensures Unread(old(UploadLog())) > 0
    {
      var n := Min(size, |input[0]| - inputOffset);
      assert 0 < n <= size;
      ghost var l := UploadLog();
      hide Tracks, LogOk, Rest, Packed, Bodies;
      bytes := TakeInput(n);
      ReadStep(l, consumed, old(input), old(inputOffset), inputBytes, uploadNext, pending, receipts, digest,
               input, inputOffset, bytes);
      inputBytes, consumed := inputBytes - n, consumed + bytes;
    }

    /** The first chunk gives up n bytes and goes when it is empty. */
    method TakeInput(n: nat) returns (bytes: seq<byte>)
      requires Packed(input, inputOffset) && input != [] && n <= |input[0]| - inputOffset
      modifies `input, `inputOffset
      ensures Packed(input, inputOffset) && |bytes| == n
      ensures old(Rest(input, inputOffset)) == bytes + Rest(input, inputOffset)
    {
      RestRead(input, inputOffset, n);
      hide Rest;
      bytes := input[0][inputOffset..inputOffset + n];
      inputOffset := inputOffset + n;
      if inputOffset == |input[0]| {
        input := input[1..];
        inputOffset := 0;
      }
    }

    /** The first call counts: its error, or the usual one, is what every later call reports. */
    method CloseWithError(error: Option<Fault>)
      requires Valid()
      modifies this
      ensures Valid() && closed && ReplayLog() == old(ReplayLog())
      ensures uploadNext == old(uploadNext) && consumed == old(consumed) && applied == old(applied)
      ensures reason == if old(closed) then old(reason) else if error.Some? then error.value else Closed
      ensures !old(closed) ==>
                && input == [] && output == [] && inputBytes == 0 && outputBytes == 0
                && pending == map[] && receipts == map[]
    {
      hide Tracks, LogOk, ReplayOk, Kept, Bodies;
      if !closed {
        closed, reason := true, if error.Some? then error.value else Closed;
        Discard();
      }
    }

    /** A closed connection keeps nothing. */
    method Discard()
      requires closed
      modifies `input, `pending, `receipts, `output, `inputBytes, `outputBytes
      ensures input == [] && output == [] && inputBytes == 0 && outputBytes == 0 && pending == map[] && receipts == map[]
    {
      input, pending, receipts, output := [], map[], map[], [];
      inputBytes, outputBytes := 0, 0;
    }

    // -------------------------------------------------------------- Write, Cork and Uncork

    /** Why a writer with so many bytes left stops: it has none, the next block finds no room, or it may not go on. */
    predicate Ended(left: nat, blockSize: nat, late: bool, end: WriteEnd)
      reads `closed, `reason, `output, `outputBytes, `outputNext
    {
      match end
      case Done => left == 0
      case Blocked =>
        && left > 0 && !closed && !late
        && (Min(left, blockSize) > REPLAY_LIMIT - outputBytes || |output| >= REPLAY_SLOTS)
      case WriteFailed(fault) =>
        && left > 0 && (closed || late || outputNext == MAX_U64)
        && fault == (if closed then reason else if late then Late else OutOfWindow)
    }

    /** writeLocked until it is done, fails, or has to wait for room. After a wait it is called again with the rest. */
    method WriteLocked(p: seq<byte>, blockSize: nat, late: bool) returns (written: nat, end: WriteEnd)
      requires OutputValid() && 0 < blockSize <= MAX_BLOCK
      modifies `output, `outputBytes, `outputNext, `history
      ensures OutputValid() && written <= |p|
      ensures ReplayLog() == old(ReplayLog()).(history := old(history) + Pieces(p[..written], blockSize))
      ensures written == |p| || exists n: nat :: written == n * blockSize
      ensures Ended(|p| - written, blockSize, late, end)
      ensures closed || late ==> written == 0
    {
      hide Pieces, ReplayOk;
      written := 0;
      ghost var blocks := 0;
      PiecesNothing(blockSize);
      assert p[..0] == [] && old(history) + [] == old(history);
      while written < |p|
        invariant written <= |p| && OutputValid()
        invariant written == |p| || written == blocks * blockSize
        invariant ReplayLog() == old(ReplayLog()).(history := old(history) + Pieces(p[..written], blockSize))
        invariant closed || late ==> written == 0
        decreases |p| - written
      {
        if closed {
          return written, WriteFailed(reason);
        }
        if late {
          return written, WriteFailed(Late);
        }
        var n := Min(|p| - written, blockSize);
        if n > REPLAY_LIMIT - outputBytes || |output| >= REPLAY_SLOTS {
          return written, Blocked;
        }
        if outputNext == MAX_U64 {
          return written, WriteFailed(OutOfWindow);
        }
        NextPiece(p, blockSize, written, blocks, n);
        Assoc(old(history), Pieces(p[..written], blockSize), [p[written..written + n]]);
        AppendOutput(p[written..written + n]);
        written := written + n;
        blocks := blocks + 1;
      }
      return written, Done;
    }

    /** The loop body of writeLocked: one more block. */
    method AppendOutput(body: seq<byte>)
      requires !closed && OutputValid() && LegalBody(body) && !NoRoom(ReplayLog(), |body|) && outputNext < MAX_U64
      modifies `output, `outputBytes, `outputNext, `history
      ensures OutputValid() && ReplayLog() == Append(old(ReplayLog()), body)
    {
      hide ReplayOk, Kept, Retains;
      AppendKeeps(ReplayLog(), body);
      RetainsMore(output, outputBytes, outputFloor, history, body);
      output := output + [Block(outputNext, body)];
      outputNext := outputNext + 1;
      outputBytes := outputBytes + |body|;
      history := history + [body];
    }

    method Write(p: seq<byte>, late: bool) returns (written: nat, end: WriteEnd)
      requires OutputValid()
      modifies `output, `outputBytes, `outputNext, `history, `cork
      ensures OutputValid() && written <= |p|
      ensures corked ==> ReplayLog() == old(ReplayLog())
      ensures corked && !closed ==> end == Done && written == |p| && cork == old(cork) + p
      ensures corked && closed && p != [] ==> written == 0 && end == WriteFailed(reason) && cork == old(cork)
      ensures !corked ==>
                && cork == old(cork)
                && ReplayLog() == old(ReplayLog()).(history := old(history) + Pieces(p[..written], MAX_BLOCK))
                && Ended(|p| - written, MAX_BLOCK, late, end)
      ensures Concat(history) + (if corked then cork else [])
              == old(Concat(history)) + (if corked then old(cork) else []) + p[..written]
    {
      hide Pieces, Retains, ReplayOk, Concat;
      if |p| == 0 {
        PiecesNothing(MAX_BLOCK);
        assert cork == cork + p && Pieces(p[..0], MAX_BLOCK) == [] && history + [] == history;
        assert Concat(history) + cork + p[..0] == Concat(history) + cork;
        assert Concat(history) + [] + p[..0] == Concat(history) + [];
        return 0, Done;
      }
      if corked {
        if closed {
          assert Concat(history) + cork + p[..0] == Concat(history) + cork;
          return 0, WriteFailed(reason);
        }
        Assoc(Concat(history), cork, p);
        assert p[..|p|] == p;
        cork := cork + p;
        return |p|, Done;
      }
      written, end := WriteLocked(p, MAX_BLOCK, late);
      PiecesJoin(p[..written], MAX_BLOCK);
      ConcatAppend(old(history), Pieces(p[..written], MAX_BLOCK));
    }

    method Cork()
      modifies `corked
      ensures corked
    {
      corked := true;
    }

    /** The corked bytes leave in even blocks; `size` and `rest` are what is left to do after a wait. */
    method Uncork(late: bool) returns (end: WriteEnd, size: nat, rest: seq<byte>)
      requires OutputValid()
      modifies `output, `outputBytes, `outputNext, `history, `cork, `corked
      ensures OutputValid() && !corked && cork == []
      ensures old(cork) == [] ==> end == Done && rest == [] && ReplayLog() == old(ReplayLog())
      ensures old(cork) != [] ==>
                && 0 < size <= MAX_BLOCK && size == EvenSize(|old(cork)|)
                && old(history) <= history
                && ReplayLog() == old(ReplayLog()).(history := history)
                && history + Pieces(rest, size) == old(history) + Pieces(old(cork), size)
                && Ended(|rest|, size, late, end)
    {
      var data := cork;
      cork, corked := [], false;
      if |data| == 0 {
        return Done, 0, [];
      }
      EvenSizeFits(|data|);
      size := EvenSize(|data|);
      hide EvenSize, BlockCount;
      var written;
      written, end := WriteLocked(data, size, late);
      rest := data[written..];
      if written == |data| {
        PiecesResume(data, size, written, 0);
      } else {
        ghost var n: nat :| written == n * size;
        PiecesResume(data, size, written, n);
      }
      Assoc(old(history), Pieces(data[..written], size), Pieces(rest, size));
    }

    // -------------------------------------------------------------- Ack, Attach, Next, Flight, Ready

    /** The loop of ackLocked: blocks below `next` go. */
    method DropBelow(next: u64)
      requires !closed && OutputValid() && outputFloor <= next <= outputNext
      modifies `output, `outputBytes, `outputFloor
      ensures OutputValid() && ReplayLog() == old(ReplayLog()).(floor := next)
    {
      hide Concat, Retains, Kept;
      ReleaseKeeps(ReplayLog(), next);
      ghost var at: nat := outputFloor;
      RetainsLess(output, outputBytes, at, history);
      while |output| > 0 && output[0].sequence < next
        invariant at <= next && Retains(output, outputBytes, at, history)
        invariant output == [] <==> at == |history|
        invariant output != [] ==> output[0].sequence == at
        decreases |output|
      {
        RetainsLess(output, outputBytes, at, history);
        outputBytes := outputBytes - |output[0].body|;
        output := output[1..];
        at := at + 1;
        RetainsLess(output, outputBytes, at, history);
      }
      assert at == next;
      outputFloor := next;
    }

    method AckLocked(next: u64) returns (fault: Option<Fault>)
      requires OutputValid()
      modifies `output, `outputBytes, `outputFloor
      ensures OutputValid()
      ensures closed ==> fault == Some(reason) && ReplayLog() == old(ReplayLog())
      ensures !closed ==> (ReplayLog(), fault) == Release(old(ReplayLog()), next)
    {
      if closed {
        return Some(reason);
      }
      if next > outputNext {
        return Some(OutOfWindow);
      }
      if next < outputFloor {
        return Some(Gone);
      }
      DropBelow(next);
      return None;
    }

    method Ack(next: u64) returns (fault: Option<Fault>)
      requires OutputValid()
      modifies `output, `outputBytes, `outputFloor
      ensures OutputValid()
      ensures closed ==> ReplayLog() == old(ReplayLog()) && fault == (if next < outputFloor then None else Some(reason))
      ensures !closed ==> (ReplayLog(), fault) == Acknowledge(old(ReplayLog()), next)
      ensures fault.None? ==> outputFloor == if next < old(outputFloor) then old(outputFloor) else next
      ensures fault.Some? ==> outputFloor == old(outputFloor)
      ensures fault == Some(OutOfWindow) && !closed <==> !closed && next > outputNext
    {
      if next < outputFloor {
        return None;
      }
      fault := AckLocked(next);
    }

    method Attach(newer: u64, next: u64) returns (fault: Option<Fault>)
      requires OutputValid()
      modifies `output, `outputBytes, `outputFloor, `generation, `attached
      ensures OutputValid()
      ensures fault.Some? ==> ReplayLog() == old(ReplayLog())
      ensures !closed ==> (ReplayLog(), fault) == AttachTo(old(ReplayLog()), newer, next)
      ensures fault == if newer == 0 || (old(attached) && newer <= old(generation)) then Some(Stale)
                       else if closed then Some(reason)
                       else if next > outputNext then Some(OutOfWindow)
                       else if next < old(outputFloor) then Some(Gone) else None
      ensures fault.None? ==> attached && generation == newer && outputFloor == next
    {
      if newer == 0 || (attached && newer <= generation) {
        return Some(Stale);
      }
      fault := AckLocked(next);
      if fault.Some? {
        return;
      }
      generation := newer;
      attached := true;
    }

    /** Next, up to the point where it would wait. */
    method Next(wanted: u64, next: u64) returns (r: Fetched)
      requires OutputValid()
      ensures r == if closed then Fetched.Failed(reason) else Fetch(ReplayLog(), wanted, next)
      ensures r.Got? <==> !closed && attached && wanted == generation && outputFloor <= next < outputNext
      ensures r.Got? ==> r.block == Block(next, history[next])
      ensures r.Wait? <==> !closed && attached && wanted == generation && next == outputNext
      ensures r.Failed? ==>
                r.fault == if closed then reason
                           else if !attached || wanted != generation then Stale
                           else if next < outputFloor then Gone else OutOfWindow
    {
      if closed {
        return Fetched.Failed(reason);
      }
      if !attached || wanted != generation {
        return Fetched.Failed(Stale);
      }
      if next < outputFloor {
        return Fetched.Failed(Gone);
      }
      if next > outputNext {
        return Fetched.Failed(OutOfWindow);
      }
      if next < outputNext {
        return Got(output[next - outputFloor]);
      }
      return Wait;
    }

    /** Flight, up to the point where it would wait: everything from `next` on, once the reader waits for input. */
    method Flight(next: u64) returns (r: FlightResult)
      requires OutputValid()
      ensures r.Flew? <==> !closed && readWaiting && outputFloor <= next < outputNext
      ensures r.Flew? ==>
                && |r.blocks| == |history| - next > 0
                && forall i :: 0 <= i < |r.blocks| ==> r.blocks[i] == Block(next + i, history[next + i])
      ensures r.NoFlight? <==> closed || next < outputFloor || next > outputNext
      ensures r.NoFlight? ==> r.fault == if closed then reason else if next < outputFloor then Gone else OutOfWindow
    {
      if closed {
        return NoFlight(reason);
      }
      if next < outputFloor {
        return NoFlight(Gone);
      }
      if next > outputNext {
        return NoFlight(OutOfWindow);
      }
      if !readWaiting || next == outputNext {
        return NotYet;
      }
      return Flew(output[next - outputFloor..]);
    }

    method Ready(wanted: u64, next: u64) returns (ready: bool)
      requires OutputValid()
      ensures ready <==> !closed && attached && wanted == generation && outputFloor <= next < outputNext
      ensures ready <==> !closed && Fetch(ReplayLog(), wanted, next).Got?
    {
      return !closed && attached && wanted == generation && next >= outputFloor && next < outputNext;
    }
  }

  lemma PiecesNothing(size: nat)
    requires size > 0
    ensures Pieces([], size) == []
  {
  }

  lemma TailBytes(history: seq<seq<byte>>, at: nat)
    requires at < |history|
    ensures |Concat(history[at..])| == |history[at]| + |Concat(history[at + 1..])|
  {
    assert history[at..][1..] == history[at + 1..];
  }

  /** The block that writeLocked cuts next. */
  lemma NextPiece(p: seq<byte>, size: nat, written: nat, blocks: nat, n: nat)
    requires size > 0 && written < |p| && written == blocks * size && n == Min(|p| - written, size)
    ensures Pieces(p[..written + n], size) == Pieces(p[..written], size) + [p[written..written + n]]
    ensures written + n == |p| || written + n == (blocks + 1) * size
  {
    var q := p[..written + n];
    assert (blocks + 1) * size == blocks * size + size;
    PiecesResume(q, size, written, blocks);
    assert q[..written] == p[..written] && q[written..] == p[written..written + n];
    PiecesWhole(q[written..], size);
  }
}
