/** One multiplexed stream (the `stream` record of internal/mux/peer.go): what its reader, its writer, the
    scheduler and the receiver do to it, and the invariant each of them keeps.

    The record is kept in two halves. Four byte histories stand beside the fields of the source: `read` (taken from
    the local socket), `sent` (handed to the carrier), `arrived` (accepted from the carrier) and `written` (handed to
    the local socket). `writing` is the writer's local chunk, `eof` tells that the reader has met the end of its
    socket, `attached` that the socket exists. */
module MuxStream {
  import opened Bytes
  import opened Cell

  const STREAM_CHUNK := 16384
  const OUTPUT_SLOTS := 16

  datatype Chunk = Chunk(frame: Frame, done: nat)

  /** What the reader and the scheduler share: local socket to carrier. */
  datatype Outgoing = Outgoing(
    output: seq<Frame>, pending: Option<Frame>, credit: u32, nextOut: u32, localFinSent: bool, queuedBytes: int,
    eof: bool, read: seq<byte>, sent: seq<byte>)

  /** What the receiver and the writer share: carrier to local socket. */
  datatype Incoming = Incoming(
    input: seq<Frame>, budget: u32, grant: u32, nextIn: u32, remoteFin: bool, remoteFinWritten: bool,
    writing: Option<Chunk>, arrived: seq<byte>, written: seq<byte>)

  datatype Stream = Stream(tx: Outgoing, rx: Incoming, open: Option<Frame>, ack: bool, reset: bool, attached: bool)

  function Fresh(send: u32, window: u32): Stream {
    Stream(Outgoing([], None, send, 0, false, 0, false, [], []),
           Incoming([], window, 0, 0, false, false, None, [], []), None, false, false, false)
  }

  // ---------------------------------------------------------------- reader and writer

  predicate CanRead(t: Outgoing) {
    !t.eof && |t.output| < OUTPUT_SLOTS
  }

  function ReadData(t: Outgoing, id: u32, data: seq<byte>): Outgoing {
    t.(output := t.output + [Frame(DATA, id, t.nextOut, data)],
       nextOut := Wrap32(t.nextOut + |data|),
       queuedBytes := t.queuedBytes + |data|,
       read := t.read + data)
  }

  function ReadEof(t: Outgoing, id: u32): Outgoing {
    t.(output := t.output + [Frame(FIN, id, t.nextOut, [])], eof := true)
  }

  predicate CanPop(r: Incoming) {
    r.writing.None? && !r.remoteFinWritten && r.input != []
  }

  function PopInput(r: Incoming): Incoming
    requires r.input != []
  {
    r.(writing := Some(Chunk(r.input[0], 0)), input := r.input[1..])
  }

  predicate CanWrite(r: Incoming, n: nat) {
    r.writing.Some? && 0 < n <= |r.writing.value.frame.body| - r.writing.value.done
  }

  function WriteSome(r: Incoming, n: nat): Incoming
    requires CanWrite(r, n)
  {
    var c := r.writing.value;
    r.(writing := Some(Chunk(c.frame, c.done + n)), written := r.written + c.frame.body[c.done..c.done + n])
  }

  predicate CanFinishChunk(r: Incoming) {
    r.writing.Some? && r.writing.value.frame.kind != FIN && r.writing.value.done == |r.writing.value.frame.body|
  }

  function FinishChunk(r: Incoming): Incoming
    requires r.writing.Some?
  {
    var n := |r.writing.value.frame.body|;
    r.(budget := Wrap32(r.budget + n), grant := Wrap32(r.grant + n), writing := None)
  }

  predicate CanFinishFin(r: Incoming) {
    r.writing.Some? && r.writing.value.frame.kind == FIN
  }

  function FinishFin(r: Incoming): Incoming {
    r.(remoteFinWritten := true, writing := None)
  }

  /** Both directions are over and the peer has been told about every delivered byte. */
  predicate Finished(s: Stream) {
    s.tx.localFinSent && s.rx.remoteFinWritten && s.rx.grant == 0
  }

  // ---------------------------------------------------------------- receiving

  /** enqueueData: a DATA body is appended to the queue in chunks of at most 16 KiB, topping up the tail. */
  function Coalesce(input: seq<Frame>, id: u32, sequence: u32, body: seq<byte>): seq<Frame>
    decreases |body|
  {
    if body == [] then input
    else if input == [] || |input[|input| - 1].body| >= STREAM_CHUNK then
      var n := Min(STREAM_CHUNK, |body|);
      Coalesce(input + [Frame(DATA, id, sequence, body[..n])], id, Wrap32(sequence + n), body[n..])
    else
      var last := input[|input| - 1];
      var n := Min(STREAM_CHUNK - |last.body|, |body|);
      Coalesce(input[..|input| - 1] + [last.(body := last.body + body[..n])], id, Wrap32(sequence + n), body[n..])
  }

  function AcceptData(r: Incoming, f: Frame): Option<Incoming> {
    if r.remoteFin || f.sequence != r.nextIn || f.body == [] || |f.body| > r.budget then None
    else Some(r.(input := Coalesce(r.input, f.stream, f.sequence, f.body),
                 nextIn := Wrap32(r.nextIn + |f.body|),
                 budget := Wrap32(r.budget - |f.body|),
                 arrived := r.arrived + f.body))
  }

  function AcceptFin(r: Incoming, f: Frame): Option<Incoming> {
    if r.remoteFin || f.body != [] || f.sequence != r.nextIn then None
    else Some(r.(input := r.input + [f], remoteFin := true))
  }

  function AcceptCredit(t: Outgoing, f: Frame, send: u32): Option<Outgoing> {
    if |f.body| != 4 || f.sequence != 0 then None
    else
      var grant := FromBE32(f.body);
      if grant == 0 || grant > Wrap32(send - t.credit) then None
      else Some(t.(credit := Wrap32(t.credit + grant)))
  }

  datatype Accepted = Kept(s: Stream) | Closed | Refused

  /** The switch of Receive for a stream that exists. */
  function Accept(s: Stream, f: Frame, dial: bool, send: u32): Accepted {
    if f.kind == DATA then
      match AcceptData(s.rx, f) case None => Refused case Some(r) => Kept(s.(rx := r))
    else if f.kind == FIN then
      match AcceptFin(s.rx, f) case None => Refused case Some(r) => Kept(s.(rx := r))
    else if f.kind == RESET then
      if f.body != [] || f.sequence != 0 then Refused else Closed
    else if f.kind == CREDIT then
      match AcceptCredit(s.tx, f, send) case None => Refused case Some(t) => Kept(s.(tx := t))
    else if f.kind == OPENED then
      if dial || f.sequence != 0 || f.body != [] then Refused else Kept(s)
    else Refused
  }

  // ---------------------------------------------------------------- sending

  /** The scheduler looks at the reader's channel only when no frame is pending. */
  function Refill(t: Outgoing): Outgoing {
    if t.pending.None? && t.output != [] then t.(pending := Some(t.output[0]), output := t.output[1..]) else t
  }

  datatype Offer = Nothing | Offered(tx: Outgoing, frame: Frame)

  function OfferPending(t: Outgoing, budget: nat, controlsOnly: bool): Offer
    requires budget >= FRAME_HEADER
  {
    match t.pending
    case None => Nothing
    case Some(f) =>
      if f.kind == DATA then
        var n := Min(Min(|f.body|, budget - FRAME_HEADER), t.credit);
        if controlsOnly || n == 0 then Nothing
        else
          var rest := if n == |f.body| then None
                      else Some(f.(body := f.body[n..], sequence := Wrap32(f.sequence + n)));
          Offered(t.(pending := rest, credit := Wrap32(t.credit - n), queuedBytes := t.queuedBytes - n,
                     sent := t.sent + f.body[..n]),
                  f.(body := f.body[..n]))
      else Offered(t.(pending := None, localFinSent := true), f)
  }

  /** What one visit of the scheduler does to a stream; `remove` tells that the stream leaves the scheduler. */
  datatype Visit = Retire | Miss(s: Stream) | Send(s: Stream, frame: Frame, remove: bool)

  function VisitStream(s: Stream, id: u32, budget: nat, controlsOnly: bool): Visit
    requires budget >= FRAME_HEADER
  {
    if Finished(s) then Retire
    else if s.reset then Send(s, Frame(RESET, id, 0, []), true)
    else if s.open.Some? then
      if s.open.value.Size() <= budget then Send(s.(open := None), s.open.value, false) else Miss(s)
    else if s.ack then Send(s.(ack := false), Frame(OPENED, id, 0, []), false)
    else if s.rx.grant > 0 && budget >= FRAME_HEADER + 4 then
      var s' := s.(rx := s.rx.(grant := 0));
      Send(s', Frame(CREDIT, id, 0, Uint32(s.rx.grant)), Finished(s'))
    else
      var t := Refill(s.tx);
      match OfferPending(t, budget, controlsOnly)
      case Nothing => Miss(s.(tx := t))
      case Offered(t', f) => Send(s.(tx := t'), f, Finished(s.(tx := t')))
  }

  // ---------------------------------------------------------------- what a receiver makes of frames

  /** How far a byte stream has come: its bytes and whether it has ended. */
  datatype Progress = Progress(data: seq<byte>, fin: bool)

  /** One frame, read by a receiver that follows the protocol: offsets are exact modulo 2^32, nothing follows FIN,
      control frames have their fixed format. */
  function ScanOne(c: Progress, f: Frame): Option<Progress> {
    if f.kind == DATA then
      if !c.fin && f.body != [] && f.sequence == Wrap32(|c.data|) then Some(Progress(c.data + f.body, false)) else None
    else if f.kind == FIN then
      if !c.fin && f.body == [] && f.sequence == Wrap32(|c.data|) then Some(Progress(c.data, true)) else None
    else if f.kind == RESET || f.kind == OPENED then
      if f.body == [] && f.sequence == 0 then Some(c) else None
    else if f.kind == CREDIT then
      if |f.body| == 4 && f.sequence == 0 && FromBE32(f.body) > 0 then Some(c) else None
    else if f.kind == OPEN then
      if f.sequence == 0 && |f.body| <= MAX_AUTHORITY then Some(c) else None
    else None
  }

  function Scan(c: Progress, fs: seq<Frame>): Option<Progress>
    decreases |fs|
  {
    if fs == [] then Some(c)
    else
      var d := ScanOne(c, fs[0]);
      if d.None? then None else Scan(d.value, fs[1..])
  }

  lemma {:induction false} ScanAppend(c: Progress, a: seq<Frame>, b: seq<Frame>)
    ensures Scan(c, a + b) == (if Scan(c, a).None? then None else Scan(Scan(c, a).value, b))
    decreases |a|
  {
    if a == [] {
      assert a + b == b;
    } else {
      assert (a + b)[1..] == a[1..] + b;
      var d := ScanOne(c, a[0]);
      if d.Some? {
        ScanAppend(d.value, a[1..], b);
      }
    }
  }

  lemma ScanSnoc(c: Progress, a: seq<Frame>, f: Frame)
    ensures Scan(c, a + [f]) == (if Scan(c, a).None? then None else ScanOne(Scan(c, a).value, f))
  {
    ScanAppend(c, a, [f]);
    if Scan(c, a).Some? {
      var d := Scan(c, a).value;
      assert [f][1..] == [];
      assert Scan(d, [f]) == ScanOne(d, f) by {
        if ScanOne(d, f).Some? {
          assert Scan(ScanOne(d, f).value, [f][1..]) == ScanOne(d, f);
        }
      }
    }
  }

  /** Reading only adds bytes, and a finished stream stays as it is. */
  lemma {:induction false} ScanGrows(c: Progress, fs: seq<Frame>)
    requires Scan(c, fs).Some?
    ensures c.data <= Scan(c, fs).value.data
    ensures c.fin ==> Scan(c, fs).value == c
    decreases |fs|
  {
    if fs != [] {
      ScanGrows(ScanOne(c, fs[0]).value, fs[1..]);
    }
  }

  /** The payload bytes in a list of frames. */
  function DataLength(fs: seq<Frame>): nat {
    if fs == [] then 0 else (if fs[0].kind == DATA then |fs[0].body| else 0) + DataLength(fs[1..])
  }

  lemma {:induction false} ScanLength(c: Progress, fs: seq<Frame>)
    requires Scan(c, fs).Some?
    ensures |Scan(c, fs).value.data| == |c.data| + DataLength(fs)
    decreases |fs|
  {
    if fs != [] {
      ScanLength(ScanOne(c, fs[0]).value, fs[1..]);
    }
  }

  /** The credit carried by a list of frames. */
  function CreditsIn(fs: seq<Frame>): nat {
    if fs == [] then 0
    else (if fs[0].kind == CREDIT && |fs[0].body| == 4 then FromBE32(fs[0].body) else 0) + CreditsIn(fs[1..])
  }

  lemma {:induction false} CreditsInSnoc(a: seq<Frame>, f: Frame)
    ensures CreditsIn(a + [f]) == CreditsIn(a) + CreditsIn([f])
  {
    if a == [] {
      assert a + [f] == [f];
    } else {
      assert (a + [f])[1..] == a[1..] + [f];
      CreditsInSnoc(a[1..], f);
    }
  }

  // ---------------------------------------------------------------- the invariant of one stream

  function Queue(t: Outgoing): seq<Frame> {
    (if t.pending.Some? then [t.pending.value] else []) + t.output
  }

  predicate DataOrFin(fs: seq<Frame>, id: u32) {
    forall i :: 0 <= i < |fs| ==> fs[i].stream == id && (fs[i].kind == DATA || fs[i].kind == FIN)
  }

  /** Every queued data chunk but the last is exactly 16 KiB. */
  predicate Coalesced(input: seq<Frame>) {
    && (forall i :: 0 <= i < |input| ==> |input[i].body| <= STREAM_CHUNK)
    && (forall i {:trigger input[i].kind} ::
          0 < i < |input| && input[i].kind == DATA ==> |input[i - 1].body| == STREAM_CHUNK)
  }

  /** Bytes of completely delivered chunks: those whose budget has been given back. */
  function Delivered(r: Incoming): int {
    |r.written| - (if r.writing.Some? then r.writing.value.done else 0)
  }

  /** Where the queue of input chunks starts: everything already taken by the writer. */
  function Taken(r: Incoming): Progress {
    match r.writing
    case None => Progress(r.written, r.remoteFinWritten)
    case Some(c) =>
      Progress(r.written + (if c.done <= |c.frame.body| then c.frame.body[c.done..] else []), c.frame.kind == FIN)
  }

  predicate WriterOk(r: Incoming) {
    match r.writing
    case None => true
    case Some(c) =>
      && !r.remoteFinWritten
      && c.done <= |c.frame.body| && c.done <= |r.written|
      && (c.frame.kind == FIN ==> c.frame.body == [])
      && (c.frame.kind == FIN || c.frame.kind == DATA)
  }

  /** Pending and queued frames continue the sent bytes up to everything read. */
  predicate SenderOk(t: Outgoing, id: u32) {
    && Scan(Progress(t.sent, t.localFinSent), Queue(t)) == Some(Progress(t.read, t.eof))
    && DataOrFin(Queue(t), id)
    && t.nextOut == Wrap32(|t.read|)
    && t.queuedBytes == |t.read| - |t.sent|
    && |t.output| <= OUTPUT_SLOTS
  }

  /** The queued chunks continue what the writer took up to everything accepted, and the budget is the window
      less the queued bytes and the writer's chunk. */
  predicate ReceiverOk(r: Incoming, id: u32, window: u32) {
    && Scan(Taken(r), r.input) == Some(Progress(r.arrived, r.remoteFin))
    && DataOrFin(r.input, id) && Coalesced(r.input)
    && WriterOk(r)
    && r.nextIn == Wrap32(|r.arrived|)
    && r.budget + (|r.arrived| - Delivered(r)) == window
  }

  predicate OpenFrame(f: Frame, id: u32) {
    f.kind == OPEN && f.stream == id && f.sequence == 0 && |f.body| <= MAX_AUTHORITY
  }

  /** Nothing is read before the socket exists, and nothing read is sent before OPENED, which only a connected stream
      owes. */
  predicate Greets(s: Stream) {
    && (s.ack ==> s.attached && s.tx.sent == [] && !s.tx.localFinSent)
    && (!s.attached ==> s.tx.read == [] && !s.tx.eof)
  }

  predicate StreamOk(s: Stream, id: u32, window: u32) {
    && SenderOk(s.tx, id) && ReceiverOk(s.rx, id, window) && Greets(s)
    && (s.open.Some? ==> OpenFrame(s.open.value, id))
  }

  lemma FreshOk(id: u32, send: u32, window: u32)
    ensures StreamOk(Fresh(send, window), id, window) && !Finished(Fresh(send, window))
  {
  }

  // ---------------------------------------------------------------- preservation, operation by operation

  lemma ReadDataKeeps(t: Outgoing, id: u32, data: seq<byte>)
    requires SenderOk(t, id) && CanRead(t) && data != []
    ensures SenderOk(ReadData(t, id, data), id)
  {
    var f := Frame(DATA, id, t.nextOut, data);
    assert Queue(ReadData(t, id, data)) == Queue(t) + [f];
    ScanSnoc(Progress(t.sent, t.localFinSent), Queue(t), f);
    WrapAdd(|t.read|, |data|);
  }

  lemma ReadEofKeeps(t: Outgoing, id: u32)
    requires SenderOk(t, id) && CanRead(t)
    ensures SenderOk(ReadEof(t, id), id)
  {
    var f := Frame(FIN, id, t.nextOut, []);
    assert Queue(ReadEof(t, id)) == Queue(t) + [f];
    ScanSnoc(Progress(t.sent, t.localFinSent), Queue(t), f);
  }

  lemma PopInputKeeps(r: Incoming, id: u32, window: u32)
    requires ReceiverOk(r, id, window) && CanPop(r)
    ensures ReceiverOk(PopInput(r), id, window)
  {
    var r' := PopInput(r);
    var f := r.input[0];
    assert f.stream == id;
    assert f.body[0..] == f.body;
    assert f.kind == FIN ==> r.written + f.body == r.written;
    assert ScanOne(Taken(r), f) == Some(Taken(r'));
    assert forall i {:trigger r'.input[i].kind} :: 0 <= i < |r'.input| ==> r'.input[i].kind == r.input[i + 1].kind;
  }

  lemma WriteSomeKeeps(r: Incoming, id: u32, window: u32, n: nat)
    requires ReceiverOk(r, id, window) && CanWrite(r, n)
    ensures ReceiverOk(WriteSome(r, n), id, window)
  {
    var c := r.writing.value;
    var r' := WriteSome(r, n);
    assert Taken(r') == Taken(r) by {
      Glue(c.frame.body, c.done, c.done + n, |c.frame.body|);
    }
  }

  /** Giving a chunk's bytes back to the budget cannot wrap. */
  lemma FinishChunkKeeps(r: Incoming, id: u32, window: u32)
    requires ReceiverOk(r, id, window) && CanFinishChunk(r)
    ensures ReceiverOk(FinishChunk(r), id, window)
    ensures FinishChunk(r).budget == r.budget + |r.writing.value.frame.body|
  {
    hide Scan, DataOrFin, Coalesced;
    ScanGrows(Taken(r), r.input);
    assert Taken(FinishChunk(r)) == Taken(r);
  }

  lemma FinishFinKeeps(r: Incoming, id: u32, window: u32)
    requires ReceiverOk(r, id, window) && CanFinishFin(r)
    ensures ReceiverOk(FinishFin(r), id, window)
  {
    assert Taken(FinishFin(r)) == Taken(r);
  }

  /** A queue of chunks that leads from `c` to `data`, still open. */
  predicate Chunks(c: Progress, input: seq<Frame>, id: u32, data: seq<byte>) {
    Scan(c, input) == Some(Progress(data, false)) && DataOrFin(input, id) && Coalesced(input)
  }

  lemma NewChunk(c: Progress, input: seq<Frame>, id: u32, data: seq<byte>, part: seq<byte>)
    requires Chunks(c, input, id, data) && 0 < |part| <= STREAM_CHUNK
    requires input == [] || |input[|input| - 1].body| == STREAM_CHUNK
    ensures Chunks(c, input + [Frame(DATA, id, Wrap32(|data|), part)], id, data + part)
  {
    ScanSnoc(c, input, Frame(DATA, id, Wrap32(|data|), part));
  }

  lemma TopUp(c: Progress, input: seq<Frame>, id: u32, data: seq<byte>, part: seq<byte>)
    requires Chunks(c, input, id, data) && input != [] && part != []
    requires |input[|input| - 1].body| + |part| <= STREAM_CHUNK
    ensures var last := input[|input| - 1];
            Chunks(c, input[..|input| - 1] + [last.(body := last.body + part)], id, data + part)
  {
    hide Scan, DataOrFin, Coalesced;
    var init, last := input[..|input| - 1], input[|input| - 1];
    assert input == init + [last];
    TopUpShape(init, last, id, part);
    TopUpScan(c, init, last, part, data);
  }

  lemma TopUpScan(c: Progress, init: seq<Frame>, last: Frame, part: seq<byte>, data: seq<byte>)
    requires Scan(c, init + [last]) == Some(Progress(data, false)) && (last.kind == DATA || last.kind == FIN)
    requires part != []
    ensures last.kind == DATA && Scan(c, init + [last.(body := last.body + part)]) == Some(Progress(data + part, false))
  {
    hide Scan;
    ScanSnoc(c, init, last);
    ScanSnoc(c, init, last.(body := last.body + part));
    Assoc(Scan(c, init).value.data, last.body, part);
  }

  lemma TopUpShape(init: seq<Frame>, last: Frame, id: u32, part: seq<byte>)
    requires DataOrFin(init + [last], id) && Coalesced(init + [last])
    requires |last.body| + |part| <= STREAM_CHUNK
    ensures last.kind == DATA || last.kind == FIN
    ensures DataOrFin(init + [last.(body := last.body + part)], id)
    ensures Coalesced(init + [last.(body := last.body + part)])
  {
    var before, after := init + [last], init + [last.(body := last.body + part)];
    assert before[|init|] == last;
    assert forall i {:trigger after[i].kind} :: 0 <= i < |after| ==> after[i].kind == before[i].kind;
  }

  /** Coalescing changes the boundaries of chunks, never their bytes or offsets. */
  lemma {:induction false} CoalesceKeeps(c: Progress, input: seq<Frame>, id: u32, sequence: u32, body: seq<byte>,
                                         data: seq<byte>)
    requires Chunks(c, input, id, data) && sequence == Wrap32(|data|)
    ensures Chunks(c, Coalesce(input, id, sequence, body), id, data + body)
    decreases |body|
  {
    if body == [] {
      assert data + body == data;
    } else {
      var full := input == [] || |input[|input| - 1].body| >= STREAM_CHUNK;
      var n := if full then Min(STREAM_CHUNK, |body|) else Min(STREAM_CHUNK - |input[|input| - 1].body|, |body|);
      WrapAdd(|data|, n);
      assert data + body == data + body[..n] + body[n..];
      ChunkSize(c, input, id, data);
      hide Chunks;
      if full {
        NewChunk(c, input, id, data, body[..n]);
        CoalesceKeeps(c, input + [Frame(DATA, id, sequence, body[..n])], id, Wrap32(sequence + n), body[n..], data + body[..n]);
      } else {
        var last := input[|input| - 1];
        TopUp(c, input, id, data, body[..n]);
        CoalesceKeeps(c, input[..|input| - 1] + [last.(body := last.body + body[..n])], id, Wrap32(sequence + n),
                      body[n..], data + body[..n]);
      }
    }
  }

  lemma ChunkSize(c: Progress, input: seq<Frame>, id: u32, data: seq<byte>)
    requires Chunks(c, input, id, data)
    ensures input != [] ==> |input[|input| - 1].body| <= STREAM_CHUNK
  {
  }

  lemma AcceptDataKeeps(r: Incoming, f: Frame, id: u32, window: u32)
    requires ReceiverOk(r, id, window) && f.stream == id && AcceptData(r, f).Some?
    ensures ReceiverOk(AcceptData(r, f).value, id, window)
    ensures Delivered(AcceptData(r, f).value) == Delivered(r)
  {
    hide Coalesce, Scan;
    CoalesceKeeps(Taken(r), r.input, id, f.sequence, f.body, r.arrived);
    WrapAdd(|r.arrived|, |f.body|);
    assert Taken(AcceptData(r, f).value) == Taken(r);
  }

  lemma AcceptFinKeeps(r: Incoming, f: Frame, id: u32, window: u32)
    requires ReceiverOk(r, id, window) && f.stream == id && f.kind == FIN && AcceptFin(r, f).Some?
    ensures ReceiverOk(AcceptFin(r, f).value, id, window)
    ensures Delivered(AcceptFin(r, f).value) == Delivered(r)
  {
    ScanSnoc(Taken(r), r.input, f);
    hide Scan;
    assert Taken(AcceptFin(r, f).value) == Taken(r);
  }

  lemma AcceptCreditKeeps(t: Outgoing, f: Frame, id: u32, send: u32)
    requires SenderOk(t, id) && AcceptCredit(t, f, send).Some?
    ensures SenderOk(AcceptCredit(t, f, send).value, id)
    ensures AcceptCredit(t, f, send).value == t.(credit := AcceptCredit(t, f, send).value.credit)
  {
    assert Queue(AcceptCredit(t, f, send).value) == Queue(t);
  }

  lemma AcceptKeeps(s: Stream, f: Frame, id: u32, window: u32, dial: bool, send: u32)
    requires StreamOk(s, id, window) && f.stream == id && Accept(s, f, dial, send).Kept?
    ensures StreamOk(Accept(s, f, dial, send).s, id, window)
  {
    hide SenderOk, ReceiverOk, AcceptData, AcceptFin, AcceptCredit, Delivered;
    if f.kind == DATA {
      AcceptDataKeeps(s.rx, f, id, window);
    } else if f.kind == FIN {
      AcceptFinKeeps(s.rx, f, id, window);
    } else if f.kind == CREDIT {
      AcceptCreditKeeps(s.tx, f, id, send);
    }
  }

  lemma RefillKeeps(t: Outgoing, id: u32)
    requires SenderOk(t, id)
    ensures SenderOk(Refill(t), id) && Queue(Refill(t)) == Queue(t)
    ensures var u := Refill(t); u == t.(output := u.output, pending := u.pending)
  {
    assert Queue(Refill(t)) == Queue(t);
  }

  /** What a transmission does to the sending half: the frame continues the sent bytes exactly. */
  predicate SentNext(t: Outgoing, f: Frame, t': Outgoing) {
    ScanOne(Progress(t.sent, t.localFinSent), f) == Some(Progress(t'.sent, t'.localFinSent))
  }

  /** Cutting a DATA frame in two changes nothing for a receiver. */
  lemma CutFrame(c: Progress, f: Frame, n: nat, tail: seq<Frame>)
    requires f.kind == DATA && 0 < n < |f.body|
    requires ScanOne(c, f).Some?
    ensures var a, b := f.(body := f.body[..n]), f.(body := f.body[n..], sequence := Wrap32(f.sequence + n));
            && ScanOne(c, a) == Some(Progress(c.data + f.body[..n], false))
            && Scan(Progress(c.data + f.body[..n], false), [b] + tail) == Scan(c, [f] + tail)
  {
    var a, b := f.(body := f.body[..n]), f.(body := f.body[n..], sequence := Wrap32(f.sequence + n));
    WrapAdd(|c.data|, n);
    assert c.data + f.body == c.data + f.body[..n] + b.body;
    assert ScanOne(Progress(c.data + f.body[..n], false), b) == ScanOne(c, f);
    assert ([b] + tail)[1..] == tail && ([f] + tail)[1..] == tail;
  }

  /** The frame sent next continues the sent bytes exactly, and the rest of the queue continues after it. */
  lemma OfferKeeps(t: Outgoing, id: u32, budget: nat, controlsOnly: bool)
    requires SenderOk(t, id) && budget >= FRAME_HEADER
    requires OfferPending(t, budget, controlsOnly).Offered?
    ensures var v := OfferPending(t, budget, controlsOnly);
            && SenderOk(v.tx, id) && SentNext(t, v.frame, v.tx)
            && v.frame.stream == id && v.frame.Size() <= budget
            && (v.frame.kind == DATA || v.frame.kind == FIN)
            && v.tx.read == t.read && v.tx.eof == t.eof && v.tx.credit + |v.frame.body| == t.credit
  {
    hide Queue, Scan, ScanOne, SenderOk;
    var v := OfferPending(t, budget, controlsOnly);
    PendingKind(t, id);
    if v.tx.pending.Some? {
      OfferCut(t, id, v.frame, v.tx);
    } else {
      OfferWhole(t, id, budget, controlsOnly);
    }
  }

  lemma PendingKind(t: Outgoing, id: u32)
    requires SenderOk(t, id) && t.pending.Some?
    ensures t.pending.value.stream == id && (t.pending.value.kind == DATA || t.pending.value.kind == FIN)
    ensures t.pending.value.kind == FIN ==> t.pending.value.body == []
  {
    hide Scan;
    assert Queue(t)[0] == t.pending.value;
    FirstScans(Progress(t.sent, t.localFinSent), Queue(t));
  }

  lemma FirstScans(c: Progress, fs: seq<Frame>)
    requires fs != [] && Scan(c, fs).Some?
    ensures ScanOne(c, fs[0]).Some? && Scan(c, fs) == Scan(ScanOne(c, fs[0]).value, fs[1..])
  {
  }

  lemma OfferWhole(t: Outgoing, id: u32, budget: nat, controlsOnly: bool)
    requires SenderOk(t, id) && budget >= FRAME_HEADER && OfferPending(t, budget, controlsOnly).Offered?
    requires OfferPending(t, budget, controlsOnly).tx.pending.None?
    ensures var v := OfferPending(t, budget, controlsOnly);
            SenderOk(v.tx, id) && SentNext(t, v.frame, v.tx) && |v.frame.body| == |t.pending.value.body|
  {
    hide Scan;
    var v := OfferPending(t, budget, controlsOnly);
    var f := t.pending.value;
    assert Queue(t) == [f] + t.output;
    assert Queue(t)[0] == f && Queue(t)[1..] == t.output;
    FirstScans(Progress(t.sent, t.localFinSent), Queue(t));
    assert f.body[..|f.body|] == f.body;
    assert Queue(v.tx) == t.output;
  }

  lemma OfferCut(t: Outgoing, id: u32, a: Frame, t': Outgoing)
    requires SenderOk(t, id) && t.pending.Some? && t.pending.value.kind == DATA
    requires var f := t.pending.value;
             var n := |a.body|;
             && 0 < n < |f.body| && a == f.(body := f.body[..n])
             && t' == t.(pending := Some(f.(body := f.body[n..], sequence := Wrap32(f.sequence + n))),
                         credit := t'.credit, queuedBytes := t.queuedBytes - n, sent := t.sent + a.body)
    ensures SenderOk(t', id) && SentNext(t, a, t')
  {
    var f := t.pending.value;
    var c := Progress(t.sent, t.localFinSent);
    assert Queue(t) == [f] + t.output && Queue(t') == [t'.pending.value] + t.output;
    assert Queue(t)[0] == f && Queue(t)[1..] == t.output;
    assert ScanOne(c, f).Some?;
    CutFrame(c, f, |a.body|, t.output);
  }

  /** A stream without a socket, or one that owes OPENED, has sent nothing that was read. */
  lemma Silence(s: Stream, id: u32, window: u32)
    requires StreamOk(s, id, window) && (!s.attached || s.ack)
    ensures s.tx.sent == [] && !s.tx.localFinSent
    ensures !s.attached ==> Queue(s.tx) == []
  {
    if !s.attached {
      ScanGrows(Progress(s.tx.sent, s.tx.localFinSent), Queue(s.tx));
      EmptyScan(Progress([], false), Queue(s.tx), id);
    }
  }

  lemma EmptyScan(c: Progress, fs: seq<Frame>, id: u32)
    requires DataOrFin(fs, id) && !c.fin && Scan(c, fs) == Some(c)
    ensures fs == []
  {
    if fs != [] {
      FirstScans(c, fs);
      ScanGrows(ScanOne(c, fs[0]).value, fs[1..]);
    }
  }

  /** A chunk in the writer's hands comes before the half-close. */
  lemma WriterOpen(s: Stream, id: u32, window: u32)
    requires StreamOk(s, id, window) && s.rx.writing.Some?
    ensures !s.rx.remoteFinWritten
  {
    hide SenderOk, Greets;
  }

  lemma AcceptRuns(s: Stream, f: Frame, dial: bool, send: u32)
    requires !Finished(s) && Accept(s, f, dial, send).Kept?
    ensures !Finished(Accept(s, f, dial, send).s)
  {
    hide Coalesce;
  }

  /** A visit of a stream that is not over tells when it is. */
  lemma VisitRuns(s: Stream, id: u32, budget: nat, controlsOnly: bool)
    requires !Finished(s) && budget >= FRAME_HEADER
    ensures var v := VisitStream(s, id, budget, controlsOnly);
            !v.Retire? && (v.Miss? || !v.remove ==> !Finished(v.s))
  {
    hide Uint32;
  }

  lemma VisitKeeps(s: Stream, id: u32, window: u32, budget: nat, controlsOnly: bool)
    requires StreamOk(s, id, window) && budget >= FRAME_HEADER
    ensures var v := VisitStream(s, id, budget, controlsOnly);
            && (v.Miss? ==> StreamOk(v.s, id, window))
            && (v.Send? ==> StreamOk(v.s, id, window) && v.frame.stream == id && v.frame.Size() <= budget
                            && SentNext(s.tx, v.frame, v.s.tx))
  {
    hide SenderOk, ReceiverOk, OfferPending, Scan, FromBE32, SentNext, Refill, Finished, Uint32;
    RefillKeeps(s.tx, id);
    if Finished(s) {
    } else if s.reset {
      ControlNext(s.tx, Frame(RESET, id, 0, []));
    } else if s.open.Some? {
      ControlNext(s.tx, s.open.value);
    } else if s.ack {
      ControlNext(s.tx, Frame(OPENED, id, 0, []));
    } else if s.rx.grant > 0 && budget >= FRAME_HEADER + 4 {
      ControlNext(s.tx, Frame(CREDIT, id, 0, Uint32(s.rx.grant)));
      GrantKeeps(s.rx, id, window);
    } else if OfferPending(Refill(s.tx), budget, controlsOnly).Offered? {
      OfferKeeps(Refill(s.tx), id, budget, controlsOnly);
      RefillSent(s.tx, OfferPending(Refill(s.tx), budget, controlsOnly).frame,
                 OfferPending(Refill(s.tx), budget, controlsOnly).tx);
    }
  }

  /** A well-formed control frame leaves the byte stream where it is. */
  lemma ControlNext(t: Outgoing, f: Frame)
    requires || (f.sequence == 0 && f.body == [] && (f.kind == RESET || f.kind == OPENED))
             || (f.sequence == 0 && f.kind == OPEN && |f.body| <= MAX_AUTHORITY)
             || (f.sequence == 0 && f.kind == CREDIT && |f.body| == 4 && FromBE32(f.body) > 0)
    ensures SentNext(t, f, t)
  {
    hide FromBE32;
  }

  lemma RefillSent(t: Outgoing, f: Frame, t': Outgoing)
    requires SentNext(Refill(t), f, t')
    ensures SentNext(t, f, t')
  {
    hide ScanOne;
  }

  lemma GrantKeeps(r: Incoming, id: u32, window: u32)
    requires ReceiverOk(r, id, window)
    ensures ReceiverOk(r.(grant := 0), id, window) && Delivered(r.(grant := 0)) == Delivered(r)
  {
    assert Taken(r.(grant := 0)) == Taken(r);
  }

  // ---------------------------------------------------------------- bounds on the input queue

  lemma FinStops(c: Progress, fs: seq<Frame>)
    requires c.fin && Scan(c, fs).Some? && (forall k :: 0 <= k < |fs| ==> fs[k].kind == DATA || fs[k].kind == FIN)
    ensures fs == []
  {
  }

  /** Nothing is queued behind FIN. */
  lemma {:induction false} FinIsLast(c: Progress, input: seq<Frame>, i: nat)
    requires Scan(c, input).Some? && i < |input| && input[i].kind == FIN
    requires forall k :: 0 <= k < |input| ==> input[k].kind == DATA || input[k].kind == FIN
    ensures i == |input| - 1
    decreases |input|
  {
    if i == 0 {
      FinStops(ScanOne(c, input[0]).value, input[1..]);
    } else {
      assert input[1..][i - 1] == input[i];
      FinIsLast(ScanOne(c, input[0]).value, input[1..], i - 1);
    }
  }

  /** The chunks of data that are allocated: those queued, without the FIN slot, and the writer's. */
  function ChunksHeld(r: Incoming): int {
    |r.input| - (if r.input != [] && r.input[|r.input| - 1].kind == FIN then 1 else 0) + (if r.writing.Some? then 1 else 0)
  }

  /** Coalesced input never outgrows the queue that newStream allocates: window/16384 data chunks and one FIN. */
  lemma InputBounded(r: Incoming, id: u32, window: u32)
    requires ReceiverOk(r, id, window) && window % STREAM_CHUNK == 0
    ensures |r.input| <= window / STREAM_CHUNK + 1
    ensures ChunksHeld(r) <= window / STREAM_CHUNK + 1
  {
    var input := r.input;
    if input != [] {
      ScanLength(Taken(r), input);
      var k := if input[|input| - 1].kind == DATA then |input| else |input| - 1;
      forall i | 0 <= i < k ensures input[i].kind == DATA {
        if input[i].kind == FIN {
          FinIsLast(Taken(r), input, i);
        }
      }
      if k > 0 {
        forall i | 0 <= i < k - 1 ensures |input[i].body| == STREAM_CHUNK {
          assert input[i + 1].kind == DATA;
        }
        ManyChunks(Taken(r), input, k);
      }
    }
  }

  lemma {:induction false} ManyChunks(c: Progress, input: seq<Frame>, k: nat)
    requires Scan(c, input).Some? && 0 < k <= |input|
    requires forall i :: 0 <= i < k ==> input[i].kind == DATA
    requires forall i :: 0 <= i < k - 1 ==> |input[i].body| == STREAM_CHUNK
    ensures DataLength(input) > (k - 1) * STREAM_CHUNK
    decreases k
  {
    if k > 1 {
      assert forall i :: 0 <= i < k - 1 ==> input[1..][i] == input[i + 1];
      ManyChunks(ScanOne(c, input[0]).value, input[1..], k - 1);
    }
  }
}
