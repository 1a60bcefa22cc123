/** One stream between two multiplexers joined by FIFO channels: what one direction of one stream keeps while
    either side reads, writes, sends, receives, fails or retires it (internal/mux/peer.go). */
module MuxFlow {
  import opened Bytes
  import opened Cell
  import opened MuxStream

  /** One end of a stream: still in its peer's table, or gone with its last state remembered. */
  datatype Side = Side(live: bool, s: Stream)

  predicate CarrierKind(kind: byte, toServer: bool) {
    kind == DATA || kind == FIN || kind == RESET || kind == CREDIT || kind == (if toServer then OPEN else OPENED)
  }

  predicate CarrierKinds(f: seq<Frame>, toServer: bool) {
    forall i :: 0 <= i < |f| ==> CarrierKind(f[i].kind, toServer)
  }

  function Reached(r: Incoming): Progress {
    Progress(r.arrived, r.remoteFin)
  }

  /** Both ends exist: the frames under way lead the receiver exactly to what was sent, and the sender's credit, the
      bytes under way or not yet delivered, the receiver's grant and the CREDIT under way add up to the window. */
  predicate FlowLive(t: Outgoing, r: Incoming, f: seq<Frame>, g: seq<Frame>, w: int) {
    && Scan(Reached(r), f) == Some(Progress(t.sent, t.localFinSent))
    && t.credit + (|t.sent| - Delivered(r)) + r.grant + CreditsIn(g) == w
  }

  /** The sender is gone: what is under way still belongs to what it read, and fits the receiver's window. */
  predicate FlowTail(t: Outgoing, r: Incoming, f: seq<Frame>, w: int) {
    var c := Scan(Reached(r), f);
    && c.Some?
    && c.value.data <= t.read && (c.value.fin ==> c.value.data == t.read && t.eof)
    && |c.value.data| - Delivered(r) + r.grant <= w
  }

  /** The receiver is gone: what it delivered belongs to what the sender read. */
  predicate FlowDone(t: Outgoing, r: Incoming) {
    r.written <= t.read && (r.remoteFinWritten ==> r.written == t.read && t.eof)
  }

  /** One direction of one stream, from x to y: frames f under way, frames g coming back. */
  predicate Flow(x: Side, y: Side, f: seq<Frame>, g: seq<Frame>, w: int, toServer: bool) {
    && CarrierKinds(f, toServer)
    && if y.live then
         if x.live then FlowLive(x.s.tx, y.s.rx, f, g, w) else FlowTail(x.s.tx, y.s.rx, f, w)
       else
         FlowDone(x.s.tx, y.s.rx) && (x.live ==> x.s.tx.credit + CreditsIn(g) <= w)
  }

  // ---------------------------------------------------------------- the sender acts

  lemma FlowRead(x: Side, t: Outgoing, y: Side, f: seq<Frame>, g: seq<Frame>, w: int, toServer: bool)
    requires Flow(x, y, f, g, w, toServer) && x.live && !x.s.tx.eof
    requires t.sent == x.s.tx.sent && t.localFinSent == x.s.tx.localFinSent && t.credit == x.s.tx.credit
    requires x.s.tx.read <= t.read
    ensures Flow(x.(s := x.s.(tx := t)), y, f, g, w, toServer)
  {
  }

  lemma FlowSend(x: Side, x': Side, y: Side, f: seq<Frame>, g: seq<Frame>, w: int, toServer: bool, frame: Frame)
    requires Flow(x, y, f, g, w, toServer) && x.live && x'.live
    requires SentNext(x.s.tx, frame, x'.s.tx) && CarrierKind(frame.kind, toServer)
    requires x'.s.tx.read == x.s.tx.read && x'.s.tx.eof == x.s.tx.eof
    requires x'.s.tx.credit + (|x'.s.tx.sent| - |x.s.tx.sent|) == x.s.tx.credit
    ensures Flow(x', y, f + [frame], g, w, toServer)
  {
    if y.live {
      ScanSnoc(Reached(y.s.rx), f, frame);
    } else {
      ScanGrowsOne(Progress(x.s.tx.sent, x.s.tx.localFinSent), frame);
    }
  }

  lemma ScanGrowsOne(c: Progress, f: Frame)
    requires ScanOne(c, f).Some?
    ensures c.data <= ScanOne(c, f).value.data
  {
  }

  /** CREDIT travels back: what leaves x's side of the books enters the channel. */
  lemma FlowGrant(x: Side, y: Side, y': Side, f: seq<Frame>, g: seq<Frame>, w: int, toServer: bool, frame: Frame)
    requires Flow(x, y, f, g, w, toServer) && y.live && y'.live
    requires y'.s.rx == y.s.rx.(grant := y'.s.rx.grant)
    requires y'.s.rx.grant + CreditsIn([frame]) == y.s.rx.grant
    ensures Flow(x, y', f, g + [frame], w, toServer)
  {
    CreditsInSnoc(g, frame);
  }

  /** A sender that has gone leaves a stream of bytes that is cut off, or complete. */
  lemma FlowSenderLeaves(x: Side, y: Side, f: seq<Frame>, g: seq<Frame>, w: int, toServer: bool, id: u32)
    requires Flow(x, y, f, g, w, toServer) && x.live && SenderOk(x.s.tx, id)
    ensures Flow(x.(live := false), y, f, g, w, toServer)
  {
    SentBelongs(x.s.tx, id);
  }

  lemma SentBelongs(t: Outgoing, id: u32)
    requires SenderOk(t, id)
    ensures t.sent <= t.read && (t.localFinSent ==> t.sent == t.read && t.eof)
  {
    ScanGrows(Progress(t.sent, t.localFinSent), Queue(t));
  }

  // ---------------------------------------------------------------- the receiver acts

  lemma FlowWrite(x: Side, y: Side, r: Incoming, f: seq<Frame>, g: seq<Frame>, w: int, toServer: bool)
    requires Flow(x, y, f, g, w, toServer) && y.live
    requires Reached(r) == Reached(y.s.rx) && r.grant - Delivered(r) == y.s.rx.grant - Delivered(y.s.rx)
    ensures Flow(x, y.(s := y.s.(rx := r)), f, g, w, toServer)
  {
  }

  lemma WrittenBelongs(r: Incoming, id: u32, window: u32)
    requires ReceiverOk(r, id, window)
    ensures r.written <= r.arrived && 0 <= Delivered(r) <= |r.arrived|
    ensures r.remoteFinWritten ==> r.written == r.arrived && r.remoteFin
  {
    ScanGrows(Taken(r), r.input);
  }

  /** A finished chunk moves its bytes from the writer to the grant; neither counter can wrap. */
  lemma FlowFinishChunk(x: Side, y: Side, f: seq<Frame>, g: seq<Frame>, w: u32, toServer: bool, id: u32)
    requires Flow(x, y, f, g, w, toServer) && y.live && ReceiverOk(y.s.rx, id, w) && CanFinishChunk(y.s.rx)
    ensures var r, n := y.s.rx, |y.s.rx.writing.value.frame.body|;
            && FinishChunk(r).grant == r.grant + n && FinishChunk(r).budget == r.budget + n
            && Delivered(FinishChunk(r)) == Delivered(r) + n
  {
    WrittenBelongs(y.s.rx, id, w);
    FinishChunkKeeps(y.s.rx, id, w);
    WrittenBelongs(FinishChunk(y.s.rx), id, w);
    ScanGrows(Reached(y.s.rx), f);
  }

  lemma FlowReceiverLeaves(x: Side, y: Side, f: seq<Frame>, g: seq<Frame>, w: int, toServer: bool, id: u32, window: u32)
    requires Flow(x, y, f, g, w, toServer) && y.live && ReceiverOk(y.s.rx, id, window)
    requires x.live ==> SenderOk(x.s.tx, id)
    ensures Flow(x, y.(live := false), f, g, w, toServer)
  {
    WrittenBelongs(y.s.rx, id, window);
    ScanGrows(Reached(y.s.rx), f);
    if x.live {
      SentBelongs(x.s.tx, id);
    }
  }

  // ---------------------------------------------------------------- a frame is delivered

  /** What the receiver makes of the frame at the head of the channel. */
  lemma FlowHead(x: Side, y: Side, f: seq<Frame>, g: seq<Frame>, w: int, toServer: bool)
    requires Flow(x, y, f, g, w, toServer) && y.live && f != []
    ensures ScanOne(Reached(y.s.rx), f[0]).Some?
    ensures f[0].kind == DATA ==> |y.s.rx.arrived| + |f[0].body| - Delivered(y.s.rx) <= w
  {
    ScanGrows(ScanOne(Reached(y.s.rx), f[0]).value, f[1..]);
  }

  /** DATA is never refused: the sender's credit and the receiver's budget are two views of one window. */
  lemma DataAccepted(x: Side, y: Side, f: seq<Frame>, g: seq<Frame>, w: u32, toServer: bool, id: u32)
    requires Flow(x, y, f, g, w, toServer) && y.live && f != []
    requires ReceiverOk(y.s.rx, id, w) && f[0].stream == id
    requires f[0].kind == DATA
    ensures AcceptData(y.s.rx, f[0]).Some?
    ensures var r := AcceptData(y.s.rx, f[0]).value; Reached(r) == ScanOne(Reached(y.s.rx), f[0]).value
  {
    FlowHead(x, y, f, g, w, toServer);
  }

  lemma FinAccepted(x: Side, y: Side, f: seq<Frame>, g: seq<Frame>, w: u32, toServer: bool, id: u32)
    requires Flow(x, y, f, g, w, toServer) && y.live && f != []
    requires ReceiverOk(y.s.rx, id, w) && f[0].stream == id
    requires f[0].kind == FIN
    ensures AcceptFin(y.s.rx, f[0]).Some?
    ensures var r := AcceptFin(y.s.rx, f[0]).value; Reached(r) == ScanOne(Reached(y.s.rx), f[0]).value
  {
    FlowHead(x, y, f, g, w, toServer);
  }

  lemma CreditsInHead(g: seq<Frame>)
    requires g != []
    ensures CreditsIn(g) == CreditsIn([g[0]]) + CreditsIn(g[1..])
  {
    assert [g[0]][1..] == [];
  }

  /** CREDIT is never refused: it cannot lift the credit above the window. */
  lemma CreditAccepted(x: Side, y: Side, f: seq<Frame>, g: seq<Frame>, w: u32, toServer: bool, id: u32, window: u32)
    requires Flow(x, y, f, g, w, toServer) && x.live && g != [] && g[0].kind == CREDIT
    requires y.live ==> ReceiverOk(y.s.rx, id, window)
    requires |g[0].body| == 4 && g[0].sequence == 0 && FromBE32(g[0].body) > 0
    ensures AcceptCredit(x.s.tx, g[0], w).Some?
    ensures var t := AcceptCredit(x.s.tx, g[0], w).value;
            t == x.s.tx.(credit := t.credit) && t.credit == x.s.tx.credit + CreditsIn([g[0]])
  {
    CreditsInHead(g);
    if y.live {
      WrittenBelongs(y.s.rx, id, window);
      ScanGrows(Reached(y.s.rx), f);
    }
  }

  lemma FlowReceive(x: Side, y: Side, r: Incoming, f: seq<Frame>, g: seq<Frame>, w: int, toServer: bool)
    requires Flow(x, y, f, g, w, toServer) && y.live && f != []
    requires ScanOne(Reached(y.s.rx), f[0]) == Some(Reached(r))
    requires r.grant == y.s.rx.grant && Delivered(r) == Delivered(y.s.rx)
    ensures Flow(x, y.(s := y.s.(rx := r)), f[1..], g, w, toServer)
  {
  }

  lemma FlowCredited(x: Side, x': Side, y: Side, f: seq<Frame>, g: seq<Frame>, w: int, toServer: bool)
    requires Flow(x, y, f, g, w, toServer) && x.live && x'.live && g != []
    requires x'.s.tx == x.s.tx.(credit := x'.s.tx.credit) && x'.s.tx.credit == x.s.tx.credit + CreditsIn([g[0]])
    ensures Flow(x', y, f, g[1..], w, toServer)
  {
    CreditsInHead(g);
  }

  /** Frames for a stream that is gone are ignored. */
  lemma FlowIgnore(x: Side, y: Side, f: seq<Frame>, g: seq<Frame>, w: int, toServer: bool)
    requires Flow(x, y, f, g, w, toServer) && !y.live && f != []
    ensures Flow(x, y, f[1..], g, w, toServer)
  {
  }

  lemma FlowIgnoreBack(x: Side, y: Side, f: seq<Frame>, g: seq<Frame>, w: int, toServer: bool)
    requires Flow(x, y, f, g, w, toServer) && !x.live && g != []
    ensures Flow(x, y, f, g[1..], w, toServer)
  {
  }

  // ---------------------------------------------------------------- what the books say

  /** Delivery is a prefix of what was read at the other end; an end of stream is passed on only after all bytes. */
  lemma FlowPrefix(x: Side, y: Side, f: seq<Frame>, g: seq<Frame>, w: int, toServer: bool, id: u32, window: u32)
    requires Flow(x, y, f, g, w, toServer)
    requires y.live ==> ReceiverOk(y.s.rx, id, window)
    requires x.live ==> SenderOk(x.s.tx, id)
    ensures y.s.rx.written <= x.s.tx.read
    ensures y.s.rx.remoteFinWritten ==> y.s.rx.written == x.s.tx.read && x.s.tx.eof
  {
    if y.live {
      FlowReceiverLeaves(x, y, f, g, w, toServer, id, window);
    }
  }

  /** Bytes accepted and not yet given back to the budget: queued chunks and the writer's chunk. */
  function Held(r: Incoming): nat {
    DataLength(r.input) + (if r.writing.Some? then |r.writing.value.frame.body| else 0)
  }

  lemma HeldBytes(r: Incoming, id: u32, window: u32)
    requires ReceiverOk(r, id, window)
    ensures |r.arrived| - Delivered(r) == Held(r) && r.budget + Held(r) == window
  {
    ScanLength(Taken(r), r.input);
  }

  /** Credit conservation, term by term. */
  lemma FlowConserves(x: Side, y: Side, f: seq<Frame>, g: seq<Frame>, w: int, toServer: bool, id: u32, window: u32)
    requires Flow(x, y, f, g, w, toServer) && x.live && y.live && ReceiverOk(y.s.rx, id, window)
    ensures x.s.tx.credit + DataLength(f) + Held(y.s.rx) + y.s.rx.grant + CreditsIn(g) == w
    ensures y.s.rx.budget + Held(y.s.rx) == window
  {
    ScanLength(Reached(y.s.rx), f);
    HeldBytes(y.s.rx, id, window);
  }
}
