/** Two multiplexers joined by two FIFO channels of frames: the invariant that ties their stream tables to what is
    under way, and its preservation by every operation of either peer (internal/mux/peer.go). */
module MuxPair {
  import opened Bytes
  import opened Cell
  import opened MuxStream
  import opened MuxPeer
  import opened MuxScheduler
  import opened MuxFlow

  /** The frames of one stream in a channel. */
  function Sel(fs: seq<Frame>, id: u32): seq<Frame> {
    if fs == [] then [] else (if fs[0].stream == id then [fs[0]] else []) + Sel(fs[1..], id)
  }

  lemma {:induction false} SelAppend(a: seq<Frame>, b: seq<Frame>, id: u32)
    ensures Sel(a + b, id) == Sel(a, id) + Sel(b, id)
  {
    if a == [] {
      assert a + b == b;
    } else {
      assert (a + b)[1..] == a[1..] + b;
      SelAppend(a[1..], b, id);
      Assoc(if a[0].stream == id then [a[0]] else [], Sel(a[1..], id), Sel(b, id));
    }
  }

  lemma SelOne(f: Frame, id: u32)
    ensures Sel([f], id) == if f.stream == id then [f] else []
  {
    assert [f][1..] == [];
  }

  /** One end of a stream. A stream that a peer has not met yet counts as a fresh one. */
  function View(p: Peer, id: u32): Side {
    if id in p.streams then Side(true, p.streams[id])
    else if id in p.retired then Side(false, p.retired[id])
    else Side(true, Fresh(p.send, p.window))
  }

  predicate Known(p: Peer, id: u32) {
    id in p.streams || id in p.retired
  }

  predicate NoOpen(f: seq<Frame>) {
    forall i :: 0 <= i < |f| ==> f[i].kind != OPEN
  }

  predicate OpenFirst(f: seq<Frame>) {
    f != [] && f[0].kind == OPEN && NoOpen(f[1..])
  }

  predicate LoneReset(f: seq<Frame>) {
    |f| == 1 && f[0].kind == RESET
  }

  /** How a stream comes into being: the client c announces it, OPEN travels ahead of everything else, the server s
      learns of it once. A stream that fails before its OPEN is sent leaves a lone RESET. */
  predicate Opening(c: Peer, s: Peer, id: u32, f: seq<Frame>, g: seq<Frame>) {
    && (id in c.streams ==> !c.streams[id].ack)
    && (id in s.streams ==> s.streams[id].open.None?)
    && if Known(s, id) then Known(c, id) && NoOpen(f) && View(c, id).s.open.None?
       else
         && g == []
         && if id in c.streams then (if c.streams[id].open.Some? then f == [] else OpenFirst(f))
            else if id in c.retired then
              || f == [] || (OpenFirst(f) && c.retired[id].open.None?) || (LoneReset(f) && c.retired[id].open.Some?)
            else f == []
  }

  predicate Flows(x: Side, y: Side, f: seq<Frame>, g: seq<Frame>, p: Peer, q: Peer) {
    Flow(x, y, f, g, p.send, q.dial) && Flow(y, x, g, f, q.send, p.dial)
  }

  predicate Openings(p: Peer, q: Peer, id: u32, f: seq<Frame>, g: seq<Frame>) {
    if q.dial then Opening(p, q, id, f, g) else Opening(q, p, id, g, f)
  }

  /** Everything about one stream. */
  predicate Link(p: Peer, q: Peer, pq: seq<Frame>, qp: seq<Frame>, id: u32) {
    && Flows(View(p, id), View(q, id), Sel(pq, id), Sel(qp, id), p, q)
    && Openings(p, q, id, Sel(pq, id), Sel(qp, id))
  }

  /** The two peers and the frames between them. One of them dials; the send window of each is the receive window
      of the other. */
  ghost predicate Joint(p: Peer, q: Peer, pq: seq<Frame>, qp: seq<Frame>) {
    && PeerOk(p) && PeerOk(q)
    && p.dial != q.dial && p.send == q.window && q.send == p.window
    && forall id :: Link(p, q, pq, qp, id)
  }

  lemma JointSwap(p: Peer, q: Peer, pq: seq<Frame>, qp: seq<Frame>)
    requires Joint(p, q, pq, qp)
    ensures Joint(q, p, qp, pq)
  {
    hide PeerOk, Flow, Opening, View;
    forall id ensures Link(q, p, qp, pq, id) {
      assert Link(p, q, pq, qp, id);
    }
  }

  /** p' differs from p only in one stream. */
  ghost predicate SameElse(p: Peer, p': Peer, id: u32) {
    && p'.window == p.window && p'.send == p.send && p'.dial == p.dial
    && forall k :: k != id ==> (
         && (k in p.streams <==> k in p'.streams) && (k in p.streams ==> p.streams[k] == p'.streams[k])
         && (k in p.retired <==> k in p'.retired) && (k in p.retired ==> p.retired[k] == p'.retired[k]))
  }

  /** A step of p on one stream, seen by the whole. */
  lemma JointStep(p: Peer, q: Peer, pq: seq<Frame>, qp: seq<Frame>, p': Peer, pq': seq<Frame>, qp': seq<Frame>, id: u32)
    requires Joint(p, q, pq, qp) && PeerOk(p') && SameElse(p, p', id)
    requires forall k :: k != id ==> Sel(pq', k) == Sel(pq, k) && Sel(qp', k) == Sel(qp, k)
    requires Link(p', q, pq', qp', id)
    ensures Joint(p', q, pq', qp')
  {
    hide PeerOk, Flow, Sel;
    forall k ensures Link(p', q, pq', qp', k) {
      if k != id {
        assert Link(p, q, pq, qp, k);
        assert View(p', k) == View(p, k);
      }
    }
  }

  // ---------------------------------------------------------------- local operations

  lemma LinkTx(p: Peer, q: Peer, pq: seq<Frame>, qp: seq<Frame>, id: u32, t: Outgoing)
    requires Link(p, q, pq, qp, id) && id in p.streams && !p.streams[id].tx.eof
    requires var u := p.streams[id].tx;
             t.sent == u.sent && t.localFinSent == u.localFinSent && t.credit == u.credit && u.read <= t.read
    ensures Link(Update(p, id, p.streams[id].(tx := t)), q, pq, qp, id)
  {
    FlowRead(View(p, id), t, View(q, id), Sel(pq, id), Sel(qp, id), p.send, q.dial);
  }

  lemma LinkRx(p: Peer, q: Peer, pq: seq<Frame>, qp: seq<Frame>, id: u32, r: Incoming)
    requires Link(p, q, pq, qp, id) && id in p.streams
    requires var u := p.streams[id].rx; Reached(r) == Reached(u) && r.grant - Delivered(r) == u.grant - Delivered(u)
    ensures Link(Update(p, id, p.streams[id].(rx := r)), q, pq, qp, id)
  {
    FlowWrite(View(q, id), View(p, id), r, Sel(qp, id), Sel(pq, id), q.send, p.dial);
  }

  lemma LinkFlags(p: Peer, q: Peer, pq: seq<Frame>, qp: seq<Frame>, id: u32, s: Stream)
    requires Link(p, q, pq, qp, id) && id in p.streams && p.dial != q.dial
    requires s.tx == p.streams[id].tx && s.rx == p.streams[id].rx && s.open == p.streams[id].open
    requires s.ack ==> p.dial || p.streams[id].ack
    ensures Link(Update(p, id, s), q, pq, qp, id)
  {
    hide Scan;
  }

  lemma UpdateElse(p: Peer, id: u32, s: Stream)
    ensures SameElse(p, Update(p, id, s), id)
  {
  }

  lemma RemoveElse(p: Peer, id: u32)
    requires Listed(p) && id in p.streams
    ensures SameElse(p, Remove(p, id), id)
    ensures View(Remove(p, id), id) == Side(false, p.streams[id]) && id in Remove(p, id).retired
  {
  }

  lemma JointRead(p: Peer, q: Peer, pq: seq<Frame>, qp: seq<Frame>, id: u32, t: Outgoing)
    requires Joint(p, q, pq, qp) && id in p.streams && p.streams[id].attached && CanRead(p.streams[id].tx)
    requires (exists data :: data != [] && t == ReadData(p.streams[id].tx, id, data)) || t == ReadEof(p.streams[id].tx, id)
    ensures Joint(Update(p, id, p.streams[id].(tx := t)), q, pq, qp)
  {
    hide SenderOk, ReceiverOk, Listed, Link, Update, SameElse, ReadData, ReadEof;
    PeerStream(p, id);
    assert Link(p, q, pq, qp, id);
    ReadKeeps(p.streams[id], id, p.window, t);
    LinkTx(p, q, pq, qp, id, t);
    UpdateKeeps(p, id, p.streams[id].(tx := t));
    UpdateElse(p, id, p.streams[id].(tx := t));
    JointStep(p, q, pq, qp, Update(p, id, p.streams[id].(tx := t)), pq, qp, id);
  }

  lemma ReadKeeps(s: Stream, id: u32, window: u32, t: Outgoing)
    requires StreamOk(s, id, window) && s.attached && CanRead(s.tx) && !Finished(s)
    requires (exists data :: data != [] && t == ReadData(s.tx, id, data)) || t == ReadEof(s.tx, id)
    ensures StreamOk(s.(tx := t), id, window) && !Finished(s.(tx := t))
    ensures t.sent == s.tx.sent && t.localFinSent == s.tx.localFinSent && t.credit == s.tx.credit && s.tx.read <= t.read
  {
    hide SenderOk, ReceiverOk;
    if data :| data != [] && t == ReadData(s.tx, id, data) {
      ReadDataKeeps(s.tx, id, data);
    } else {
      ReadEofKeeps(s.tx, id);
    }
  }

  lemma JointRx(p: Peer, q: Peer, pq: seq<Frame>, qp: seq<Frame>, id: u32, r: Incoming)
    requires Joint(p, q, pq, qp) && id in p.streams && ReceiverOk(r, id, p.window)
    requires var u := p.streams[id].rx; Reached(r) == Reached(u) && r.grant - Delivered(r) == u.grant - Delivered(u)
    requires !r.remoteFinWritten
    ensures Joint(Update(p, id, p.streams[id].(rx := r)), q, pq, qp)
  {
    hide SenderOk, ReceiverOk, Listed, Link, Update, SameElse, Reached, Delivered;
    PeerStream(p, id);
    assert Link(p, q, pq, qp, id);
    LinkRx(p, q, pq, qp, id, r);
    UpdateKeeps(p, id, p.streams[id].(rx := r));
    UpdateElse(p, id, p.streams[id].(rx := r));
    JointStep(p, q, pq, qp, Update(p, id, p.streams[id].(rx := r)), pq, qp, id);
  }

  /** The writer completes a chunk: the grant is part of the window and cannot wrap. */
  lemma JointFinishChunk(p: Peer, q: Peer, pq: seq<Frame>, qp: seq<Frame>, id: u32)
    requires Joint(p, q, pq, qp) && id in p.streams && CanFinishChunk(p.streams[id].rx)
    ensures var r, n := p.streams[id].rx, |p.streams[id].rx.writing.value.frame.body|;
            && FinishChunk(r).grant == r.grant + n && FinishChunk(r).budget == r.budget + n
            && Joint(Update(p, id, p.streams[id].(rx := FinishChunk(r))), q, pq, qp)
  {
    var r := p.streams[id].rx;
    assert Link(p, q, pq, qp, id);
    assert ReceiverOk(r, id, p.window);
    assert !r.remoteFinWritten;
    FlowFinishChunk(View(q, id), View(p, id), Sel(qp, id), Sel(pq, id), p.window, p.dial, id);
    FinishChunkKeeps(r, id, p.window);
    hide Flow, ReceiverOk, SenderOk, PeerOk;
    JointRx(p, q, pq, qp, id, FinishChunk(r));
  }

  lemma JointFlags(p: Peer, q: Peer, pq: seq<Frame>, qp: seq<Frame>, id: u32, s: Stream)
    requires Joint(p, q, pq, qp) && id in p.streams
    requires s.tx == p.streams[id].tx && s.rx == p.streams[id].rx && s.open == p.streams[id].open
    requires (s.ack ==> p.dial || p.streams[id].ack) && Greets(s)
    ensures Joint(Update(p, id, s), q, pq, qp)
  {
    hide SenderOk, ReceiverOk, Listed, Link, Update, SameElse, Greets;
    PeerStream(p, id);
    assert Link(p, q, pq, qp, id);
    LinkFlags(p, q, pq, qp, id, s);
    UpdateKeeps(p, id, s);
    UpdateElse(p, id, s);
    JointStep(p, q, pq, qp, Update(p, id, s), pq, qp, id);
  }

  /** A finished or failed stream leaves its peer's table. */
  lemma LinkLeaves(p: Peer, q: Peer, pq: seq<Frame>, qp: seq<Frame>, id: u32)
    requires Link(p, q, pq, qp, id) && id in p.streams && PeerSound(p) && PeerOk(q) && p.dial != q.dial
    requires q.dial ==> Known(q, id) || p.streams[id].open.Some? || OpenFirst(Sel(pq, id))
                        || (LoneReset(Sel(pq, id)) && p.streams[id].open.Some?)
    ensures Link(Remove(p, id), q, pq, qp, id)
  {
    hide Flow, SenderOk, ReceiverOk, Remove, PeerOk, PeerSound, StreamOk, Listed, Sel, Openings;
    SoundStream(p, id);
    ViewSender(q, id);
    FlowsLeave(View(p, id), View(q, id), Sel(pq, id), Sel(qp, id), p, q, id);
    RemoveElse(p, id);
    OpeningLeaves(p, q, id, Sel(pq, id), Sel(qp, id));
  }

  lemma OpeningLeaves(p: Peer, q: Peer, id: u32, f: seq<Frame>, g: seq<Frame>)
    requires Openings(p, q, id, f, g) && Listed(p) && id in p.streams && id !in p.retired && p.dial != q.dial
    requires q.dial ==> Known(q, id) || p.streams[id].open.Some? || OpenFirst(f)
                        || (LoneReset(f) && p.streams[id].open.Some?)
    ensures Openings(Remove(p, id), q, id, f, g)
  {
    hide Remove, Listed, NoOpen, OpenFirst, LoneReset;
    RemoveElse(p, id);
    RemoveShrinks(p, id);
  }

  lemma SoundStream(p: Peer, id: u32)
    requires PeerSound(p) && id in p.streams
    ensures StreamOk(p.streams[id], id, p.window) && Listed(p) && id !in p.retired
  {
    hide StreamOk, Listed;
  }

  lemma PeerStream(p: Peer, id: u32)
    requires PeerOk(p) && id in p.streams
    ensures StreamOk(p.streams[id], id, p.window) && Listed(p) && id !in p.retired && !Finished(p.streams[id])
  {
    hide StreamOk, Listed, Finished;
  }

  lemma OpenedLink(p: Peer, q: Peer, pq: seq<Frame>, qp: seq<Frame>, authority: seq<byte>)
    requires Joint(p, q, pq, qp) && CanOpen(p, authority)
    ensures var id := p.highest + 1;
            Link(OpenStream(p, authority), q, pq, qp, id) && SameElse(p, OpenStream(p, authority), id)
  {
    hide Scan, SenderOk, ReceiverOk, Listed;
    var id := p.highest + 1;
    assert Link(p, q, pq, qp, id);
    assert id !in p.streams && id !in p.retired;
    assert !Known(q, id);
  }

  lemma JointOpen(p: Peer, q: Peer, pq: seq<Frame>, qp: seq<Frame>, authority: seq<byte>)
    requires Joint(p, q, pq, qp) && CanOpen(p, authority)
    ensures Joint(OpenStream(p, authority), q, pq, qp)
  {
    hide Link, PeerOk, Listed, OpenStream, SameElse;
    OpenedLink(p, q, pq, qp, authority);
    OpenKeeps(p, authority);
    JointStep(p, q, pq, qp, OpenStream(p, authority), pq, qp, p.highest + 1);
  }

  /** The half-close, after which the stream stays or leaves. */
  lemma JointWriterFin(p: Peer, q: Peer, pq: seq<Frame>, qp: seq<Frame>, id: u32)
    requires Joint(p, q, pq, qp) && id in p.streams && CanFinishFin(p.streams[id].rx)
    ensures Joint(WriterFin(p, id), q, pq, qp)
  {
    hide SenderOk, ReceiverOk, Listed, Link, SameElse, Remove, StreamOk, PeerOk, Sel;
    PeerStream(p, id);
    var s := p.streams[id].(rx := FinishFin(p.streams[id].rx));
    assert Link(p, q, pq, qp, id);
    CursorInside(p);
    FinWritten(p.streams[id], id, p.window);
    LinkRx(p, q, pq, qp, id, s.rx);
    UpdateKeeps(p, id, s);
    UpdateElse(p, id, s);
    WriterFinKeeps(p, id);
    if Finished(s) {
      KnownToBoth(p, q, pq, qp, id, s);
      LinkLeaves(Update(p, id, s), q, pq, qp, id);
      LeaveElse(p, id, s);
    }
    JointStep(p, q, pq, qp, WriterFin(p, id), pq, qp, id);
  }

  lemma FinWritten(s: Stream, id: u32, window: u32)
    requires StreamOk(s, id, window) && CanFinishFin(s.rx)
    ensures var r := FinishFin(s.rx);
            && StreamOk(s.(rx := r), id, window)
            && Reached(r) == Reached(s.rx) && r.grant - Delivered(r) == s.rx.grant - Delivered(s.rx)
  {
    hide SenderOk;
    FinishFinKeeps(s.rx, id, window);
  }

  /** A stream that has received something has been announced. */
  lemma KnownToBoth(p: Peer, q: Peer, pq: seq<Frame>, qp: seq<Frame>, id: u32, s: Stream)
    requires Link(p, q, pq, qp, id) && id in p.streams && p.streams[id].open == s.open
    ensures q.dial ==> Known(q, id) || s.open.Some? || OpenFirst(Sel(pq, id))
  {
    hide Flows, Sel, NoOpen;
  }

  // ---------------------------------------------------------------- sending

  /** The books of one transmission: payload is paid from the credit, a grant moves into its CREDIT frame. */
  predicate Booked(s: Stream, frame: Frame, s': Stream) {
    && SentNext(s.tx, frame, s'.tx)
    && s'.tx.read == s.tx.read && s'.tx.eof == s.tx.eof
    && s'.tx.credit + (|s'.tx.sent| - |s.tx.sent|) == s.tx.credit
    && s'.rx == s.rx.(grant := s'.rx.grant) && s'.rx.grant + CreditsIn([frame]) == s.rx.grant
    && (s'.ack ==> s.ack)
    && (frame.kind == OPEN <==> s.open.Some? && s'.open.None?)
    && (s'.open.Some? ==> s'.open == s.open && frame.kind == RESET)
    && (frame.kind == OPENED ==> s.ack)
    && (frame.kind in {OPEN, DATA, FIN, RESET, CREDIT, OPENED})
  }

  lemma OfferBooked(s: Stream, id: u32, budget: nat, controlsOnly: bool)
    requires SenderOk(s.tx, id) && budget >= FRAME_HEADER && s.open.None?
    requires OfferPending(Refill(s.tx), budget, controlsOnly).Offered?
    ensures var v := OfferPending(Refill(s.tx), budget, controlsOnly);
            Booked(s, v.frame, s.(tx := v.tx)) && (v.frame.kind == DATA || v.frame.kind == FIN)
  {
    RefillKeeps(s.tx, id);
    OfferKeeps(Refill(s.tx), id, budget, controlsOnly);
    var v := OfferPending(Refill(s.tx), budget, controlsOnly);
    assert [v.frame][1..] == [];
    assert CreditsIn([v.frame]) == 0;
    hide SenderOk, Scan;
    assert SentNext(s.tx, v.frame, v.tx);
    assert v.tx.read == s.tx.read && v.tx.eof == s.tx.eof;
    assert v.tx.credit + (|v.tx.sent| - |s.tx.sent|) == s.tx.credit;
  }

  lemma ControlBooked(s: Stream, id: u32)
    ensures Booked(s, Frame(RESET, id, 0, []), s)
    ensures s.open.None? && s.ack ==> Booked(s, Frame(OPENED, id, 0, []), s.(ack := false))
    ensures s.open.None? && s.rx.grant > 0 ==>
              Booked(s, Frame(CREDIT, id, 0, Uint32(s.rx.grant)), s.(rx := s.rx.(grant := 0)))
    ensures s.open.Some? && OpenFrame(s.open.value, id) ==>
              Booked(s, s.open.value, s.(open := None))
  {
    var frames := [Frame(RESET, id, 0, []), Frame(OPENED, id, 0, []), Frame(CREDIT, id, 0, Uint32(s.rx.grant))];
    assert forall f: Frame :: [f][1..] == [];
  }

  lemma VisitBooked(s: Stream, id: u32, window: u32, budget: nat, controlsOnly: bool)
    requires StreamOk(s, id, window) && budget >= FRAME_HEADER
    requires VisitStream(s, id, budget, controlsOnly).Send?
    ensures var v := VisitStream(s, id, budget, controlsOnly);
            Booked(s, v.frame, v.s) && (v.frame.kind == RESET ==> v.remove)
  {
    ControlBooked(s, id);
    if s.open.None? && OfferPending(Refill(s.tx), budget, controlsOnly).Offered? {
      OfferBooked(s, id, budget, controlsOnly);
    }
    hide SenderOk, ReceiverOk, OfferPending, Scan, Booked, Refill;
  }

  /** A transmission, seen by both directions of its stream. */
  lemma FlowsSend(x: Side, x': Side, y: Side, f: seq<Frame>, g: seq<Frame>, p: Peer, q: Peer, frame: Frame)
    requires Flows(x, y, f, g, p, q) && x.live && x'.live && Booked(x.s, frame, x'.s)
    requires CarrierKind(frame.kind, q.dial)
    ensures Flows(x', y, f + [frame], g, p, q)
  {
    FlowSend(x, x', y, f, g, p.send, q.dial, frame);
    FlowGrant(y, x, x', g, f, q.send, p.dial, frame);
    hide Flow;
  }

  lemma FlowsLeave(x: Side, y: Side, f: seq<Frame>, g: seq<Frame>, p: Peer, q: Peer, id: u32)
    requires Flows(x, y, f, g, p, q) && x.live && StreamOk(x.s, id, p.window)
    requires y.live ==> SenderOk(y.s.tx, id)
    ensures Flows(x.(live := false), y, f, g, p, q)
  {
    hide Flow, SenderOk, ReceiverOk;
    FlowSenderLeaves(x, y, f, g, p.send, q.dial, id);
    FlowReceiverLeaves(y, x, g, f, q.send, p.dial, id, p.window);
  }

  lemma ViewSender(q: Peer, id: u32)
    requires PeerOk(q)
    ensures View(q, id).live ==> SenderOk(View(q, id).s.tx, id)
  {
    FreshOk(id, q.send, q.window);
    hide SenderOk, ReceiverOk;
  }

  lemma LinkSend(p: Peer, q: Peer, pq: seq<Frame>, qp: seq<Frame>, id: u32, frame: Frame, s: Stream)
    requires Link(p, q, pq, qp, id) && id in p.streams && p.dial != q.dial
    requires Booked(p.streams[id], frame, s) && frame.stream == id && frame.kind != RESET
    ensures Link(Update(p, id, s), q, pq + [frame], qp, id)
  {
    SelAppend(pq, [frame], id);
    SelOne(frame, id);
    var f, g := Sel(pq, id), Sel(qp, id);
    hide Flow, Sel, SentNext;
    FlowsSend(View(p, id), Side(true, s), View(q, id), f, g, p, q, frame);
    SendOpening(p, q, f, g, id, frame, s);
    assert View(Update(p, id, s), id) == Side(true, s);
    hide Openings, Flows, Booked;
  }

  lemma SendOpening(p: Peer, q: Peer, f: seq<Frame>, g: seq<Frame>, id: u32, frame: Frame, s: Stream)
    requires Openings(p, q, id, f, g) && id in p.streams && p.dial != q.dial
    requires Booked(p.streams[id], frame, s)
    ensures frame.kind != RESET ==> Openings(Update(p, id, s), q, id, f + [frame], g)
    ensures frame.kind != OPEN && Listed(p) && id !in p.retired ==>
              Openings(Remove(Update(p, id, s), id), q, id, f + [frame], g)
  {
    hide SentNext, Remove, Listed, CreditsIn;
    if f != [] {
      assert (f + [frame])[1..] == f[1..] + [frame];
    } else {
      assert f + [frame] == [frame];
    }
    if frame.kind != OPEN && Listed(p) && id !in p.retired {
      UpdateListed(p, id, s);
      RemoveElse(Update(p, id, s), id);
      RemoveShrinks(Update(p, id, s), id);
    }
  }

  /** A transmission with which the stream leaves its peer's table. */
  lemma LinkSendLeaves(p: Peer, q: Peer, pq: seq<Frame>, qp: seq<Frame>, id: u32, frame: Frame, s: Stream)
    requires Link(p, q, pq, qp, id) && id in p.streams && p.dial != q.dial && PeerOk(p) && PeerOk(q)
    requires Booked(p.streams[id], frame, s) && StreamOk(s, id, p.window) && frame.stream == id && frame.kind != OPEN
    ensures Link(Remove(Update(p, id, s), id), q, pq + [frame], qp, id)
  {
    hide Flow, Sel, SentNext, StreamOk, SenderOk, Listed, Remove, Finished;
    SelAppend(pq, [frame], id);
    SelOne(frame, id);
    ViewSender(q, id);
    UpdateKeeps(p, id, s);
    SoundCursor(Update(p, id, s));
    RemoveElse(Update(p, id, s), id);
    RemoveKeeps(Update(p, id, s), id);
    var f, g := Sel(pq, id), Sel(qp, id);
    FlowsSend(View(p, id), Side(true, s), View(q, id), f, g, p, q, frame);
    FlowsLeave(Side(true, s), View(q, id), f + [frame], g, p, q, id);
    SendOpening(p, q, f, g, id, frame, s);
    hide Openings, Flows, Booked;
  }

  lemma SelElse(pq: seq<Frame>, frame: Frame)
    ensures forall k :: k != frame.stream ==> Sel(pq + [frame], k) == Sel(pq, k)
  {
    forall k | k != frame.stream ensures Sel(pq + [frame], k) == Sel(pq, k) {
      SelAppend(pq, [frame], k);
      SelOne(frame, k);
    }
  }

  lemma JointSend(p: Peer, q: Peer, pq: seq<Frame>, qp: seq<Frame>, id: u32, frame: Frame, s: Stream)
    requires Joint(p, q, pq, qp) && id in p.streams && StreamOk(s, id, p.window)
    requires Booked(p.streams[id], frame, s) && frame.stream == id && frame.kind != RESET && !Finished(s)
    ensures Joint(Update(p, id, s), q, pq + [frame], qp)
  {
    hide Link, PeerOk, Update, Sel, StreamOk, SameElse, Finished, Booked;
    assert Link(p, q, pq, qp, id);
    LinkSend(p, q, pq, qp, id, frame, s);
    UpdateKeeps(p, id, s);
    UpdateElse(p, id, s);
    SelElse(pq, frame);
    JointStep(p, q, pq, qp, Update(p, id, s), pq + [frame], qp, id);
  }

  lemma LeaveElse(p: Peer, id: u32, s: Stream)
    requires Listed(p) && id in p.streams
    ensures SameElse(p, Remove(Update(p, id, s), id), id)
  {
    UpdateElse(p, id, s);
    UpdateListed(p, id, s);
    RemoveElse(Update(p, id, s), id);
    hide Listed, Remove;
  }

  lemma JointSendLeaves(p: Peer, q: Peer, pq: seq<Frame>, qp: seq<Frame>, id: u32, frame: Frame, s: Stream)
    requires Joint(p, q, pq, qp) && id in p.streams && StreamOk(s, id, p.window)
    requires Booked(p.streams[id], frame, s) && frame.stream == id && frame.kind != OPEN
    ensures Joint(Remove(Update(p, id, s), id), q, pq + [frame], qp)
  {
    hide Link, PeerOk, PeerSound, Listed, Update, Sel, Remove, StreamOk, SameElse, Finished, Booked;
    PeerStream(p, id);
    assert Link(p, q, pq, qp, id);
    UpdateKeeps(p, id, s);
    SoundCursor(Update(p, id, s));
    var p' := Remove(Update(p, id, s), id);
    LinkSendLeaves(p, q, pq, qp, id, frame, s);
    RemoveKeeps(Update(p, id, s), id);
    LeaveElse(p, id, s);
    SelElse(pq, frame);
    JointStep(p, q, pq, qp, p', pq + [frame], qp, id);
  }

  lemma JointAdvance(p: Peer, q: Peer, pq: seq<Frame>, qp: seq<Frame>)
    requires Joint(p, q, pq, qp) && p.order != []
    ensures Joint(Advance(p), q, pq, qp)
  {
    hide Link, PeerOk, Listed, Sel;
    OkListed(p);
    assert Link(p, q, pq, qp, 0);
    AdvanceKeeps(p);
    LinkAdvance(p, q, pq, qp, 0);
    JointStep(p, q, pq, qp, Advance(p), pq, qp, 0);
  }

  lemma AdvanceKeeps(p: Peer)
    requires PeerOk(p) && p.order != []
    ensures Listed(p) && PeerOk(Advance(p)) && SameElse(p, Advance(p), 0)
  {
    hide StreamOk, Distinct;
  }

  lemma LinkAdvance(p: Peer, q: Peer, pq: seq<Frame>, qp: seq<Frame>, id: u32)
    requires Link(p, q, pq, qp, id) && Listed(p) && p.order != []
    ensures Link(Advance(p), q, pq, qp, id)
  {
    hide Flow, Sel, Listed, NoOpen, OpenFirst, LoneReset, Fresh;
  }

  lemma JointTurn(x: Pass, controlsOnly: bool, q: Peer, pq: seq<Frame>, qp: seq<Frame>)
    requires Joint(x.p, q, pq, qp) && Running(x)
    ensures Joint(TurnPass(x, controlsOnly).p, q, pq + TurnFrames(x, controlsOnly), qp)
  {
    var id, p := Head(x.p), Advance(x.p);
    JointAdvance(x.p, q, pq, qp);
    var s := p.streams[id];
    VisitKeeps(s, id, p.window, x.budget, controlsOnly);
    VisitRuns(s, id, x.budget, controlsOnly);
    assert pq + [] == pq;
    var v := HeadVisit(x, controlsOnly);
    if v.Send? {
      VisitBooked(s, id, p.window, x.budget, controlsOnly);
      assert v.remove ==> v.frame.kind != OPEN by {
        hide StreamOk, Booked;
        RemovedKinds(s, id, p.window, x.budget, controlsOnly);
      }
    }
    hide Joint, VisitStream, Booked, StreamOk, Remove, Finished;
    if v.Miss? {
      JointMiss(p, q, pq, qp, id, v.s, x.budget, controlsOnly);
    } else if v.remove {
      JointSendLeaves(p, q, pq, qp, id, v.frame, v.s);
    } else {
      JointSend(p, q, pq, qp, id, v.frame, v.s);
    }
  }

  /** Moving a frame from the reader's channel to `pending` shows nowhere. */
  lemma LinkQueue(p: Peer, q: Peer, pq: seq<Frame>, qp: seq<Frame>, id: u32, s: Stream)
    requires Link(p, q, pq, qp, id) && id in p.streams
    requires s == p.streams[id] || s == p.streams[id].(tx := Refill(p.streams[id].tx))
    ensures Link(Update(p, id, s), q, pq, qp, id)
  {
    hide Sel, Scan;
  }

  lemma RemovedKinds(s: Stream, id: u32, window: u32, budget: nat, controlsOnly: bool)
    requires StreamOk(s, id, window) && budget >= FRAME_HEADER
    ensures var v := VisitStream(s, id, budget, controlsOnly); v.Send? && v.remove ==> v.frame.kind != OPEN
  {
    RefillKeeps(s.tx, id);
    if OfferPending(Refill(s.tx), budget, controlsOnly).Offered? {
      OfferKeeps(Refill(s.tx), id, budget, controlsOnly);
    }
    hide SenderOk, ReceiverOk, Scan, OfferPending;
  }

  lemma JointMiss(p: Peer, q: Peer, pq: seq<Frame>, qp: seq<Frame>, id: u32, s: Stream, budget: nat, controlsOnly: bool)
    requires Joint(p, q, pq, qp) && id in p.streams && budget >= FRAME_HEADER && StreamOk(s, id, p.window)
    requires VisitStream(p.streams[id], id, budget, controlsOnly) == Miss(s) && !Finished(s)
    ensures Joint(Update(p, id, s), q, pq, qp)
  {
    hide VisitStream, StreamOk, PeerOk, Link, Update, Sel, Refill, SameElse;
    assert Link(p, q, pq, qp, id);
    MissShape(p.streams[id], id, budget, controlsOnly);
    LinkQueue(p, q, pq, qp, id, s);
    UpdateKeeps(p, id, s);
    UpdateElse(p, id, s);
    JointStep(p, q, pq, qp, Update(p, id, s), pq, qp, id);
  }

  lemma MissShape(s: Stream, id: u32, budget: nat, controlsOnly: bool)
    requires budget >= FRAME_HEADER && VisitStream(s, id, budget, controlsOnly).Miss?
    ensures var s' := VisitStream(s, id, budget, controlsOnly).s; s' == s || s' == s.(tx := Refill(s.tx))
  {
    hide OfferPending, Refill, Finished;
  }

  /** A whole take. */
  lemma {:induction false} JointTake(x: Pass, controlsOnly: bool, q: Peer, pq: seq<Frame>, qp: seq<Frame>)
    requires Joint(x.p, q, pq, qp)
    ensures Joint(LastPass(x, controlsOnly).p, q, pq + TakenFrames(x, controlsOnly), qp)
    decreases x.budget, |x.p.order|, |x.p.order| - x.misses
  {
    assert Listed(x.p);
    if Running(x) {
      var y, fs := TurnPass(x, controlsOnly), TurnFrames(x, controlsOnly);
      JointTurn(x, controlsOnly, q, pq, qp);
      hide Joint, TurnPass, TurnFrames, Listed;
      JointTake(y, controlsOnly, q, pq + fs, qp);
      Assoc(pq, fs, TakenFrames(y, controlsOnly));
    } else {
      assert pq + [] == pq;
    }
  }

  // ---------------------------------------------------------------- receiving

  /** Some stream is still in the table of q when p has retired it already. */
  predicate Lingers(p: Peer, q: Peer) {
    exists id :: id in q.streams && id in p.retired
  }

  /** When the server q refuses a frame of the client p: an OPEN whose number is not above all it has seen, or that
      names nothing or an illegal authority, or that finds the table full of streams some of which the client has left;
      and the RESET of a stream that the client gave up with its OPEN unsent, unless a higher number has been announced. */
  predicate Excused(p: Peer, q: Peer, f: Frame, valid: seq<byte> -> bool) {
    q.dial && !p.dial &&
    if f.kind == OPEN then
      f.stream <= q.highest || f.body == [] || !valid(f.body) || (|q.streams| >= MAX_STREAMS && Lingers(p, q))
    else f.kind == RESET && f.stream in p.retired && p.retired[f.stream].open.Some? && q.highest < f.stream
  }

  /** A frame for a live stream is taken off the channel. */
  lemma LinkReceive(p: Peer, q: Peer, pq: seq<Frame>, qp: seq<Frame>, id: u32)
    requires Link(p, q, pq, qp, id) && PeerOk(p) && PeerOk(q) && p.dial != q.dial
    requires p.send == q.window && q.send == p.window
    requires pq != [] && pq[0].stream == id && id in q.streams && pq[0].kind != OPEN
    ensures var a := Accept(q.streams[id], pq[0], q.dial, q.send);
            && !a.Refused?
            && (a.Closed? <==> pq[0].kind == RESET)
            && (a.Kept? ==> Link(p, Update(q, id, a.s), pq[1..], qp, id))
            && (a.Closed? ==> Link(p, Remove(q, id), pq[1..], qp, id))
  {
    var x, y, f, g := View(p, id), View(q, id), Sel(pq, id), Sel(qp, id);
    var frame := pq[0];
    assert f == [frame] + Sel(pq[1..], id);
    assert f[0] == frame && f[1..] == Sel(pq[1..], id);
    assert CarrierKind(frame.kind, q.dial);
    ReceiveFlows(x, y, f, g, p, q, id);
    ReceiveOpening(p, q, id, f, g);
    ViewSender(p, id);
    var a := Accept(q.streams[id], frame, q.dial, q.send);
    if a.Closed? {
      FlowsLeave(y, x, g, f[1..], q, p, id);
      RemoveElse(q, id);
      RemoveKeeps(q, id);
    }
    hide Flow, Sel, StreamOk, SenderOk, Listed, Accept, Remove;
  }

  /** The two directions after a frame for a live stream: never refused, and the books stay balanced. */
  predicate Received(x: Side, y: Side, f: seq<Frame>, g: seq<Frame>, p: Peer, q: Peer)
    requires f != []
  {
    var a := Accept(y.s, f[0], q.dial, q.send);
    && !a.Refused?
    && (a.Closed? <==> f[0].kind == RESET)
    && Flows(x, if a.Kept? then Side(true, a.s) else y, f[1..], g, p, q)
    && (a.Kept? ==> a.s.open == y.s.open && a.s.ack == y.s.ack)
  }

  predicate Deliverable(x: Side, y: Side, f: seq<Frame>, g: seq<Frame>, p: Peer, q: Peer, id: u32) {
    && Flows(x, y, f, g, p, q) && y.live && f != [] && f[0].stream == id && f[0].kind != OPEN
    && StreamOk(y.s, id, q.window) && p.send == q.window && q.send == p.window && p.dial != q.dial
    && (x.live ==> ReceiverOk(x.s.rx, id, p.window))
  }

  lemma ReceiveFlows(x: Side, y: Side, f: seq<Frame>, g: seq<Frame>, p: Peer, q: Peer, id: u32)
    requires Deliverable(x, y, f, g, p, q, id)
    ensures Received(x, y, f, g, p, q)
  {
    assert CarrierKind(f[0].kind, q.dial);
    if f[0].kind == DATA || f[0].kind == FIN {
      ReceiveBytes(x, y, f, g, p, q, id);
    } else {
      ReceiveControl(x, y, f, g, p, q, id);
    }
  }

  lemma ReceiveBytes(x: Side, y: Side, f: seq<Frame>, g: seq<Frame>, p: Peer, q: Peer, id: u32)
    requires Deliverable(x, y, f, g, p, q, id) && (f[0].kind == DATA || f[0].kind == FIN)
    ensures Received(x, y, f, g, p, q)
  {
    hide Flow, AcceptData, AcceptFin, AcceptCredit, ReceiverOk, SenderOk, Delivered, ScanOne;
    var frame := f[0];
    var r: Incoming;
    if frame.kind == DATA {
      DataAccepted(x, y, f, g, p.send, q.dial, id);
      AcceptDataKeeps(y.s.rx, frame, id, q.window);
      r := AcceptData(y.s.rx, frame).value;
    } else {
      FinAccepted(x, y, f, g, p.send, q.dial, id);
      AcceptFinKeeps(y.s.rx, frame, id, q.window);
      r := AcceptFin(y.s.rx, frame).value;
    }
    GrantStays(y.s.rx, frame);
    FlowHead(x, y, f, g, p.send, q.dial);
    FlowReceive(x, y, r, f, g, p.send, q.dial);
    BackUnchanged(y, Side(true, y.s.(rx := r)), x, g, f, q.send, p.dial);
  }

  lemma GrantStays(r: Incoming, f: Frame)
    ensures AcceptData(r, f).Some? ==> AcceptData(r, f).value.grant == r.grant
    ensures AcceptFin(r, f).Some? ==> AcceptFin(r, f).value.grant == r.grant
  {
    hide Coalesce;
  }

  lemma ReceiveControl(x: Side, y: Side, f: seq<Frame>, g: seq<Frame>, p: Peer, q: Peer, id: u32)
    requires Deliverable(x, y, f, g, p, q, id) && f[0].kind != DATA && f[0].kind != FIN
    ensures Received(x, y, f, g, p, q)
  {
    var frame := f[0];
    assert CarrierKind(frame.kind, q.dial);
    FlowHead(x, y, f, g, p.send, q.dial);
    assert ScanOne(Reached(y.s.rx), frame) == Some(Reached(y.s.rx));
    hide Flow, ReceiverOk, SenderOk, Delivered;
    FlowReceive(x, y, y.s.rx, f, g, p.send, q.dial);
    if frame.kind == CREDIT {
      CreditAccepted(y, x, g, f, q.send, p.dial, id, p.window);
      var t := AcceptCredit(y.s.tx, frame, q.send).value;
      FlowCredited(y, Side(true, y.s.(tx := t)), x, g, f, q.send, p.dial);
    } else {
      BackUnchanged(y, y, x, g, f, q.send, p.dial);
    }
    hide AcceptCredit;
  }

  /** A frame without credit leaves the other direction as it was. */
  lemma BackUnchanged(x: Side, x': Side, y: Side, f: seq<Frame>, g: seq<Frame>, w: int, toServer: bool)
    requires Flow(x, y, f, g, w, toServer) && x.live && x'.live && x'.s.tx == x.s.tx
    requires g != [] && g[0].kind != CREDIT
    ensures Flow(x', y, f, g[1..], w, toServer)
  {
    CreditsInHead(g);
    assert [g[0]][1..] == [];
    FlowCredited(x, x', y, f, g, w, toServer);
  }

  lemma ReceiveOpening(p: Peer, q: Peer, id: u32, f: seq<Frame>, g: seq<Frame>)
    requires Openings(p, q, id, f, g) && p.dial != q.dial && f != [] && f[0].kind != OPEN && id in q.streams
    requires Listed(q) && id !in q.retired
    ensures forall s: Stream :: s.open == q.streams[id].open && s.ack == q.streams[id].ack ==>
              Openings(p, Update(q, id, s), id, f[1..], g)
    ensures Openings(p, Remove(q, id), id, f[1..], g)
  {
    RemoveElse(q, id);
    RemoveShrinks(q, id);
    hide Listed, Remove;
  }

  lemma LinkSwap(p: Peer, q: Peer, pq: seq<Frame>, qp: seq<Frame>, id: u32)
    requires Link(p, q, pq, qp, id) && p.dial != q.dial
    ensures Link(q, p, qp, pq, id)
  {
  }

  lemma SelTail(pq: seq<Frame>, k: u32)
    requires pq != []
    ensures Sel(pq, k) == (if pq[0].stream == k then [pq[0]] else []) + Sel(pq[1..], k)
    ensures pq[0].stream == k ==> Sel(pq, k) != [] && Sel(pq, k)[0] == pq[0] && Sel(pq, k)[1..] == Sel(pq[1..], k)
  {
  }

  /** A step of q on the stream of the frame that it takes off the channel. */
  lemma JointTaken(p: Peer, q: Peer, pq: seq<Frame>, qp: seq<Frame>, q': Peer)
    requires Joint(p, q, pq, qp) && pq != [] && PeerOk(q') && SameElse(q, q', pq[0].stream)
    requires Link(p, q', pq[1..], qp, pq[0].stream)
    ensures Joint(p, q', pq[1..], qp)
  {
    var id := pq[0].stream;
    JointSwap(p, q, pq, qp);
    LinkSwap(p, q', pq[1..], qp, id);
    forall k | k != id ensures Sel(pq[1..], k) == Sel(pq, k) {
      SelTail(pq, k);
    }
    hide PeerOk, Link, Sel;
    JointStep(q, p, qp, pq, q', qp, pq[1..], id);
    JointSwap(q', p, qp, pq[1..]);
  }

  /** A frame under way belongs to a stream its sender knows. */
  lemma UnderWay(p: Peer, q: Peer, pq: seq<Frame>, qp: seq<Frame>)
    requires Joint(p, q, pq, qp) && pq != []
    ensures var f := pq[0];
            && Known(p, f.stream) && f.stream != 0 && CarrierKind(f.kind, q.dial)
            && (!Known(q, f.stream) ==> q.dial && (f.kind == OPEN || f.kind == RESET))
            && (f.kind == OPEN ==> !Known(q, f.stream))
  {
    var f := pq[0];
    assert Link(p, q, pq, qp, f.stream);
    SelTail(pq, f.stream);
    hide Sel, Scan, StreamOk, Listed;
    assert CarrierKind(Sel(pq, f.stream)[0].kind, q.dial);
  }

  /** An OPEN under way has its format; a RESET under way is for a stream that the server never met exactly when the
      client gave it up with its OPEN unsent. */
  lemma UnderWayStarts(p: Peer, q: Peer, pq: seq<Frame>, qp: seq<Frame>)
    requires Joint(p, q, pq, qp) && pq != []
    ensures var f := pq[0];
            && (f.kind == OPEN ==> OpenFrame(f, f.stream))
            && (f.kind == RESET && q.dial ==>
                  (!Known(q, f.stream) <==> f.stream in p.retired && p.retired[f.stream].open.Some?))
  {
    var f := pq[0];
    assert Link(p, q, pq, qp, f.stream);
    assert f.stream in p.retired ==> f.stream !in p.streams;
    SelTail(pq, f.stream);
    UnderWay(p, q, pq, qp);
    if f.kind == OPEN {
      FreshOk(f.stream, q.send, q.window);
      OpenScans(View(p, f.stream), View(q, f.stream), Sel(pq, f.stream), Sel(qp, f.stream), p, q);
    }
    hide Sel, Scan, StreamOk, Listed, Flow;
  }

  lemma OpenScans(x: Side, y: Side, f: seq<Frame>, g: seq<Frame>, p: Peer, q: Peer)
    requires Flows(x, y, f, g, p, q) && y.live && f != [] && f[0].kind == OPEN
    ensures f[0].sequence == 0 && |f[0].body| <= MAX_AUTHORITY
  {
    assert Scan(Reached(y.s.rx), f).Some?;
    FirstScans(Reached(y.s.rx), f);
  }

  lemma SameSet(a: set<u32>, b: set<u32>)
    requires a <= b && |a| >= |b|
    ensures a == b
  {
    assert b == a + (b - a);
  }

  /** A client never has more than 32 streams, so a server finds its table full only when it still has one that the client
      has retired: a client whose table is full has its newest stream in it, and that one the server has yet to meet. */
  lemma FullTableLingers(p: Peer, q: Peer, pq: seq<Frame>, qp: seq<Frame>)
    requires Joint(p, q, pq, qp) && pq != [] && pq[0].kind == OPEN
    requires |q.streams| >= MAX_STREAMS && q.highest < pq[0].stream
    ensures Lingers(p, q)
  {
    hide StreamOk, Listed, Link, Lingers;
    UnderWay(p, q, pq, qp);
    if !Lingers(p, q) {
      SharedTable(p, q, pq, qp);
      assert false;
    }
  }

  lemma SharedTable(p: Peer, q: Peer, pq: seq<Frame>, qp: seq<Frame>)
    requires Joint(p, q, pq, qp) && q.dial && |q.streams| >= MAX_STREAMS && !Lingers(p, q)
    ensures p.highest in q.streams
  {
    hide StreamOk, Listed, Link;
    OkListed(p);
    OrderLength(p);
    forall id | id in q.streams ensures id in p.streams {
      assert Link(p, q, pq, qp, id);
      LiveIsKnown(p, q, pq, qp, id);
    }
    SameSet(q.streams.Keys, p.streams.Keys);
  }

  lemma LiveIsKnown(p: Peer, q: Peer, pq: seq<Frame>, qp: seq<Frame>, id: u32)
    requires Link(p, q, pq, qp, id) && q.dial && id in q.streams
    ensures Known(p, id)
  {
    hide Flows, Sel, NoOpen;
  }

  /** What an honest receiver refuses, exactly. */
  lemma RefusedExactly(p: Peer, q: Peer, pq: seq<Frame>, qp: seq<Frame>, valid: seq<byte> -> bool)
    requires Joint(p, q, pq, qp) && pq != []
    requires pq[0].stream in q.streams && pq[0].kind != OPEN ==>
               !Accept(q.streams[pq[0].stream], pq[0], q.dial, q.send).Refused?
    ensures q.cursor <= |q.order|
    ensures ReceiveOne(q, pq[0], valid).None? <==> Excused(p, q, pq[0], valid)
  {
    hide StreamOk, Accept, Link;
    UnderWay(p, q, pq, qp);
    UnderWayStarts(p, q, pq, qp);
    assert pq[0].stream in q.retired ==> pq[0].stream <= q.highest;
    assert pq[0].stream in q.streams ==> pq[0].stream <= q.highest;
    if pq[0].kind == OPEN && |q.streams| >= MAX_STREAMS && q.highest < pq[0].stream {
      FullTableLingers(p, q, pq, qp);
    }
  }

  lemma NewElse(q: Peer, id: u32)
    requires id !in q.streams && id !in q.retired
    ensures SameElse(q, NewStream(q.(highest := id), id), id)
    ensures View(NewStream(q.(highest := id), id), id) == View(q, id)
  {
  }

  /** OPEN has arrived and is accepted: the stream is now known to both. */
  lemma LinkOpened(p: Peer, q: Peer, pq: seq<Frame>, qp: seq<Frame>)
    requires Joint(p, q, pq, qp) && pq != [] && pq[0].kind == OPEN && !Known(q, pq[0].stream)
    ensures Link(p, NewStream(q.(highest := pq[0].stream), pq[0].stream), pq[1..], qp, pq[0].stream)
  {
    hide Flow, Sel, PeerOk, Flows, CarrierKind;
    var id := pq[0].stream;
    UnderWay(p, q, pq, qp);
    assert Link(p, q, pq, qp, id);
    SelTail(pq, id);
    HeadPasses(View(p, id), View(q, id), Sel(pq, id), Sel(qp, id), p, q);
    NewElse(q, id);
    FlowsNew(View(p, id), View(q, id), Sel(pq[1..], id), Sel(qp, id), p, q, id);
  }

  lemma FlowsNew(x: Side, y: Side, f: seq<Frame>, g: seq<Frame>, p: Peer, q: Peer, id: u32)
    requires Flows(x, y, f, g, p, q)
    ensures Flows(x, y, f, g, p, NewStream(q.(highest := id), id))
  {
    hide Flow, Fresh;
  }

  /** A frame at the head of the channel that carries neither bytes nor credit moves nothing. */
  lemma HeadPasses(x: Side, y: Side, f: seq<Frame>, g: seq<Frame>, p: Peer, q: Peer)
    requires Flows(x, y, f, g, p, q) && y.live && f != []
    requires f[0].kind == OPEN || f[0].kind == RESET || f[0].kind == OPENED
    ensures Flows(x, y, f[1..], g, p, q)
  {
    hide Flow, Delivered, CreditsIn;
    FlowHead(x, y, f, g, p.send, q.dial);
    FlowReceive(x, y, y.s.rx, f, g, p.send, q.dial);
    BackUnchanged(y, y, x, g, f, q.send, p.dial);
  }

  /** A frame for a stream that the receiver no longer has, or will never have, changes nothing. */
  lemma LinkIgnored(p: Peer, q: Peer, pq: seq<Frame>, qp: seq<Frame>)
    requires Joint(p, q, pq, qp) && pq != [] && pq[0].kind != OPEN && pq[0].stream !in q.streams
    ensures Link(p, q, pq[1..], qp, pq[0].stream)
  {
    hide Flow, Sel, PeerOk, CarrierKind, Fresh;
    var id := pq[0].stream;
    UnderWay(p, q, pq, qp);
    assert Link(p, q, pq, qp, id);
    SelTail(pq, id);
    var x, y, a, b := View(p, id), View(q, id), Sel(pq, id), Sel(qp, id);
    if y.live {
      HeadPasses(x, y, a, b, p, q);
    } else {
      FlowIgnore(x, y, a, b, p.send, q.dial);
      FlowIgnoreBack(y, x, b, a, q.send, p.dial);
    }
  }

  /** One frame is taken off the channel: an honest receiver refuses exactly what is excused; everything else keeps
      the two peers in step. */
  lemma JointReceiveOne(p: Peer, q: Peer, pq: seq<Frame>, qp: seq<Frame>, valid: seq<byte> -> bool)
    requires Joint(p, q, pq, qp) && pq != []
    ensures q.cursor <= |q.order| && (ReceiveOne(q, pq[0], valid).None? <==> Excused(p, q, pq[0], valid))
    ensures ReceiveOne(q, pq[0], valid).Some? ==> Joint(p, ReceiveOne(q, pq[0], valid).value, pq[1..], qp)
  {
    hide StreamOk, Accept, Excused;
    var f := pq[0];
    var id := f.stream;
    UnderWay(p, q, pq, qp);
    assert id in q.retired ==> id <= q.highest;
    if f.kind != OPEN && id in q.streams {
      assert Link(p, q, pq, qp, id);
      LinkReceive(p, q, pq, qp, id);
    }
    RefusedExactly(p, q, pq, qp, valid);
    if ReceiveOne(q, f, valid).Some? {
      ReceiveOneKeeps(q, f, valid);
    }
    if f.kind == OPEN {
      LinkOpened(p, q, pq, qp);
      NewElse(q, id);
      hide Joint, Link, PeerOk;
      if ReceiveOne(q, f, valid).Some? {
        JointTaken(p, q, pq, qp, ReceiveOne(q, f, valid).value);
      }
    } else if id in q.streams {
      RemoveElse(q, id);
      var a := Accept(q.streams[id], f, q.dial, q.send);
      hide Joint, Link, PeerOk, Accept, Remove, Listed;
      if a.Kept? {
        UpdateElse(q, id, a.s);
      }
      JointTaken(p, q, pq, qp, ReceiveOne(q, f, valid).value);
    } else {
      LinkIgnored(p, q, pq, qp);
      hide Joint, Link, PeerOk;
      if ReceiveOne(q, f, valid).Some? {
        JointTaken(p, q, pq, qp, q);
      }
    }
  }

  /** The state in which Receive meets the first frame it refuses. */
  function Refusal(q: Peer, frames: seq<Frame>, valid: seq<byte> -> bool): Option<(Peer, Frame)>
    requires q.cursor <= |q.order|
    decreases |frames|
  {
    if frames == [] then None
    else
      match ReceiveOne(q, frames[0], valid)
      case None => Some((q, frames[0]))
      case Some(q') => Refusal(q', frames[1..], valid)
  }

  /** A whole cell is received. */
  lemma {:induction false} JointReceive(p: Peer, q: Peer, cell: seq<Frame>, later: seq<Frame>, qp: seq<Frame>,
                                        valid: seq<byte> -> bool)
    requires Joint(p, q, cell + later, qp)
    ensures var (q', ok) := ReceiveAll(q, cell, valid);
            && (ok ==> Joint(p, q', later, qp))
            && (!ok <==> Refusal(q, cell, valid).Some?)
            && (!ok ==> Excused(p, Refusal(q, cell, valid).value.0, Refusal(q, cell, valid).value.1, valid))
    decreases |cell|
  {
    assert PeerOk(q);
    if cell == [] {
      assert cell + later == later;
    } else {
      var pq := cell + later;
      assert pq[0] == cell[0] && pq[1..] == cell[1..] + later;
      JointReceiveOne(p, q, pq, qp, valid);
      hide Joint, PeerOk, Excused, ReceiveOne;
      match ReceiveOne(q, cell[0], valid)
      case None =>
      case Some(q') => JointReceive(p, q', cell[1..], later, qp, valid);
    }
  }
}
