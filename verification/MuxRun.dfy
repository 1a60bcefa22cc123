/** Whole runs of two multiplexers: any interleaving of socket reads and writes, cells taken and cells received, dials,
    failures and retirements (internal/mux/peer.go). One `take` is atomic with respect to the readers. */
module MuxRun {
  import opened Bytes
  import opened Cell
  import opened MuxStream
  import opened MuxPeer
  import opened MuxScheduler
  import opened MuxFlow
  import opened MuxPair

  /** What can happen at one peer. */
  datatype Event =
    | Open(authority: seq<byte>)
    | DialDone(id: u32)
    | Failed(id: u32)
    | SocketRead(id: u32, data: seq<byte>)
    | SocketEof(id: u32)
    | Popped(id: u32)
    | SocketWrite(id: u32, n: nat)
    | ChunkDone(id: u32)
    | FinDone(id: u32)
    | TakeCell(budget: int, controlsOnly: bool)
    | ReceiveCell

  predicate Attached(p: Peer, id: u32) {
    id in p.streams && p.streams[id].attached
  }

  /** The guard under which the code performs the event. */
  predicate Enabled(p: Peer, inbox: seq<seq<Frame>>, ev: Event) {
    match ev
    case Open(authority) => CanOpen(p, authority)
    case DialDone(id) => p.dial && id in p.streams && !p.streams[id].attached
    case Failed(id) => id in p.streams
    case SocketRead(id, data) => Attached(p, id) && CanRead(p.streams[id].tx) && 0 < |data| <= STREAM_CHUNK
    case SocketEof(id) => Attached(p, id) && CanRead(p.streams[id].tx)
    case Popped(id) => Attached(p, id) && CanPop(p.streams[id].rx)
    case SocketWrite(id, n) => Attached(p, id) && CanWrite(p.streams[id].rx, n)
    case ChunkDone(id) => Attached(p, id) && CanFinishChunk(p.streams[id].rx)
    case FinDone(id) => Attached(p, id) && CanFinishFin(p.streams[id].rx)
    case TakeCell(budget, controlsOnly) => !p.closed
    case ReceiveCell => inbox != []
  }

  function SetTx(p: Peer, id: u32, t: Outgoing): Peer
    requires id in p.streams
  {
    Update(p, id, p.streams[id].(tx := t))
  }

  function SetRx(p: Peer, id: u32, r: Incoming): Peer
    requires id in p.streams
  {
    Update(p, id, p.streams[id].(rx := r))
  }

  /** The peer after a local event. */
  function Local(p: Peer, ev: Event): Peer
    requires Enabled(p, [], ev) && p.cursor <= |p.order|
  {
    match ev
    case Open(authority) => OpenStream(p, authority)
    case DialDone(id) => Dialed(p, id)
    case Failed(id) => Fail(p, id)
    case SocketRead(id, data) => SetTx(p, id, ReadData(p.streams[id].tx, id, data))
    case SocketEof(id) => SetTx(p, id, ReadEof(p.streams[id].tx, id))
    case Popped(id) => SetRx(p, id, PopInput(p.streams[id].rx))
    case SocketWrite(id, n) => SetRx(p, id, WriteSome(p.streams[id].rx, n))
    case ChunkDone(id) => SetRx(p, id, FinishChunk(p.streams[id].rx))
    case FinDone(id) => WriterFin(p, id)
    case TakeCell(budget, controlsOnly) => p
  }

  lemma JointReader(p: Peer, q: Peer, pq: seq<Frame>, qp: seq<Frame>, ev: Event)
    requires Joint(p, q, pq, qp) && Enabled(p, [], ev) && (ev.SocketRead? || ev.SocketEof?)
    ensures Joint(Local(p, ev), q, pq, qp)
  {
    var id := ev.id;
    var t := if ev.SocketRead? then ReadData(p.streams[id].tx, id, ev.data) else ReadEof(p.streams[id].tx, id);
    assert ev.SocketRead? ==> ev.data != [];
    hide Joint, ReadData, ReadEof, Update;
    JointRead(p, q, pq, qp, id, t);
  }

  lemma JointWriter(p: Peer, q: Peer, pq: seq<Frame>, qp: seq<Frame>, ev: Event)
    requires Joint(p, q, pq, qp) && Enabled(p, [], ev) && (ev.Popped? || ev.SocketWrite?)
    ensures Joint(Local(p, ev), q, pq, qp)
  {
    hide ReceiverOk, SenderOk, Update, PeerOk, Listed, Link;
    var id := ev.id;
    var r := p.streams[id].rx;
    PeerStream(p, id);
    if ev.Popped? {
      PopInputKeeps(r, id, p.window);
      JointRx(p, q, pq, qp, id, PopInput(r));
    } else {
      WriterOpen(p.streams[id], id, p.window);
      WriteSomeKeeps(r, id, p.window, ev.n);
      JointRx(p, q, pq, qp, id, WriteSome(r, ev.n));
    }
  }

  lemma JointListed(p: Peer, q: Peer, pq: seq<Frame>, qp: seq<Frame>)
    requires Joint(p, q, pq, qp)
    ensures Listed(p) && p.cursor <= |p.order|
  {
    hide PeerOk, Listed, Link;
    OkListed(p);
    CursorInside(p);
  }

  lemma DialGreets(p: Peer, q: Peer, pq: seq<Frame>, qp: seq<Frame>, id: u32)
    requires Joint(p, q, pq, qp) && id in p.streams
    ensures Greets(p.streams[id].(reset := true))
    ensures !p.streams[id].attached ==> Greets(p.streams[id].(ack := true, attached := true))
  {
    hide PeerOk, Link, SenderOk, ReceiverOk;
    PeerStream(p, id);
    if !p.streams[id].attached {
      Silence(p.streams[id], id, p.window);
    }
  }

  lemma JointLocal(p: Peer, q: Peer, pq: seq<Frame>, qp: seq<Frame>, ev: Event)
    requires Joint(p, q, pq, qp) && Enabled(p, [], ev)
    ensures Listed(p) && Joint(Local(p, ev), q, pq, qp)
  {
    hide Joint, Update, Listed, ReadData, ReadEof, PopInput, WriteSome, FinishChunk, OpenStream, WriterFin, CanOpen;
    JointListed(p, q, pq, qp);
    match ev
    case Open(authority) => JointOpen(p, q, pq, qp, authority);
    case DialDone(id) =>
      DialGreets(p, q, pq, qp, id);
      JointFlags(p, q, pq, qp, id, p.streams[id].(ack := true, attached := true));
    case Failed(id) =>
      DialGreets(p, q, pq, qp, id);
      JointFlags(p, q, pq, qp, id, p.streams[id].(reset := true));
    case SocketRead(id, data) => JointReader(p, q, pq, qp, ev);
    case SocketEof(id) => JointReader(p, q, pq, qp, ev);
    case Popped(id) => JointWriter(p, q, pq, qp, ev);
    case SocketWrite(id, n) => JointWriter(p, q, pq, qp, ev);
    case ChunkDone(id) => JointFinishChunk(p, q, pq, qp, id);
    case FinDone(id) => JointWriterFin(p, q, pq, qp, id);
    case TakeCell(budget, controlsOnly) =>
  }

  /** The channels carry cells; the invariant speaks of their frames. */
  function Flat(cells: seq<seq<Frame>>): seq<Frame> {
    if cells == [] then [] else cells[0] + Flat(cells[1..])
  }

  lemma {:induction false} FlatSnoc(cells: seq<seq<Frame>>, cell: seq<Frame>)
    ensures Flat(cells + [cell]) == Flat(cells) + cell
  {
    if cells == [] {
      assert [cell][1..] == [];
      assert [] + [cell] == [cell];
      assert Flat([cell]) == cell + [];
    } else {
      assert (cells + [cell])[1..] == cells[1..] + [cell];
      FlatSnoc(cells[1..], cell);
      Assoc(cells[0], Flat(cells[1..]), cell);
    }
  }

  /** Two peers, the cells from a to b and from b to a, and the refusal that ended the session, if any: the receiver at
      that moment and the frame. */
  datatype Net = Net(a: Peer, b: Peer, ab: seq<seq<Frame>>, ba: seq<seq<Frame>>, refused: Option<(Peer, Frame)>)

  /** The client's receive window is the server's send window and the other way round. */
  function Start(clientWindow: u32, serverWindow: u32): Net {
    Net(NewPeer(false, clientWindow, serverWindow), NewPeer(true, serverWindow, clientWindow), [], [], None)
  }

  function Mirror(n: Net): Net {
    Net(n.b, n.a, n.ba, n.ab, n.refused)
  }

  /** An event at peer a. */
  function ActA(n: Net, ev: Event, valid: seq<byte> -> bool): Net
    requires Listed(n.a)
  {
    if n.refused.Some? || !Enabled(n.a, n.ba, ev) then n
    else match ev
      case TakeCell(budget, controlsOnly) =>
        var (a, fs) := Take(n.a, budget, controlsOnly);
        n.(a := a, ab := n.ab + [fs])
      case ReceiveCell =>
        var (a, ok) := ReceiveAll(n.a, n.ba[0], valid);
        if ok then n.(a := a, ba := n.ba[1..]) else n.(refused := Refusal(n.a, n.ba[0], valid))
      case _ => n.(a := Local(n.a, ev))
  }

  function Act(n: Net, atA: bool, ev: Event, valid: seq<byte> -> bool): Net
    requires Listed(n.a) && Listed(n.b)
  {
    if atA then ActA(n, ev, valid) else Mirror(ActA(Mirror(n), ev, valid))
  }

  ghost predicate Inv(n: Net, valid: seq<byte> -> bool) {
    && Joint(n.a, n.b, Flat(n.ab), Flat(n.ba))
    && (n.refused.Some? ==>
          var (q, f) := n.refused.value; Excused(if n.a.dial then n.b else n.a, q, f, valid))
  }

  lemma InvListed(n: Net, valid: seq<byte> -> bool)
    requires Inv(n, valid)
    ensures Listed(n.a) && Listed(n.b)
  {
    OkListed(n.a);
    OkListed(n.b);
  }

  lemma StartInv(clientWindow: u32, serverWindow: u32, valid: seq<byte> -> bool)
    ensures Inv(Start(clientWindow, serverWindow), valid)
  {
    var n := Start(clientWindow, serverWindow);
    forall id ensures Link(n.a, n.b, [], [], id) {
    }
  }

  lemma TakeOpen(p: Peer, inbox: seq<seq<Frame>>, ev: Event)
    requires Enabled(p, inbox, ev) && ev.TakeCell?
    ensures !p.closed
  {
  }

  lemma FlatHead(inbox: seq<seq<Frame>>, p: Peer, ev: Event)
    requires Enabled(p, inbox, ev) && ev.ReceiveCell?
    ensures inbox != [] && Flat(inbox) == inbox[0] + Flat(inbox[1..])
  {
  }

  lemma LocalEnabled(p: Peer, inbox: seq<seq<Frame>>, ev: Event)
    requires Enabled(p, inbox, ev) && !ev.ReceiveCell?
    ensures Enabled(p, [], ev)
  {
    hide CanOpen, Attached, CanRead, CanPop, CanWrite, CanFinishChunk, CanFinishFin;
  }

  lemma OnlyServerRefuses(n: Net, refused: (Peer, Frame), valid: seq<byte> -> bool)
    requires Joint(n.a, n.b, Flat(n.ab), Flat(n.ba)) && Excused(n.b, refused.0, refused.1, valid)
    ensures n.a.dial
  {
    hide PeerOk, Link;
  }

  lemma ActAInv(n: Net, ev: Event, valid: seq<byte> -> bool)
    requires Inv(n, valid) && Listed(n.a)
    ensures Inv(ActA(n, ev, valid), valid)
  {
    hide Joint, Listed, Local, Enabled, Excused, Flat, TakenFrames, LastPass, ReceiveAll, Refusal;
    if n.refused.None? && Enabled(n.a, n.ba, ev) {
      match ev
      case TakeCell(budget, controlsOnly) =>
        var x := Pass(n.a, budget, 0, 0);
        TakeOpen(n.a, n.ba, ev);
        JointTake(x, controlsOnly, n.b, Flat(n.ab), Flat(n.ba));
        FlatSnoc(n.ab, TakenFrames(x, controlsOnly));
      case ReceiveCell =>
        FlatHead(n.ba, n.a, ev);
        JointListed(n.a, n.b, Flat(n.ab), Flat(n.ba));
        JointSwap(n.a, n.b, Flat(n.ab), Flat(n.ba));
        JointReceive(n.b, n.a, n.ba[0], Flat(n.ba[1..]), Flat(n.ab), valid);
        var (a, ok) := ReceiveAll(n.a, n.ba[0], valid);
        if ok {
          JointSwap(n.b, a, Flat(n.ba[1..]), Flat(n.ab));
        } else {
          OnlyServerRefuses(n, Refusal(n.a, n.ba[0], valid).value, valid);
        }
      case _ =>
        LocalEnabled(n.a, n.ba, ev);
        JointLocal(n.a, n.b, Flat(n.ab), Flat(n.ba), ev);
    }
  }

  lemma ActInv(n: Net, atA: bool, ev: Event, valid: seq<byte> -> bool)
    requires Inv(n, valid) && Listed(n.a) && Listed(n.b)
    ensures Inv(Act(n, atA, ev, valid), valid)
  {
    if atA {
      ActAInv(n, ev, valid);
    } else {
      JointSwap(n.a, n.b, Flat(n.ab), Flat(n.ba));
      ActAInv(Mirror(n), ev, valid);
      var m := ActA(Mirror(n), ev, valid);
      JointSwap(m.a, m.b, Flat(m.ab), Flat(m.ba));
    }
  }

  /** The states a run goes through; `events` says which peer acts (true: a, the client) and what it does. */
  ghost predicate Reaches(n: Net, events: seq<(bool, Event)>, valid: seq<byte> -> bool, m: Net)
    decreases |events|
  {
    if events == [] then m == n
    else
      Listed(n.a) && Listed(n.b) && Reaches(Act(n, events[0].0, events[0].1, valid), events[1..], valid, m)
  }

  lemma {:induction false} RunInv(n: Net, events: seq<(bool, Event)>, valid: seq<byte> -> bool, m: Net)
    requires Inv(n, valid) && Reaches(n, events, valid, m)
    ensures Inv(m, valid)
    decreases |events|
  {
    if events != [] {
      ActInv(n, events[0].0, events[0].1, valid);
      hide Inv, Act;
      RunInv(Act(n, events[0].0, events[0].1, valid), events[1..], valid, m);
    }
  }

  /** Every list of events is a run. */
  lemma {:induction false} RunsExist(n: Net, events: seq<(bool, Event)>, valid: seq<byte> -> bool) returns (m: Net)
    requires Inv(n, valid)
    ensures Reaches(n, events, valid, m)
    decreases |events|
  {
    if events == [] {
      m := n;
    } else {
      InvListed(n, valid);
      ActInv(n, events[0].0, events[0].1, valid);
      hide Inv, Act;
      m := RunsExist(Act(n, events[0].0, events[0].1, valid), events[1..], valid);
    }
  }

  // ---------------------------------------------------------------- what no event changes

  predicate SameSettings(p: Peer, q: Peer) {
    q.window == p.window && q.send == p.send && q.dial == p.dial && q.closed == p.closed
  }

  lemma TakeSettings(x: Pass, controlsOnly: bool)
    requires Listed(x.p)
    ensures SameSettings(x.p, LastPass(x, controlsOnly).p)
    decreases x.budget, |x.p.order|, |x.p.order| - x.misses
  {
    if Running(x) {
      var y := TurnPass(x, controlsOnly);
      assert SameSettings(x.p, y.p) by { hide VisitStream, Listed; }
      hide TurnPass, Listed;
      TakeSettings(y, controlsOnly);
    }
  }

  lemma {:induction false} ReceiveSettings(p: Peer, frames: seq<Frame>, valid: seq<byte> -> bool)
    requires p.cursor <= |p.order|
    ensures SameSettings(p, ReceiveAll(p, frames, valid).0)
    decreases |frames|
  {
    if frames != [] {
      var r := ReceiveOne(p, frames[0], valid);
      if r.Some? {
        assert SameSettings(p, r.value) by { hide Accept; }
        hide ReceiveOne;
        ReceiveSettings(r.value, frames[1..], valid);
      }
    }
  }

  lemma ActSettings(n: Net, ev: Event, valid: seq<byte> -> bool)
    requires Listed(n.a)
    ensures var m := ActA(n, ev, valid); SameSettings(n.a, m.a) && m.b == n.b
  {
    hide Listed, Enabled, LastPass, TakenFrames, ReceiveAll, Refusal;
    if n.refused.None? && Enabled(n.a, n.ba, ev) {
      match ev
      case TakeCell(budget, controlsOnly) => TakeSettings(Pass(n.a, budget, 0, 0), controlsOnly);
      case ReceiveCell =>
        FlatHead(n.ba, n.a, ev);
        CursorInside(n.a);
        ReceiveSettings(n.a, n.ba[0], valid);
      case _ =>
        LocalEnabled(n.a, n.ba, ev);
        LocalSettings(n.a, ev);
    }
  }

  lemma LocalSettings(p: Peer, ev: Event)
    requires Enabled(p, [], ev) && Listed(p)
    ensures SameSettings(p, Local(p, ev))
  {
    hide Listed, ReadData, ReadEof, PopInput, WriteSome, FinishChunk, FinishFin, IndexOf;
  }

  /** Nothing that a peer does by itself closes it, and without streams only Open does anything. */
  lemma LocalElse(p: Peer, ev: Event)
    requires Enabled(p, [], ev) && Listed(p)
    ensures Local(p, ev).closed == p.closed
    ensures p.streams == map[] && !ev.Open? ==> Local(p, ev) == p
  {
    hide Listed, ReadData, ReadEof, PopInput, WriteSome, FinishChunk, FinishFin, IndexOf;
  }

  lemma {:induction false} RunSettings(n: Net, events: seq<(bool, Event)>, valid: seq<byte> -> bool, m: Net)
    requires Reaches(n, events, valid, m)
    ensures SameSettings(n.a, m.a) && SameSettings(n.b, m.b)
    decreases |events|
  {
    if events != [] {
      var (atA, ev) := events[0];
      ActSettings(n, ev, valid);
      ActSettings(Mirror(n), ev, valid);
      hide ActA;
      RunSettings(Act(n, atA, ev, valid), events[1..], valid, m);
    }
  }

  // ---------------------------------------------------------------- the theorems about runs

  /** What a peer has read from, and written to, the local socket of a stream, now or before it retired the stream. */
  function SocketIn(p: Peer, id: u32): seq<byte> {
    View(p, id).s.tx.read
  }

  function SocketOut(p: Peer, id: u32): seq<byte> {
    View(p, id).s.rx.written
  }

  predicate SocketEnded(p: Peer, id: u32) {
    View(p, id).s.tx.eof
  }

  predicate HalfClosed(p: Peer, id: u32) {
    View(p, id).s.rx.remoteFinWritten
  }

  lemma JointDelivery(p: Peer, q: Peer, pq: seq<Frame>, qp: seq<Frame>, id: u32)
    requires Joint(p, q, pq, qp)
    ensures SocketOut(q, id) <= SocketIn(p, id)
    ensures HalfClosed(q, id) ==> SocketOut(q, id) == SocketIn(p, id) && SocketEnded(p, id)
  {
    assert Link(p, q, pq, qp, id);
    FreshOk(id, p.send, p.window);
    FreshOk(id, q.send, q.window);
    FlowPrefix(View(p, id), View(q, id), Sel(pq, id), Sel(qp, id), p.send, q.dial, id, q.window);
  }

  /** In every reachable state and for every stream, the bytes written to the receiving socket are a prefix of the
      bytes read from the sending socket, and a half-close is performed only after all of them and the sender's end of
      file: in both directions, even after either side has retired the stream. */
  lemma Delivery(clientWindow: u32, serverWindow: u32, events: seq<(bool, Event)>, valid: seq<byte> -> bool, n: Net,
                 id: u32)
    requires Reaches(Start(clientWindow, serverWindow), events, valid, n)
    ensures SocketOut(n.b, id) <= SocketIn(n.a, id) && SocketOut(n.a, id) <= SocketIn(n.b, id)
    ensures HalfClosed(n.b, id) ==> SocketOut(n.b, id) == SocketIn(n.a, id) && SocketEnded(n.a, id)
    ensures HalfClosed(n.a, id) ==> SocketOut(n.a, id) == SocketIn(n.b, id) && SocketEnded(n.b, id)
  {
    StartInv(clientWindow, serverWindow, valid);
    RunInv(Start(clientWindow, serverWindow), events, valid, n);
    hide Joint;
    JointSwap(n.a, n.b, Flat(n.ab), Flat(n.ba));
    JointDelivery(n.a, n.b, Flat(n.ab), Flat(n.ba), id);
    JointDelivery(n.b, n.a, Flat(n.ba), Flat(n.ab), id);
  }

  /** The books of one direction of a live stream: sender credit, payload under way, payload held by the receiver,
      the receiver's grant and the CREDIT under way make up the window; the budget is the window less what is held. */
  predicate Balanced(p: Peer, q: Peer, pq: seq<Frame>, qp: seq<Frame>, id: u32)
    requires id in p.streams && id in q.streams
  {
    var t, r := p.streams[id].tx, q.streams[id].rx;
    && t.credit + DataLength(Sel(pq, id)) + Held(r) + r.grant + CreditsIn(Sel(qp, id)) == p.send
    && r.budget + Held(r) == q.window
  }

  lemma JointBalanced(p: Peer, q: Peer, pq: seq<Frame>, qp: seq<Frame>, id: u32)
    requires Joint(p, q, pq, qp) && id in p.streams && id in q.streams
    ensures Balanced(p, q, pq, qp, id)
  {
    assert Link(p, q, pq, qp, id);
    assert StreamOk(q.streams[id], id, q.window);
    FlowConserves(View(p, id), View(q, id), Sel(pq, id), Sel(qp, id), p.send, q.dial, id, q.window);
  }

  /** Credit is conserved in every reachable state, for every stream live on both sides, in both directions. */
  lemma Conservation(clientWindow: u32, serverWindow: u32, events: seq<(bool, Event)>, valid: seq<byte> -> bool,
                     n: Net, id: u32)
    requires Reaches(Start(clientWindow, serverWindow), events, valid, n)
    requires id in n.a.streams && id in n.b.streams
    ensures Balanced(n.a, n.b, Flat(n.ab), Flat(n.ba), id)
    ensures Balanced(n.b, n.a, Flat(n.ba), Flat(n.ab), id)
    ensures n.a.send == serverWindow == n.b.window && n.b.send == clientWindow == n.a.window
  {
    StartInv(clientWindow, serverWindow, valid);
    RunInv(Start(clientWindow, serverWindow), events, valid, n);
    RunSettings(Start(clientWindow, serverWindow), events, valid, n);
    hide Balanced;
    JointSwap(n.a, n.b, Flat(n.ab), Flat(n.ba));
    JointBalanced(n.a, n.b, Flat(n.ab), Flat(n.ba), id);
    JointBalanced(n.b, n.a, Flat(n.ba), Flat(n.ab), id);
  }

  /** What can be refused in any run, exactly by whom and why. Only the server refuses, and only two kinds of frames: an
      OPEN that comes after a higher number, names nothing or an illegal authority, or finds the table full while a stream
      in it is retired at the client; and the RESET of a stream that the client gave up before its OPEN was sent. No DATA, FIN or
      CREDIT is ever refused. */
  lemma HonestRefusals(clientWindow: u32, serverWindow: u32, events: seq<(bool, Event)>, valid: seq<byte> -> bool,
                       n: Net)
    requires Reaches(Start(clientWindow, serverWindow), events, valid, n) && n.refused.Some?
    ensures var (q, f) := n.refused.value;
            && q.dial && (f.kind == OPEN || f.kind == RESET)
            && (f.kind == OPEN ==>
                  || q.highest >= f.stream || f.body == [] || !valid(f.body)
                  || (|q.streams| >= MAX_STREAMS && Lingers(n.a, q)))
            && (f.kind == RESET ==>
                  f.stream in n.a.retired && n.a.retired[f.stream].open.Some? && q.highest < f.stream)
  {
    hide Joint, Reaches, Lingers;
    StartInv(clientWindow, serverWindow, valid);
    RunInv(Start(clientWindow, serverWindow), events, valid, n);
    RunSettings(Start(clientWindow, serverWindow), events, valid, n);
  }

  /** What a peer holds: each stream's queue fits the one newStream allocates, its data chunks with the writer's are
      at most one more than the window has, at most 32 streams are live, each listed once for the scheduler. */
  predicate Bounded(p: Peer, id: u32)
    requires id in p.streams
  {
    && |p.streams[id].rx.input| <= p.window / STREAM_CHUNK + 1
    && ChunksHeld(p.streams[id].rx) <= p.window / STREAM_CHUNK + 1
    && |p.order| == |p.streams| <= MAX_STREAMS && Distinct(p.order)
    && p.streams[id].tx.queuedBytes == |SocketIn(p, id)| - |p.streams[id].tx.sent|
  }

  lemma PeerBounded(p: Peer, id: u32)
    requires PeerOk(p) && id in p.streams && p.window % STREAM_CHUNK == 0
    ensures Bounded(p, id)
  {
    assert StreamOk(p.streams[id], id, p.window);
    InputBounded(p.streams[id].rx, id, p.window);
    OrderLength(p);
  }

  /** The bounds hold on both sides in every reachable state. */
  lemma QueuesBounded(clientWindow: u32, serverWindow: u32, events: seq<(bool, Event)>, valid: seq<byte> -> bool,
                      n: Net, id: u32)
    requires Reaches(Start(clientWindow, serverWindow), events, valid, n)
    ensures n.a.window == clientWindow && n.b.window == serverWindow
    ensures clientWindow % STREAM_CHUNK == 0 && id in n.a.streams ==> Bounded(n.a, id)
    ensures serverWindow % STREAM_CHUNK == 0 && id in n.b.streams ==> Bounded(n.b, id)
  {
    hide Bounded;
    StartInv(clientWindow, serverWindow, valid);
    RunInv(Start(clientWindow, serverWindow), events, valid, n);
    RunSettings(Start(clientWindow, serverWindow), events, valid, n);
    if clientWindow % STREAM_CHUNK == 0 && id in n.a.streams {
      PeerBounded(n.a, id);
    }
    if serverWindow % STREAM_CHUNK == 0 && id in n.b.streams {
      PeerBounded(n.b, id);
    }
  }

  // ---------------------------------------------------------------- pressure and quiescence

  /** The bytes of one stream that `pressure` counts as sendable: nothing below the credit floor unless it is the
      whole rest of the queue. */
  function ReadyBytes(s: Stream, floor: int): int {
    var ready := Min(s.tx.queuedBytes, s.tx.credit);
    if s.reset || s.tx.localFinSent || (ready < floor && s.tx.queuedBytes > ready) then 0 else ready
  }

  /** When everything sent has been delivered and acknowledged, the sender has its whole window again, so that the
      floor cannot hold back queued data for ever. */
  lemma QuiescentCredit(p: Peer, q: Peer, pq: seq<Frame>, qp: seq<Frame>, id: u32, floor: int)
    requires Joint(p, q, pq, qp) && id in p.streams && id in q.streams
    requires DataLength(Sel(pq, id)) == 0 && CreditsIn(Sel(qp, id)) == 0
    requires Held(q.streams[id].rx) == 0 && q.streams[id].rx.grant == 0
    ensures p.streams[id].tx.credit == p.send
    ensures var s := p.streams[id];
            (floor <= p.send && 0 < p.send && s.tx.queuedBytes > 0 && !s.reset && !s.tx.localFinSent)
            ==> ReadyBytes(s, floor) > 0
  {
    hide Joint, Sel, DataLength, CreditsIn, Held;
    JointBalanced(p, q, pq, qp, id);
  }

  // ---------------------------------------------------------------- what may be refused, exactly

  /** A well-formed OPEN with a legal authority. */
  predicate WellFormed(f: Frame, valid: seq<byte> -> bool) {
    f.sequence == 0 && 0 < |f.body| <= MAX_AUTHORITY && valid(f.body)
  }

  /** Well-formed frames whose IDs rise above h. */
  predicate Rising(h: u32, opens: seq<Frame>, valid: seq<byte> -> bool) {
    && (forall i :: 0 <= i < |opens| ==> h < opens[i].stream && WellFormed(opens[i], valid))
    && (forall i, j :: 0 <= i < j < |opens| ==> opens[i].stream < opens[j].stream)
  }

  lemma RisingHead(h: u32, opens: seq<Frame>, valid: seq<byte> -> bool)
    requires opens != []
    ensures Rising(h, opens, valid) <==>
              h < opens[0].stream && WellFormed(opens[0], valid) && Rising(opens[0].stream, opens[1..], valid)
  {
    hide WellFormed;
    var rest := opens[1..];
    if Rising(h, opens, valid) {
      forall i | 0 <= i < |rest| ensures opens[0].stream < rest[i].stream && WellFormed(rest[i], valid) {
        assert rest[i] == opens[i + 1];
      }
    }
    if h < opens[0].stream && WellFormed(opens[0], valid) && Rising(opens[0].stream, rest, valid) {
      assert forall i :: 0 < i < |opens| ==> opens[i] == rest[i - 1];
    }
  }

  /** OPEN frames in a row are all accepted exactly when their IDs rise above everything the receiver has seen, they
      are well formed and the table has room. */
  lemma {:induction false} OpensAccepted(q: Peer, opens: seq<Frame>, valid: seq<byte> -> bool)
    requires PeerOk(q) && q.dial && forall i :: 0 <= i < |opens| ==> opens[i].kind == OPEN
    ensures ReceiveAll(q, opens, valid).1 <==> |q.streams| + |opens| <= MAX_STREAMS && Rising(q.highest, opens, valid)
    decreases |opens|
  {
    hide PeerOk, Rising, ReceiveOne, WellFormed;
    StreamsFit(q);
    if opens == [] {
      NoneRise(q.highest, valid);
    } else {
      OpenAccepted(q, opens[0], valid);
      RisingHead(q.highest, opens, valid);
      if ReceiveOne(q, opens[0], valid).Some? {
        ReceiveOneKeeps(q, opens[0], valid);
        OpensAccepted(ReceiveOne(q, opens[0], valid).value, opens[1..], valid);
      }
    }
  }

  lemma NoneRise(h: u32, valid: seq<byte> -> bool)
    ensures Rising(h, [], valid)
  {
  }

  lemma StreamsFit(q: Peer)
    requires PeerOk(q)
    ensures |q.streams| <= MAX_STREAMS && q.cursor <= |q.order|
  {
    hide StreamOk;
    OrderLength(q);
  }

  lemma OpenAccepted(q: Peer, f: Frame, valid: seq<byte> -> bool)
    requires PeerOk(q) && q.cursor <= |q.order| && q.dial && f.kind == OPEN
    ensures ReceiveOne(q, f, valid).Some? <==>
              q.highest < f.stream && WellFormed(f, valid) && |q.streams| < MAX_STREAMS
    ensures ReceiveOne(q, f, valid).Some? ==>
              var r := ReceiveOne(q, f, valid).value;
              r.highest == f.stream && r.dial && |r.streams| == |q.streams| + 1
  {
    hide StreamOk, Listed, Accept, Remove, Fresh;
    assert f.stream in q.streams ==> f.stream <= q.highest;
  }
}
