/** The `Peer` of internal/mux/peer.go as an object: a table of stream records, the order and the cursor change in
    place. Every method is proved against the event or function on peers that it performs, so the invariants, the
    scheduler's promises and the theorems about runs hold of this object. */
module Multiplexers {
  import opened Bytes
  import opened Cell
  import opened MuxStream
  import opened MuxPeer
  import opened MuxScheduler
  import opened MuxRun
  import opened MuxPressure
  import opened StreamRecords

  lemma ReaderKeeps(p: Peer, ev: Event)
    requires PeerOk(p) && Enabled(p, [], ev) && (ev.SocketRead? || ev.SocketEof?)
    ensures PeerOk(Local(p, ev))
  {
    var t := p.streams[ev.id].tx;
    var t' := if ev.SocketRead? then ReadData(t, ev.id, ev.data) else ReadEof(t, ev.id);
    if ev.SocketRead? {
      ReadDataKeeps(t, ev.id, ev.data);
    } else {
      ReadEofKeeps(t, ev.id);
    }
    assert StreamOk(p.streams[ev.id].(tx := t'), ev.id, p.window);
    hide PeerOk, StreamOk, ReadData, ReadEof;
    UpdateKeeps(p, ev.id, p.streams[ev.id].(tx := t'));
  }

  lemma WriterKeeps(p: Peer, ev: Event)
    requires PeerOk(p) && Enabled(p, [], ev) && (ev.Popped? || ev.SocketWrite? || ev.ChunkDone?)
    ensures PeerOk(Local(p, ev))
  {
    var r := p.streams[ev.id].rx;
    var r' := if ev.Popped? then PopInput(r) else if ev.SocketWrite? then WriteSome(r, ev.n) else FinishChunk(r);
    if ev.Popped? {
      PopInputKeeps(r, ev.id, p.window);
    } else if ev.SocketWrite? {
      WriteSomeKeeps(r, ev.id, p.window, ev.n);
    } else {
      FinishChunkKeeps(r, ev.id, p.window);
    }
    assert StreamOk(p.streams[ev.id].(rx := r'), ev.id, p.window);
    hide PeerOk, StreamOk, PopInput, WriteSome, FinishChunk;
    UpdateKeeps(p, ev.id, p.streams[ev.id].(rx := r'));
  }

  /** Every local event keeps the invariant of the peer. */
  lemma LocalKeeps(p: Peer, ev: Event)
    requires PeerOk(p) && Enabled(p, [], ev)
    ensures p.cursor <= |p.order| && PeerOk(Local(p, ev))
  {
    hide PeerOk, Listed, ReadData, ReadEof, PopInput, WriteSome, FinishChunk, OpenStream, WriterFin, CanOpen;
    OkListed(p);
    CursorInside(p);
    match ev
    case Open(authority) => OpenKeeps(p, authority);
    case DialDone(id) => DialedKeeps(p, id);
    case Failed(id) => FailKeeps(p, id);
    case SocketRead(id, data) => ReaderKeeps(p, ev);
    case SocketEof(id) => ReaderKeeps(p, ev);
    case Popped(id) => WriterKeeps(p, ev);
    case SocketWrite(id, n) => WriterKeeps(p, ev);
    case ChunkDone(id) => WriterKeeps(p, ev);
    case FinDone(id) => WriterFinKeeps(p, id);
    case TakeCell(budget, controlsOnly) =>
  }

  lemma ClosedOk(p: Peer)
    requires PeerOk(p)
    ensures PeerOk(p.(closed := true))
  {
    hide StreamOk;
  }

  /** The stream is about to announce itself: its OPEN names the authority, and a socket is attached. */
  predicate Announced(p: Peer, id: u32, authority: seq<byte>) {
    && id in p.streams && p.streams[id].open == Some(Frame(OPEN, id, 0, authority))
    && p.streams[id].attached && !p.streams[id].ack && !p.streams[id].reset
  }

  lemma OpenAnnounces(p: Peer, authority: seq<byte>)
    requires CanOpen(p, authority)
    ensures var q := OpenStream(p, authority);
            Announced(q, p.highest + 1, authority) && q.highest == p.highest + 1 && q.order == p.order + [q.highest]
  {
  }

  class Multiplexer {
    const window: u32
    const send: u32
    const dial: bool
    var streams: map<u32, StreamRecord>
    var order: seq<u32>
    var cursor: nat
    var highest: u32
    var closed: bool
    ghost var retired: map<u32, Stream>

    /** Every record is filed under its own number and the cursor is a place in the order. */
    ghost predicate Filed()
      reads this
    {
      cursor <= |order| && forall id :: id in streams ==> streams[id].id == id
    }

    ghost function Table(): map<u32, Stream>
      reads this, streams.Values
    {
      map id | id in streams :: streams[id].Value()
    }

    ghost function State(): Peer
      reads this, streams.Values
    {
      Peer(window, send, dial, Table(), order, cursor, highest, closed, retired)
    }

    /** The invariant of the peer; LocalKeeps and the methods Receive and Take keep it. */
    ghost predicate Valid()
      reads this, streams.Values
    {
      Filed() && PeerOk(State())
    }

    lemma Shows()
      ensures State().closed == closed && State().highest == highest && State().order == order
    {
    }

    constructor (dial: bool, window: u32, send: u32)
      ensures Valid() && State() == NewPeer(dial, window, send) && streams == map[]
    {
      this.window, this.send, this.dial := window, send, dial;
      streams, order, cursor, highest, closed, retired := map[], [], 0, 0, false, map[];
      new;
      assert Table() == map[];
    }

    /** Only the record of one stream has changed. */
    twostate lemma OneRecord(id: u32)
      requires old(Filed()) && id in old(streams) && unchanged(this)
      requires forall k :: k in streams && k != id ==> old(allocated(streams[k])) && unchanged(streams[k])
      ensures Filed() && State() == Update(old(State()), id, streams[id].Value())
    {
      assert Table() == old(Table())[id := streams[id].Value()];
    }

    twostate lemma Raised()
      requires old(Filed()) && unchanged(`streams, `order, `cursor, `closed, `retired)
      requires forall k :: k in streams ==> old(allocated(streams[k])) && unchanged(streams[k])
      ensures Filed() && State() == old(State()).(highest := highest)
    {
      assert Table() == old(Table());
    }

    lemma At(id: u32)
      ensures id in State().streams <==> id in streams
      ensures id in streams ==> State().streams[id] == streams[id].Value()
    {
    }

    lemma SameSize()
      ensures |streams| == |State().streams|
    {
      assert streams.Keys == State().streams.Keys;
    }

    // -------------------------------------------------------------- the table

    /** The entry goes, then a scan of the order for its place. */
    method RemoveStream(id: u32)
      requires Filed()
      modifies this
      ensures Filed() && streams == old(streams) - {id} && State() == Remove(old(State()), id)
    {
      hide Table, IndexOf;
      DropEntry(id);
      label dropped:
      CutOrder(id);
      SameTable@dropped();
    }

    method DropEntry(id: u32)
      requires Filed()
      modifies this`retired, this`streams
      ensures streams == old(streams) - {id}
      ensures var p := old(State());
              State() == if id in p.streams then p.(retired := p.retired[id := p.streams[id]], streams := p.streams - {id})
                         else p
    {
      hide Table;
      At(id);
      if id in streams {
        retired := retired[id := streams[id].Value()];
      }
      streams := streams - {id};
      Dropped(id);
    }

    /** Only the table has lost an entry. */
    twostate lemma Dropped(id: u32)
      requires streams == old(streams) - {id} && forall k :: k in streams ==> old(allocated(streams[k])) && unchanged(streams[k])
      ensures State().streams == if id in old(streams) then old(State()).streams - {id} else old(State()).streams
    {
      assert State().streams == old(State()).streams - {id};
      assert id !in old(streams) ==> old(State()).streams - {id} == old(State()).streams;
    }

    twostate lemma SameTable()
      requires streams == old(streams) && forall k :: k in streams ==> old(allocated(streams[k])) && unchanged(streams[k])
      ensures State().streams == old(State()).streams
    {
    }

    method CutOrder(id: u32)
      requires cursor <= |order|
      modifies this`order, this`cursor
      ensures var i := IndexOf(old(order), id);
              if i == |old(order)| then order == old(order) && cursor == old(cursor)
              else
                && order == old(order)[..i] + old(order)[i + 1..]
                && var moved := if i < old(cursor) then old(cursor) - 1 else old(cursor);
                   cursor == if moved >= |order| then 0 else moved
    {
      var index := 0;
      while index < |order|
        invariant index <= IndexOf(order, id)
        invariant order == old(order) && cursor == old(cursor)
      {
        if order[index] == id {
          order := order[..index] + order[index + 1..];
          if index < cursor {
            cursor := cursor - 1;
          }
          if cursor >= |order| {
            cursor := 0;
          }
          return;
        }
        index := index + 1;
      }
    }

    method NewStream(id: u32) returns (s: StreamRecord)
      requires Filed()
      modifies this
      ensures Filed() && fresh(s) && s.id == id && s.Value() == Fresh(send, window) && streams == old(streams)[id := s]
      ensures State() == MuxPeer.NewStream(old(State()), id)
    {
      s := new StreamRecord(id, send, window);
      streams := streams[id := s];
      order := order + [id];
      assert Table() == old(Table())[id := Fresh(send, window)];
    }

    /** A new stream, whose number is the highest so far. */
    method Adopt(id: u32) returns (s: StreamRecord)
      requires Filed()
      modifies this
      ensures Filed() && fresh(s) && s.id == id && s.Value() == Fresh(send, window) && streams == old(streams)[id := s]
      ensures highest == id && State() == MuxPeer.NewStream(old(State()).(highest := id), id)
    {
      hide Fresh, Table;
      highest := id;
      Raised();
      s := NewStream(id);
    }

    // -------------------------------------------------------------- local operations

    method Open(authority: seq<byte>) returns (id: Option<u32>)
      requires Filed()
      modifies this
      ensures Filed() && fresh(streams.Values - old(streams.Values))
      ensures id.Some? <==> CanOpen(old(State()), authority)
      ensures id.Some? <==>
                && !old(closed) && !dial && |old(streams)| < MAX_STREAMS
                && |authority| <= MAX_AUTHORITY && old(highest) != MAX_U32
      ensures id.Some? ==>
                && highest == id.value && order == old(order) + [id.value]
                && Announced(State(), id.value, authority)
      ensures id.Some? ==> id.value == old(highest) + 1 && State() == OpenStream(old(State()), authority)
      ensures id.None? ==> State() == old(State())
    {
      hide Fresh, Table, MuxPeer.NewStream, Announced;
      SameSize();
      Shows();
      if closed || dial || |streams| >= MAX_STREAMS || |authority| > MAX_AUTHORITY || highest == MAX_U32 {
        return None;
      }
      OpenAnnounces(State(), authority);
      var s := Adopt(highest + 1);
      label made:
      s.Announce(authority);
      OneRecord@made(highest);
      Shows();
      return Some(highest);
    }

    /** The end of the dialing goroutine. */
    method Dialed(id: u32)
      requires Filed() && Enabled(State(), [], DialDone(id))
      modifies streams.Values
      ensures Filed() && State() == Local(old(State()), DialDone(id))
    {
      At(id);
      assert id in streams;
      hide Table;
      streams[id].Connected();
      OneRecord(id);
    }

    method Fail(id: u32)
      requires Filed() && id in streams
      modifies streams.Values
      ensures Filed() && State() == Local(old(State()), Failed(id))
    {
      At(id);
      assert id in streams;
      hide Table;
      streams[id].Fail();
      OneRecord(id);
    }

    /** One round of the reader: bytes. */
    method Read(id: u32, body: seq<byte>)
      requires Filed() && Enabled(State(), [], SocketRead(id, body))
      modifies streams.Values
      ensures Filed() && State() == Local(old(State()), SocketRead(id, body))
    {
      At(id);
      assert id in streams;
      hide Table, ReadData;
      streams[id].ReadSocket(body);
      OneRecord(id);
    }

    /** The last round of the reader: the end of the socket. */
    method ReadEnd(id: u32)
      requires Filed() && Enabled(State(), [], SocketEof(id))
      modifies streams.Values
      ensures Filed() && State() == Local(old(State()), SocketEof(id))
    {
      At(id);
      assert id in streams;
      hide Table, MuxStream.ReadEof;
      streams[id].ReadEnd();
      OneRecord(id);
    }

    /** The writer takes a chunk. */
    method Pop(id: u32)
      requires Filed() && Enabled(State(), [], Popped(id))
      modifies streams.Values
      ensures Filed() && State() == Local(old(State()), Popped(id))
    {
      At(id);
      assert id in streams;
      hide Table;
      streams[id].Pop();
      OneRecord(id);
    }

    /** The writer's socket accepts n bytes. */
    method Write(id: u32, n: nat)
      requires Filed() && Enabled(State(), [], SocketWrite(id, n))
      modifies streams.Values
      ensures Filed() && State() == Local(old(State()), SocketWrite(id, n))
    {
      At(id);
      assert id in streams;
      hide Table, WriteSome, CanWrite;
      streams[id].WriteSocket(n);
      OneRecord(id);
    }

    /** The writer gives a chunk's credit back. */
    method GiveBack(id: u32)
      requires Filed() && Enabled(State(), [], ChunkDone(id))
      modifies streams.Values
      ensures Filed() && State() == Local(old(State()), ChunkDone(id))
    {
      At(id);
      assert id in streams;
      hide Table;
      streams[id].GiveBack();
      OneRecord(id);
    }

    /** The writer has half-closed its socket. */
    method WriteEnd(id: u32)
      requires Filed() && Enabled(State(), [], FinDone(id))
      modifies this, streams.Values
      ensures Filed() && State() == Local(old(State()), FinDone(id))
      ensures id in old(streams)
      ensures streams == if old(streams[id].localFinSent) && old(streams[id].grant) == 0 then old(streams) - {id}
                         else old(streams)
    {
      hide Table, Remove;
      At(id);
      assert id in streams;
      var s := streams[id];
      s.HalfClosed();
      OneRecord(id);
      if s.localFinSent && s.grant == 0 {
        RemoveStream(id);
      }
    }

    method Close()
      requires Valid()
      modifies this`closed
      ensures Valid() && closed && State() == old(State()).(closed := true)
    {
      ClosedOk(State());
      hide PeerOk, Table;
      closed := true;
      SameTable();
    }

    // -------------------------------------------------------------- pressure

    /** The sum over all streams, in whatever order. */
    method Report(floor: int) returns (r: Pressure)
      requires Valid()
      ensures Countable(order, State().streams) && r == PressureOf(State(), floor)
    {
      hide PeerOk, Listed, Share, Table, Plus;
      PeerCountable(State());
      Shows();
      var i := |order|;
      r := Pressure(0, 0, 0);
      while i > 0
        invariant 0 <= i <= |order| && Countable(order[i..], State().streams)
        invariant r == Shares(order[i..], State().streams, floor)
      {
        i := i - 1;
        At(order[i]);
        assert order[i..][0] == order[i] && order[i..][1..] == order[i + 1..];
        var part := streams[order[i]].Report(floor);
        r := Plus(part, r);
      }
      assert order[0..] == order;
    }

    // -------------------------------------------------------------- Receive

    /** One turn of the loop in Receive. */
    method ReceiveFrame(f: Frame, valid: seq<byte> -> bool) returns (ok: bool)
      requires Filed() && (f.stream in streams ==> Coalesced(streams[f.stream].input))
      modifies this, streams.Values
      ensures Filed() && fresh(streams.Values - old(streams.Values))
      ensures match ReceiveOne(old(State()), f, valid)
              case None => !ok && State() == old(State())
              case Some(p) => ok && State() == p
    {
      hide MuxStream.Accept, Coalesced;
      if f.kind == ACK || f.stream == 0 {
        return false;
      } else if f.kind == OPEN {
        ok := ReceiveOpen(f, valid);
      } else if f.stream !in streams {
        At(f.stream);
        return f.stream <= highest && f.kind != AUTH;
      } else {
        ok := ReceiveKnown(f);
      }
    }

    /** An OPEN makes a stream, or is refused. */
    method ReceiveOpen(f: Frame, valid: seq<byte> -> bool) returns (ok: bool)
      requires Filed() && f.kind == OPEN && f.stream != 0
      modifies this
      ensures Filed() && fresh(streams.Values - old(streams.Values))
      ensures match ReceiveOne(old(State()), f, valid)
              case None => !ok && State() == old(State())
              case Some(p) => ok && State() == p
    {
      hide Table, Fresh, Remove, MuxStream.Accept, MuxPeer.NewStream;
      SameSize();
      if !dial || f.stream <= highest || f.sequence != 0 || |f.body| == 0 || |f.body| > MAX_AUTHORITY
         || |streams| >= MAX_STREAMS || !valid(f.body) {
        return false;
      }
      var s := Adopt(f.stream);
      return true;
    }

    /** A frame for a stream in the table. */
    method ReceiveKnown(f: Frame) returns (ok: bool)
      requires Filed() && f.stream in streams && Coalesced(streams[f.stream].input)
      modifies this, streams.Values
      ensures Filed() && streams.Values <= old(streams.Values)
      ensures match MuxStream.Accept(old(State()).streams[f.stream], f, dial, send)
              case Refused => !ok && State() == old(State())
              case Closed => ok && State() == Remove(old(State()), f.stream)
              case Kept(s) => ok && State() == Update(old(State()), f.stream, s)
    {
      At(f.stream);
      hide MuxStream.Accept, Coalesced, Table, Remove;
      var v := streams[f.stream].Accept(f, dial, send);
      OneRecord(f.stream);
      assert !v.Keep? ==> State().streams == old(State()).streams;
      if v.Close? {
        RemoveStream(f.stream);
      }
      return !v.Refuse?;
    }

    method Receive(frames: seq<Frame>, valid: seq<byte> -> bool) returns (ok: bool)
      requires Valid()
      modifies this, streams.Values
      ensures Valid() && fresh(streams.Values - old(streams.Values))
      ensures old(closed) ==> !ok && State() == old(State())
      ensures !old(closed) ==> (State(), ok) == ReceiveAll(old(State()), frames, valid)
    {
      if closed {
        return false;
      }
      hide ReceiveOne, StreamOk, Coalesced, Table;
      var i := 0;
      assert frames[0..] == frames;
      while i < |frames|
        invariant i <= |frames| && Valid() && fresh(streams.Values - old(streams.Values))
        invariant ReceiveAll(State(), frames[i..], valid) == ReceiveAll(old(State()), frames, valid)
      {
        assert frames[i..][1..] == frames[i + 1..];
        Queued(frames[i].stream);
        ghost var p := State();
        ok := ReceiveFrame(frames[i], valid);
        if !ok {
          return;
        }
        ReceiveOneKeeps(p, frames[i], valid);
        i := i + 1;
      }
      return true;
    }

    lemma Queued(id: u32)
      requires Valid()
      ensures id in streams ==> Coalesced(streams[id].input)
    {
      At(id);
      if id in streams {
        assert StreamOk(State().streams[id], id, window);
      }
    }

    // -------------------------------------------------------------- take

    /** The loop body of take for the stream with the turn. */
    method Visit(id: u32, budget: nat, controlsOnly: bool) returns (f: Option<Frame>, missed: bool)
      requires Filed() && id in streams && budget >= FRAME_HEADER
      modifies this, streams.Values
      ensures Filed() && streams.Values <= old(streams.Values)
      ensures match VisitStream(old(State()).streams[id], id, budget, controlsOnly)
              case Retire => f == None && !missed && State() == Remove(old(State()), id)
              case Miss(s) => f == None && missed && State() == Update(old(State()), id, s)
              case Send(s, g, remove) =>
                var u := Update(old(State()), id, s);
                f == Some(g) && !missed && State() == if remove then Remove(u, id) else u
    {
      At(id);
      hide Table, Remove;
      var s := streams[id];
      if s.localFinSent && s.remoteFinWritten && s.grant == 0 {
        RemoveStream(id);
        return None, false;
      }
      if s.reset {
        assert Update(State(), id, s.Value()) == State();
        RemoveStream(id);
        return Some(Frame(RESET, id, 0, [])), false;
      }
      hide VisitStream;
      f := s.NextToSend(budget, controlsOnly);
      OneRecord(id);
      if f.None? {
        return f, true;
      }
      if s.localFinSent && s.remoteFinWritten && s.grant == 0 {
        RemoveStream(id);
      }
      return f, false;
    }

    /** The cursor moves on and the stream under it is visited. */
    method Turn(left: int, misses: nat, frames: seq<Frame>, controlsOnly: bool)
      returns (left': int, misses': nat, frames': seq<Frame>)
      requires Filed() && Listed(State()) && Running(Pass(State(), left, misses, |frames|))
      modifies this, streams.Values
      ensures Filed() && streams.Values <= old(streams.Values)
      ensures var x := Pass(old(State()), left, misses, |frames|);
              && frames' == frames + TurnFrames(x, controlsOnly)
              && TurnPass(x, controlsOnly) == Pass(State(), left', misses', |frames'|)
    {
      hide VisitStream, Remove, Table, StreamOk;
      ghost var x := Pass(State(), left, misses, |frames|);
      cursor := cursor % |order|;
      var id := order[cursor];
      cursor := cursor + 1;
      Moved();
      At(id);
      assert State() == Advance(x.p) && id == Head(x.p);
      hide Listed;
      var f, missed := Visit(id, left, controlsOnly);
      if f.Some? {
        return left - f.value.Size(), 0, frames + [f.value];
      }
      return left, if missed then misses + 1 else misses, frames;
    }

    method Take(budget: int, controlsOnly: bool) returns (frames: seq<Frame>)
      requires Valid()
      modifies this, streams.Values
      ensures Valid() && streams.Values <= old(streams.Values)
      ensures Listed(old(State())) && (State(), frames) == MuxPeer.Take(old(State()), budget, controlsOnly)
      ensures old(closed) ==> frames == [] && State() == old(State())
    {
      frames := [];
      OkListed(State());
      if closed {
        return;
      }
      hide PeerOk, TurnPass, TurnFrames, LastPass, TakenFrames, Listed, Table, Goes;
      ghost var start := Pass(State(), budget, 0, 0);
      Begun(start, controlsOnly);
      var left, misses := budget, 0;
      while left >= FRAME_HEADER && |order| > 0 && misses < |order| && |frames| < TAKE_LIMIT
        invariant Valid() && streams.Values <= old(streams.Values) && misses >= 0 && Listed(State())
        invariant Goes(start, Pass(State(), left, misses, |frames|), frames, controlsOnly)
        decreases left, |order|, |order| - misses
      {
        Again(start, Pass(State(), left, misses, |frames|), frames, controlsOnly);
        left, misses, frames := Turn(left, misses, frames, controlsOnly);
      }
      Stopped(start, Pass(State(), left, misses, |frames|), frames, controlsOnly);
    }

    /** From x on, the loop that collected `frames` will end as the loop from `start` does. */
    static ghost predicate Goes(start: Pass, x: Pass, frames: seq<Frame>, controlsOnly: bool)
      requires Listed(start.p) && Listed(x.p)
    {
      && LastPass(x, controlsOnly) == LastPass(start, controlsOnly)
      && frames + TakenFrames(x, controlsOnly) == TakenFrames(start, controlsOnly)
    }

    static lemma Begun(x: Pass, controlsOnly: bool)
      requires Listed(x.p)
      ensures Goes(x, x, [], controlsOnly)
    {
    }

    /** A turn is one unfolding of the functions that describe the loop. */
    static lemma Again(start: Pass, x: Pass, frames: seq<Frame>, controlsOnly: bool)
      requires PeerOk(x.p) && Listed(x.p) && Running(x) && Listed(start.p) && Goes(start, x, frames, controlsOnly)
      ensures PeerOk(TurnPass(x, controlsOnly).p)
      ensures Goes(start, TurnPass(x, controlsOnly), frames + TurnFrames(x, controlsOnly), controlsOnly)
    {
      TurnKeeps(x, controlsOnly);
      Assoc(frames, TurnFrames(x, controlsOnly), TakenFrames(TurnPass(x, controlsOnly), controlsOnly));
    }

    static lemma Stopped(start: Pass, x: Pass, frames: seq<Frame>, controlsOnly: bool)
      requires Listed(x.p) && !Running(x) && Listed(start.p) && Goes(start, x, frames, controlsOnly)
      ensures LastPass(start, controlsOnly) == x && TakenFrames(start, controlsOnly) == frames
    {
      assert frames + [] == frames;
    }

    twostate lemma Moved()
      requires unchanged(`streams, `order, `highest, `closed, `retired)
      requires forall k :: k in streams ==> old(allocated(streams[k])) && unchanged(streams[k])
      ensures State() == old(State()).(cursor := cursor)
    {
    }
  }
}
