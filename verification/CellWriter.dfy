/** The carrier of a session after its startup (realtime.go): cells received in sequence, and the writer that fills each
    outgoing cell with an acknowledgement and whatever the multiplexer gives. */
module CellWriter {
  import opened Bytes
  import opened Cell
  import opened MuxStream
  import opened MuxPeer
  import opened MuxScheduler
  import opened MuxPressure
  import opened Multiplexers

  // ---------------------------------------------------------------- capacities

  function FramedBytes(p: Pressure): nat {
    p.bytes + p.overhead + HEADER + FRAME_HEADER
  }

  function ReadyDownCapacity(p: Pressure): nat {
    if p.bytes == 0 then 512
    else if FramedBytes(p) >= MAX_CELL then MAX_CELL
    else if FramedBytes(p) >= 65536 then 65536
    else 8192
  }

  datatype CarrierKind = WebSocket | Http3 | Packets

  function MaxDownCell(kind: CarrierKind): nat {
    if kind.WebSocket? then MAX_CELL else 65536
  }

  function DownCapacity(kind: CarrierKind, p: Pressure): (c: nat)
    ensures c in {512, 8192, 65536, MAX_CELL} && c <= (if kind.WebSocket? then MAX_CELL else 65536)
    ensures c == 512 <==> p.bytes == 0 || (kind.Http3? && p.bytes + p.overhead + HEADER + FRAME_HEADER <= 512)
    ensures c >= 65536 <==> p.bytes > 0 && p.bytes + p.overhead + HEADER + FRAME_HEADER >= 65536
    ensures c == MAX_CELL <==>
              kind.WebSocket? && p.bytes > 0 && p.bytes + p.overhead + HEADER + FRAME_HEADER >= MAX_CELL
  {
    if kind.Http3? && FramedBytes(p) <= 512 then 512
    else Min(ReadyDownCapacity(p), MaxDownCell(kind))
  }

  /** The writer passes a cell by exactly when there is nothing to write: with the capacity and the kind of take that the
      pressure calls for, a server's peer gives no frames just when the pressure is empty. */
  lemma QuietExactly(p: Peer, kind: CarrierKind, floor: int)
    requires PeerOk(p) && !p.closed && forall id :: id in p.streams ==> p.streams[id].open.None?
    ensures Listed(p) && Countable(p.order, p.streams)
    ensures var pressure := PressureOf(p, floor);
            Take(p, DownCapacity(kind, pressure) - HEADER, pressure.bytes == 0).1 == []
            <==> pressure.bytes == 0 && pressure.controls == 0
  {
    hide PeerOk, Listed, Countable, PressureOf, DownCapacity, Take;
    OkListed(p);
    PeerCountable(p);
    PressureIsExact(p, floor, DownCapacity(kind, PressureOf(p, floor)) - HEADER);
  }

  // ---------------------------------------------------------------- what take gives can be encoded

  lemma VisitKind(s: Stream, id: u32, window: u32, budget: nat, controlsOnly: bool)
    requires StreamOk(s, id, window) && budget >= FRAME_HEADER
    ensures var v := VisitStream(s, id, budget, controlsOnly);
            v.Send? ==> v.frame.kind in {OPEN, DATA, FIN, RESET, CREDIT, OPENED}
  {
    hide Scan, ReceiverOk;
    var t := Refill(s.tx);
    assert t.pending.Some? ==> t.pending.value == Queue(s.tx)[0];
  }

  lemma TurnKinds(x: Pass, controlsOnly: bool)
    requires PeerOk(x.p) && Listed(x.p) && Running(x)
    ensures PeerOk(TurnPass(x, controlsOnly).p)
    ensures KindsUpTo(TurnFrames(x, controlsOnly), OPENED)
  {
    hide StreamOk, VisitStream, TurnPass, Listed;
    TurnKeeps(x, controlsOnly);
    VisitKind(x.p.streams[Head(x.p)], Head(x.p), x.p.window, x.budget, controlsOnly);
  }

  lemma {:induction false} TakenKinds(x: Pass, controlsOnly: bool)
    requires PeerOk(x.p) && Listed(x.p)
    ensures KindsUpTo(TakenFrames(x, controlsOnly), OPENED)
    decreases x.budget, |x.p.order|, |x.p.order| - x.misses
  {
    hide PeerOk, TurnPass, TurnFrames, Listed, KindsUpTo;
    NoKinds();
    if Running(x) {
      TurnKinds(x, controlsOnly);
      TakenKinds(TurnPass(x, controlsOnly), controlsOnly);
      KindsAppend(TurnFrames(x, controlsOnly), TakenFrames(TurnPass(x, controlsOnly), controlsOnly));
    }
  }

  lemma NoKinds()
    ensures KindsUpTo([], OPENED)
  {
  }

  lemma KindsAppend(a: seq<Frame>, b: seq<Frame>)
    requires KindsUpTo(a, OPENED) && KindsUpTo(b, OPENED)
    ensures KindsUpTo(a + b, OPENED)
  {
  }

  /** What one take gives: it fits the budget, is short, and has only frames of the multiplexer. */
  lemma TakeGives(p: Peer, budget: nat, controlsOnly: bool) returns (fs: seq<Frame>)
    requires PeerOk(p)
    ensures Listed(p) && fs == Take(p, budget, controlsOnly).1
    ensures TotalSize(fs) <= budget && |fs| <= 705 && KindsUpTo(fs, OPENED)
    ensures PeerOk(Take(p, budget, controlsOnly).0)
  {
    var x := Pass(p, budget, 0, 0);
    OkListed(p);
    TakeFits(x, controlsOnly);
    TakeFrameBound(p, budget, controlsOnly);
    TakenKinds(x, controlsOnly);
    fs := Take(p, budget, controlsOnly).1;
    hide PeerOk, TakenFrames, LastPass, Listed;
  }

  lemma {:induction false} PayloadSize(fs: seq<Frame>)
    ensures |Payload(fs)| == TotalSize(fs)
  {
    if fs != [] {
      PayloadSize(fs[1..]);
      PayloadCons(fs);
    }
  }

  lemma PayloadCons(fs: seq<Frame>)
    requires fs != []
    ensures |Payload(fs)| == fs[0].Size() + |Payload(fs[1..])|
  {
    assert fs == [fs[0]] + fs[1..];
    PayloadAppend([fs[0]], fs[1..]);
    assert Payload([fs[0]]) == Wire(fs[0]) by { PayloadSnoc([], fs[0]); }
  }

  /** The acknowledgement, if there is one, in front of the frames. */
  function WithAck(ack: Option<u32>, fs: seq<Frame>): seq<Frame> {
    (if ack.Some? then [Frame(ACK, 0, ack.value, [])] else []) + fs
  }

  function AckSize(ack: Option<u32>): nat {
    if ack.Some? then FRAME_HEADER else 0
  }

  /** When frames that fit the budget can be encoded behind an acknowledgement: exactly when there is a place for it
      among the 4096 frames of a cell. */
  lemma FitsExactly(ack: Option<u32>, fs: seq<Frame>, capacity: nat)
    requires HEADER + AckSize(ack) <= capacity <= MAX_CELL && |fs| <= TAKE_LIMIT && KindsUpTo(fs, OPENED)
    requires TotalSize(fs) <= capacity - HEADER - AckSize(ack)
    ensures Encodable(capacity, WithAck(ack, fs)) <==> ack.None? || |fs| < MAX_FRAMES
  {
    WithAckSize(ack, fs);
    WithAckKinds(ack, fs);
    hide Payload, TotalSize, KindsUpTo, WithAck;
  }

  lemma WithAckSize(ack: Option<u32>, fs: seq<Frame>)
    ensures |Payload(WithAck(ack, fs))| == AckSize(ack) + TotalSize(fs)
  {
    PayloadSize(WithAck(ack, fs));
    TotalSizeAppend(if ack.Some? then [Frame(ACK, 0, ack.value, [])] else [], fs);
    if ack.Some? {
      assert TotalSize([Frame(ACK, 0, ack.value, [])]) == FRAME_HEADER;
    }
    hide Payload, TotalSize;
  }

  lemma WithAckKinds(ack: Option<u32>, fs: seq<Frame>)
    requires KindsUpTo(fs, OPENED)
    ensures KindsUpTo(WithAck(ack, fs), HELLO) && |WithAck(ack, fs)| == |fs| + if ack.Some? then 1 else 0
  {
  }

  /** For every state of the multiplexer and every capacity of at least 512 bytes, one take fits behind the
      acknowledgement, so nothing taken is lost to an encoding error. */
  lemma TakeIsEncodable(p: Peer, ack: Option<u32>, capacity: nat, controlsOnly: bool)
    requires PeerOk(p) && 512 <= capacity <= MAX_CELL
    ensures Listed(p) && Encodable(capacity, WithAck(ack, Take(p, capacity - HEADER - AckSize(ack), controlsOnly).1))
  {
    hide PeerOk, Take, TotalSize, KindsUpTo, Encodable, WithAck;
    var fs := TakeGives(p, capacity - HEADER - AckSize(ack), controlsOnly);
    FitsExactly(ack, fs, capacity);
  }

  // ---------------------------------------------------------------- the carrier

  datatype Outcome = Exhausted | Quiet | EncodeFailed | Wrote(cell: seq<byte>)

  predicate CellSize(kind: CarrierKind, size: nat) {
    size in {512, 4096, 16384, 131072} || (kind.Packets? && size == 8192)
  }

  /** Frames that may arrive on a running carrier. */
  predicate Ordinary(fs: seq<Frame>) {
    forall i :: 0 <= i < |fs| ==> fs[i].kind !in {AUTH, ACK, HELLO} && fs[i].stream != 0
  }

  predicate Increasing(xs: seq<u32>) {
    forall i, j :: 0 <= i < j < |xs| ==> xs[i] < xs[j]
  }

  /** What a cell takes from the multiplexer. */
  ghost predicate Filled(capacity: nat, ack: Option<u32>, controlsOnly: bool, before: Peer, after: Peer,
                         frames: seq<Frame>) {
    && Listed(before)
    && (after, frames) == Take(before, capacity - HEADER - AckSize(ack), controlsOnly)
  }

  /** The cell carries the acknowledgement and the frames, and nothing else but filler. */
  ghost predicate Carries(cell: seq<byte>, sequence: u32, ack: Option<u32>, frames: seq<Frame>) {
    var all := WithAck(ack, frames);
    HEADER + |Payload(all)| <= |cell| && IsCell(cell, sequence, all, |cell| - HEADER - |Payload(all)|)
  }

  /** Take behind the acknowledgement and encode. Without an idle heartbeat an empty cell is not written. */
  method FillCell(peer: Multiplexer, sequence: u32, ack: Option<u32>, capacity: nat, controlsOnly: bool, idle: bool,
                  entropy: bool)
    returns (r: Outcome, ghost frames: seq<Frame>)
    requires peer.Valid() && 512 <= capacity <= MAX_CELL
    modifies peer, peer.streams.Values
    ensures peer.Valid() && peer.streams.Values <= old(peer.streams.Values)
    ensures Filled(capacity, ack, controlsOnly, old(peer.State()), peer.State(), frames)
    ensures !r.Exhausted?
    ensures r.Quiet? <==> ack.None? && frames == [] && !idle
    ensures r.EncodeFailed? ==> !entropy
    ensures r.Wrote? ==> |r.cell| == capacity && Carries(r.cell, sequence, ack, frames)
  {
    hide Encodable, Filled, PeerOk, IsCell, Payload, Multiplexer.Valid, Multiplexer.State;
    var all;
    all, frames := TakeBehind(peer, ack, capacity, controlsOnly);
    if |all| == 0 && !idle {
      return Quiet, frames;
    }
    var encoded := Encode(sequence, capacity, all, entropy);
    if encoded.Bad? {
      return EncodeFailed, frames;
    }
    assert Carries(encoded.value[..], sequence, ack, frames) by { EncodedFits(capacity, all); }
    return Wrote(encoded.value[..]), frames;
  }

  lemma EncodedFits(capacity: nat, all: seq<Frame>)
    requires Encodable(capacity, all)
    ensures HEADER + |Payload(all)| <= capacity
  {
  }

  lemma TakeFromPeer(peer: Multiplexer, ack: Option<u32>, capacity: nat, controlsOnly: bool)
    requires peer.Valid() && 512 <= capacity <= MAX_CELL
    ensures Listed(peer.State())
    ensures Encodable(capacity, WithAck(ack, Take(peer.State(), capacity - HEADER - AckSize(ack), controlsOnly).1))
  {
    TakeIsEncodable(peer.State(), ack, capacity, controlsOnly);
    hide Take, PeerOk, Encodable, WithAck, Multiplexer.State;
  }

  method TakeBehind(peer: Multiplexer, ack: Option<u32>, capacity: nat, controlsOnly: bool)
    returns (all: seq<Frame>, ghost frames: seq<Frame>)
    requires peer.Valid() && 512 <= capacity <= MAX_CELL
    modifies peer, peer.streams.Values
    ensures peer.Valid() && peer.streams.Values <= old(peer.streams.Values)
    ensures Filled(capacity, ack, controlsOnly, old(peer.State()), peer.State(), frames)
    ensures all == WithAck(ack, frames) && Encodable(capacity, all)
  {
    hide Take, PeerOk, Encodable, Listed, Multiplexer.Valid, Multiplexer.State;
    TakeFromPeer(peer, ack, capacity, controlsOnly);
    var budget := capacity - HEADER;
    all := [];
    if ack.Some? {
      all := all + [Frame(ACK, 0, ack.value, [])];
      budget := budget - FRAME_HEADER;
    }
    var taken := peer.Take(budget, controlsOnly);
    all, frames := all + taken, taken;
  }

  /** What a running carrier applies: a cell of one of its sizes, with ordinary frames, none of them before the login,
      that the multiplexer takes. */
  ghost predicate Applies(kind: CarrierKind, authed: bool, up: u32, size: nat, fs: seq<Frame>, before: Peer,
                          valid: seq<byte> -> bool)
    requires before.cursor <= |before.order|
  {
    && (size in {512, 4096, 16384, 131072} || (kind.Packets? && size == 8192))
    && up < MAX_U32 && Ordinary(fs) && (fs != [] ==> authed)
    && !before.closed && ReceiveAll(before, fs, valid).1
  }

  lemma OneContent(body: seq<byte>, sequence: u32, frames: seq<Frame>, filler: nat)
    requires IsCell(body, sequence, frames, filler)
    ensures forall s, fs, n :: IsCell(body, s, fs, n) ==> s == sequence && fs == frames
  {
    hide IsCell;
    forall s, fs, n | IsCell(body, s, fs, n) ensures s == sequence && fs == frames {
      CellUnique(body, s, fs, n, sequence, frames, filler);
    }
  }

  /** A cell that arrives is decoded, checked and given to the multiplexer. */
  method AcceptCell(peer: Multiplexer, kind: CarrierKind, authed: bool, up: u32, body: seq<byte>,
                    valid: seq<byte> -> bool)
    returns (ok: bool, frames: seq<Frame>, ghost filler: nat)
    requires peer.Valid()
    modifies peer, peer.streams.Values
    ensures peer.Valid() && fresh(peer.streams.Values - old(peer.streams.Values))
    ensures old(peer.State()).cursor <= |old(peer.State()).order|
    ensures ok ==>
              && up < MAX_U32 && IsCell(body, up, frames, filler)
              && Applies(kind, authed, up, |body|, frames, old(peer.State()), valid)
              && peer.State() == ReceiveAll(old(peer.State()), frames, valid).0
    ensures !ok ==> forall fs, n :: IsCell(body, up, fs, n) ==>
              !Applies(kind, authed, up, |body|, fs, old(peer.State()), valid)
  {
    hide IsCell, ReceiveAll, PeerOk, Ordinary, Listed, Multiplexer.State;
    OkListed(peer.State());
    CursorInside(peer.State());
    peer.Shows();
    ok, frames, filler := false, [], 0;
    if !CellSize(kind, |body|) {
      return;
    }
    var d := Decode(body);
    if d.Bad? {
      return;
    }
    OneContent(body, d.value.sequence, d.value.frames, d.value.filler);
    if !Ordinary(d.value.frames) {
      return;
    }
    frames, filler := d.value.frames, d.value.filler;
    if d.value.sequence != up || up == MAX_U32 || (!authed && |frames| != 0) {
      return;
    }
    ok := peer.Receive(frames, valid);
  }

  predicate Gapless(first: u32, next: u32, sequences: seq<u32>) {
    next == first + |sequences| && forall i :: 0 <= i < |sequences| ==> sequences[i] == first + i
  }

  /** The acknowledgements sent, and the one that is due, grow and name only received cells. */
  predicate AcksGrow(acked: seq<u32>, up: u32, due: Option<u32>) {
    && Increasing(acked)
    && (forall i :: 0 <= i < |acked| ==> acked[i] < up && (due.Some? ==> acked[i] < due.value))
    && (due.Some? ==> due.value < up)
  }

  lemma AckSent(acked: seq<u32>, up: u32, due: Option<u32>)
    requires AcksGrow(acked, up, due)
    ensures AcksGrow(acked + (if due.Some? then [due.value] else []), up, None)
    ensures AcksGrow(acked, up, None)
  {
  }

  lemma AckDue(acked: seq<u32>, up: u32, due: Option<u32>)
    requires AcksGrow(acked, up, due) && up < MAX_U32
    ensures AcksGrow(acked, up + 1, Some(up)) && AcksGrow(acked, up + 1, due)
  {
  }

  lemma OneMore(first: u32, next: u32, sequences: seq<u32>)
    requires Gapless(first, next, sequences) && next < MAX_U32
    ensures Gapless(first, next + 1, sequences + [next])
  {
  }

  class Carrier {
    const kind: CarrierKind
    const peer: Multiplexer
    var authed: bool
    var up: u32
    var down: u32
    var ackPending: bool
    var ackSequence: u32
    ghost const firstDown: u32
    ghost var sequences: seq<u32>   // of the cells written
    ghost var acked: seq<u32>       // the acknowledgements in them

    /** Written cells are numbered without a gap; acknowledgements grow and name only cells that were received. */
    ghost predicate Numbered()
      reads this
    {
      && Gapless(firstDown, down, sequences)
      && AcksGrow(acked, up, if ackPending then Some(ackSequence) else None)
    }

    ghost predicate Valid()
      reads this, peer, peer.streams.Values
    {
      Numbered() && peer.Valid()
    }

    constructor (kind: CarrierKind, peer: Multiplexer, authed: bool, up: u32, down: u32)
      requires peer.Valid()
      ensures Valid() && this.peer == peer && this.kind == kind && this.up == up && this.down == down
      ensures this.authed == authed && !ackPending && acked == [] && sequences == []
    {
      this.kind, this.peer, this.authed, this.up, this.down, firstDown := kind, peer, authed, up, down, down;
      ackPending, ackSequence, sequences, acked := false, 0, [], [];
    }

    /** receiveRealtime: a cell is applied only if it is the next one. */
    method Receive(body: seq<byte>, valid: seq<byte> -> bool)
      returns (ok: bool, frames: seq<Frame>, ghost filler: nat)
      requires Valid()
      modifies this`up, this`ackPending, this`ackSequence, peer, peer.streams.Values
      ensures Valid() && fresh(peer.streams.Values - old(peer.streams.Values))
      ensures old(peer.State()).cursor <= |old(peer.State()).order|
      ensures ok ==>
                && up == old(up) + 1
                && IsCell(body, old(up), frames, filler)
                && Applies(kind, authed, old(up), |body|, frames, old(peer.State()), valid)
                && peer.State() == ReceiveAll(old(peer.State()), frames, valid).0
                && ackPending == (old(ackPending) || frames != [])
                && ackSequence == if frames == [] then old(ackSequence) else old(up)
      ensures !ok ==>
                && up == old(up) && ackPending == old(ackPending) && ackSequence == old(ackSequence)
                && forall fs, n :: IsCell(body, up, fs, n) ==>
                     !Applies(kind, authed, up, |body|, fs, old(peer.State()), valid)
    {
      hide IsCell, ReceiveAll, Applies, PeerOk, Listed, Multiplexer.Valid, Multiplexer.State, AcksGrow, Gapless;
      ok, frames, filler := AcceptCell(peer, kind, authed, up, body, valid);
      if ok {
        AckDue(acked, up, if ackPending then Some(ackSequence) else None);
        if |frames| != 0 {
          ackPending, ackSequence := true, up;
        }
        up := up + 1;
      }
    }

    /** The session's error closes the multiplexer. */
    method Shut()
      requires Valid()
      modifies peer`closed
      ensures Valid() && peer.closed
    {
      hide PeerOk, Multiplexer.Valid;
      peer.Close();
    }

    /** One pass of writeCells under the lock: choose a capacity, take the acknowledgement and the frames, encode. */
    method NextCell(p: Pressure, idle: bool, entropy: bool)
      returns (r: Outcome, ghost ack: Option<u32>, ghost frames: seq<Frame>)
      requires Valid()
      modifies this`down, this`ackPending, this`sequences, this`acked, peer, peer.streams.Values
      ensures Valid() && peer.streams.Values <= old(peer.streams.Values)
      ensures ack == if old(ackPending) then Some(ackSequence) else None
      ensures r.Exhausted? <==> old(down) == MAX_U32
      ensures r.EncodeFailed? ==> !entropy
      ensures r.Wrote? ==>
                && Filled(DownCapacity(kind, p), ack, p.bytes == 0, old(peer.State()), peer.State(), frames)
                && |r.cell| == DownCapacity(kind, p)
                && Carries(r.cell, old(down), ack, frames)
                && down == old(down) + 1 && !ackPending
                && sequences == old(sequences) + [old(down)]
                && acked == old(acked) + (if ack.Some? then [ack.value] else [])
      ensures !r.Wrote? ==> down == old(down) && sequences == old(sequences) && acked == old(acked)
      ensures r.Exhausted? || r.Quiet? ==> ackPending == old(ackPending) && frames == []
      ensures r.Quiet? ==>
                && !old(ackPending) && !idle
                && (|| (p.bytes == 0 && p.controls == 0 && peer.State() == old(peer.State()))
                    || Filled(DownCapacity(kind, p), None, p.bytes == 0, old(peer.State()), peer.State(), []))
      ensures r.Wrote? || r.EncodeFailed? ==>
                old(ackPending) || idle || (frames != [] && (p.bytes > 0 || p.controls > 0))
      ensures r.EncodeFailed? ==> !ackPending
      ensures (idle || old(ackPending)) && entropy && old(down) != MAX_U32 ==> r.Wrote?
    {
      hide Filled, Carries, PeerOk, Listed, Multiplexer.Valid, Multiplexer.State, DownCapacity, AcksGrow, Gapless;
      ack := if ackPending then Some(ackSequence) else None;
      if down == MAX_U32 {
        return Exhausted, ack, [];
      }
      if !idle && p.bytes == 0 && p.controls == 0 && !ackPending {
        return Quiet, ack, [];
      }
      var pending := if ackPending then Some(ackSequence) else None;
      r, frames := FillCell(peer, down, pending, DownCapacity(kind, p), p.bytes == 0, idle, entropy);
      if r.Quiet? {
        return;
      }
      AckSent(acked, up, pending);
      ackPending := false;
      if r.Wrote? {
        OneMore(firstDown, down, sequences);
        acked := acked + (if ack.Some? then [ack.value] else []);
        sequences := sequences + [down];
        down := down + 1;
      }
    }
  }
}
