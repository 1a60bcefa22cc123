/** What a peer reports about the work it has for the carrier (`pressure` in internal/mux/peer.go), and that the report is
    exact: it is empty just when a take would give nothing. */
module MuxPressure {
  import opened Bytes
  import opened Cell
  import opened MuxStream
  import opened MuxPeer
  import opened MuxScheduler
  import opened MuxRun

  /** Bytes that may be sent now, what framing them will cost, and how many streams have something else to send. */
  datatype Pressure = Pressure(bytes: nat, overhead: nat, controls: nat)

  predicate HasControl(s: Stream) {
    s.open.Some? || s.ack || s.reset || s.rx.grant > 0 || (s.tx.queuedBytes == 0 && Queue(s.tx) != [])
  }

  /** The DATA frames for so many bytes, with one more for a first chunk that is already cut. */
  function DataFrames(ready: nat): nat {
    if ready > 0 then (ready + STREAM_CHUNK - 1) / STREAM_CHUNK + 1 else 0
  }

  function Overhead(s: Stream, ready: nat): nat {
    DataFrames(ready) * FRAME_HEADER
    + (if s.open.Some? then s.open.value.Size() else 0)
    + (if s.ack then FRAME_HEADER else 0)
    + (if s.reset then FRAME_HEADER else 0)
    + (if s.rx.grant > 0 then FRAME_HEADER + 4 else 0)
    + (if s.tx.queuedBytes == 0 && Queue(s.tx) != [] then FRAME_HEADER else 0)
  }

  /** One stream's part; `floor` is the credit below which more queued data waits. */
  function Share(s: Stream, floor: int): Pressure
    requires s.tx.queuedBytes >= 0
  {
    var ready := ReadyBytes(s, floor);
    Pressure(ready, Overhead(s, ready), if HasControl(s) then 1 else 0)
  }

  function Plus(a: Pressure, b: Pressure): Pressure {
    Pressure(a.bytes + b.bytes, a.overhead + b.overhead, a.controls + b.controls)
  }

  predicate Countable(ids: seq<u32>, streams: map<u32, Stream>) {
    forall i :: 0 <= i < |ids| ==> ids[i] in streams && streams[ids[i]].tx.queuedBytes >= 0
  }

  function Shares(ids: seq<u32>, streams: map<u32, Stream>, floor: int): Pressure
    requires Countable(ids, streams)
  {
    if ids == [] then Pressure(0, 0, 0)
    else
      assert streams[ids[0]].tx.queuedBytes >= 0;
      Plus(Share(streams[ids[0]], floor), Shares(ids[1..], streams, floor))
  }

  lemma QueuedIsNat(s: Stream, id: u32, window: u32)
    requires StreamOk(s, id, window)
    ensures s.tx.queuedBytes >= 0
    ensures s.tx.queuedBytes > 0 ==> Queue(s.tx) != [] && Queue(s.tx)[0].kind == DATA
  {
    hide ReceiverOk, Greets;
    var c := Progress(s.tx.sent, s.tx.localFinSent);
    ScanGrows(c, Queue(s.tx));
    if s.tx.queuedBytes > 0 {
      FirstScans(c, Queue(s.tx));
      ScanGrows(ScanOne(c, Queue(s.tx)[0]).value, Queue(s.tx)[1..]);
    }
  }

  lemma PeerCountable(p: Peer)
    requires PeerOk(p)
    ensures Countable(p.order, p.streams)
  {
    hide StreamOk, Finished, Distinct;
    forall i | 0 <= i < |p.order| ensures p.order[i] in p.streams && p.streams[p.order[i]].tx.queuedBytes >= 0 {
      assert p.order[i] in p.order;
      QueuedIsNat(p.streams[p.order[i]], p.order[i], p.window);
    }
  }

  /** The report of a peer; the order, which lists every stream once, serves to enumerate them. */
  function PressureOf(p: Peer, floor: int): Pressure
    requires Countable(p.order, p.streams)
  {
    Shares(p.order, p.streams, floor)
  }

  lemma {:induction false} SharesEmpty(ids: seq<u32>, streams: map<u32, Stream>, floor: int)
    requires Countable(ids, streams)
    ensures Shares(ids, streams, floor).bytes == 0 <==>
              forall i :: 0 <= i < |ids| ==> ReadyBytes(streams[ids[i]], floor) == 0
    ensures Shares(ids, streams, floor).controls == 0 <==>
              forall i :: 0 <= i < |ids| ==> !HasControl(streams[ids[i]])
  {
    hide ReadyBytes, HasControl, Overhead;
    if ids != [] {
      SharesEmpty(ids[1..], streams, floor);
      assert forall i :: 0 < i < |ids| ==> ids[i] == ids[1..][i - 1];
    }
  }

  ghost predicate NoControls(p: Peer) {
    forall id :: id in p.streams ==> !HasControl(p.streams[id])
  }

  ghost predicate NoBytes(p: Peer, floor: int) {
    forall id :: id in p.streams ==> ReadyBytes(p.streams[id], floor) == 0
  }

  lemma PressureEmpty(p: Peer, floor: int)
    requires PeerOk(p)
    ensures Countable(p.order, p.streams)
    ensures PressureOf(p, floor).bytes == 0 <==> NoBytes(p, floor)
    ensures PressureOf(p, floor).controls == 0 <==> NoControls(p)
  {
    hide StreamOk, Finished, Distinct, ReadyBytes, HasControl, Shares, Countable;
    PeerCountable(p);
    SharesEmpty(p.order, p.streams, floor);
    forall id | id in p.streams ensures exists i :: 0 <= i < |p.order| && p.order[i] == id {
      assert id in p.order;
    }
    forall i | 0 <= i < |p.order| ensures p.order[i] in p.streams {
      assert p.order[i] in p.order;
    }
  }

  // ---------------------------------------------------------------- an empty report, an empty take

  lemma QuietVisit(s: Stream, id: u32, window: u32, budget: nat)
    requires StreamOk(s, id, window) && !Finished(s) && !HasControl(s) && budget >= FRAME_HEADER
    ensures var v := VisitStream(s, id, budget, true); v.Miss? && !HasControl(v.s)
  {
    QueuedIsNat(s, id, window);
    RefillKeeps(s.tx, id);
    hide ReceiverOk, Scan, Greets, Finished;
    var t := Refill(s.tx);
    if t.pending.Some? {
      assert Queue(t)[0] == t.pending.value;
    }
  }

  lemma QuietTurn(x: Pass)
    requires PeerOk(x.p) && Running(x) && NoControls(x.p)
    ensures TurnFrames(x, true) == [] && NoControls(TurnPass(x, true).p)
  {
    hide VisitStream, StreamOk, Distinct, HasControl, Finished;
    var id := Head(x.p);
    QuietVisit(x.p.streams[id], id, x.p.window, x.budget);
  }

  lemma {:induction false} QuietTake(x: Pass)
    requires PeerOk(x.p) && NoControls(x.p)
    ensures TakenFrames(x, true) == []
    decreases x.budget, |x.p.order|, |x.p.order| - x.misses
  {
    hide TurnPass, TurnFrames, PeerOk, Listed, NoControls;
    OkListed(x.p);
    if Running(x) {
      TurnKeeps(x, true);
      QuietTurn(x);
      QuietTake(TurnPass(x, true));
    }
  }

  // ---------------------------------------------------------------- an empty take, an empty report

  /** The stream has the same to send, whichever of its frames the scheduler has already pulled out of the channel. */
  predicate SameWork(s: Stream, s': Stream) {
    && s'.open == s.open && s'.ack == s.ack && s'.reset == s.reset && s'.rx == s.rx
    && s'.tx == s.tx.(output := s'.tx.output, pending := s'.tx.pending) && Queue(s'.tx) == Queue(s.tx)
  }

  lemma MissedWork(s: Stream, id: u32, window: u32, budget: nat, controlsOnly: bool)
    requires StreamOk(s, id, window) && budget >= FRAME_HEADER && VisitStream(s, id, budget, controlsOnly).Miss?
    ensures SameWork(s, VisitStream(s, id, budget, controlsOnly).s)
  {
    RefillKeeps(s.tx, id);
    hide SenderOk, ReceiverOk, OfferPending, Queue, Uint32;
  }

  ghost predicate SameWorks(p: Peer, q: Peer) {
    p.streams.Keys == q.streams.Keys && forall id :: id in p.streams ==> SameWork(p.streams[id], q.streams[id])
  }

  lemma WorksTrans(p: Peer, q: Peer, r: Peer)
    requires SameWorks(p, q) && SameWorks(q, r)
    ensures SameWorks(p, r)
  {
  }

  lemma WorksSelf(p: Peer)
    ensures SameWorks(p, p)
  {
  }

  lemma EmptyTurn(x: Pass, controlsOnly: bool)
    requires PeerOk(x.p) && Running(x) && TurnFrames(x, controlsOnly) == []
    ensures var y := TurnPass(x, controlsOnly); SameWorks(x.p, y.p) && y.budget == x.budget && y.count == x.count
  {
    hide VisitStream, StreamOk, Distinct, SameWork, Finished;
    var id := Head(x.p);
    NothingToRetire(x, controlsOnly);
    MissedWork(x.p.streams[id], id, x.p.window, x.budget, controlsOnly);
    forall k | k in x.p.streams ensures SameWork(x.p.streams[k], TurnPass(x, controlsOnly).p.streams[k]) {
      SelfWork(x.p.streams[k]);
    }
  }

  lemma SelfWork(s: Stream)
    ensures SameWork(s, s)
  {
  }

  lemma {:induction false} EmptyTake(x: Pass, controlsOnly: bool)
    requires PeerOk(x.p) && TakenFrames(x, controlsOnly) == []
    ensures var y := LastPass(x, controlsOnly); SameWorks(x.p, y.p) && y.budget == x.budget
    decreases x.budget, |x.p.order|, |x.p.order| - x.misses
  {
    hide TurnPass, TurnFrames, PeerOk, Listed, SameWorks;
    OkListed(x.p);
    WorksSelf(x.p);
    if Running(x) {
      var y := TurnPass(x, controlsOnly);
      TurnKeeps(x, controlsOnly);
      EmptyTurn(x, controlsOnly);
      EmptyTake(y, controlsOnly);
      WorksTrans(x.p, y.p, LastPass(x, controlsOnly).p);
    }
  }

  /** Every OPEN that is still to be sent fits the budget. */
  ghost predicate OpensFit(p: Peer, budget: int) {
    forall id :: id in p.streams && p.streams[id].open.Some? ==> p.streams[id].open.value.Size() <= budget
  }

  lemma IdleHasNothing(s: Stream, id: u32, window: u32, s': Stream, budget: int, controlsOnly: bool, floor: int)
    requires StreamOk(s, id, window) && SameWork(s, s') && Idle(s', budget, controlsOnly) && budget >= FRAME_HEADER + 4
    requires s.open.Some? ==> s.open.value.Size() <= budget
    ensures !HasControl(s) && (controlsOnly || ReadyBytes(s, floor) == 0)
  {
    QueuedIsNat(s, id, window);
    if Queue(s.tx) != [] && Queue(s.tx)[0].kind == DATA {
      LastInQueue(s.tx, id);
    }
    hide SenderOk, ReceiverOk, Greets, Queue;
  }

  /** Bytes are queued when DATA is next. */
  lemma LastInQueue(t: Outgoing, id: u32)
    requires SenderOk(t, id) && Queue(t) != [] && Queue(t)[0].kind == DATA
    ensures t.queuedBytes > 0
  {
    var c := Progress(t.sent, t.localFinSent);
    FirstScans(c, Queue(t));
    ScanGrows(ScanOne(c, Queue(t)[0]).value, Queue(t)[1..]);
  }

  lemma EmptyTakeMeans(p: Peer, budget: int, controlsOnly: bool, floor: int)
    requires PeerOk(p) && budget >= FRAME_HEADER + 4 && OpensFit(p, budget)
    requires TakenFrames(Pass(p, budget, 0, 0), controlsOnly) == []
    ensures NoControls(p) && (controlsOnly || NoBytes(p, floor))
  {
    hide TakenFrames, LastPass, StreamOk, Idle, HasControl, ReadyBytes, SameWork, Distinct, Finished;
    var x := Pass(p, budget, 0, 0);
    EmptyTake(x, controlsOnly);
    TakeIsWorkConserving(p, budget, controlsOnly);
    var q := LastPass(x, controlsOnly).p;
    forall id | id in p.streams
      ensures !HasControl(p.streams[id]) && (controlsOnly || ReadyBytes(p.streams[id], floor) == 0)
    {
      IdleHasNothing(p.streams[id], id, p.window, q.streams[id], budget, controlsOnly, floor);
    }
  }

  /** The report is exact: the take for which the writer decides on it, with data only if some bytes are ready, gives
      nothing just when there are none and no stream has anything else to send. */
  lemma PressureIsExact(p: Peer, floor: int, budget: int)
    requires PeerOk(p) && !p.closed && budget >= FRAME_HEADER + 4 && OpensFit(p, budget)
    ensures Listed(p) && Countable(p.order, p.streams)
    ensures var pressure := PressureOf(p, floor);
            Take(p, budget, pressure.bytes == 0).1 == [] <==> pressure.bytes == 0 && pressure.controls == 0
  {
    hide PeerOk, Listed, NoControls, NoBytes, OpensFit, Countable, Shares, PressureOf, TakenFrames, LastPass;
    OkListed(p);
    PressureEmpty(p, floor);
    var controlsOnly := PressureOf(p, floor).bytes == 0;
    if TakenFrames(Pass(p, budget, 0, 0), controlsOnly) == [] {
      EmptyTakeMeans(p, budget, controlsOnly, floor);
    } else if NoControls(p) {
      if controlsOnly {
        QuietTake(Pass(p, budget, 0, 0));
      }
    }
  }

  /** No stream loses its bytes to the floor for ever: what is ready is all that is queued, or at least the floor. */
  lemma ReadyIsWorthIt(s: Stream, floor: int)
    requires s.tx.queuedBytes >= 0
    ensures var ready := ReadyBytes(s, floor);
            && 0 <= ready <= s.tx.credit && ready <= s.tx.queuedBytes
            && (ready > 0 ==> !s.reset && !s.tx.localFinSent && (ready >= floor || ready == s.tx.queuedBytes))
            && (ready == 0 ==>
                  || s.reset || s.tx.localFinSent || s.tx.queuedBytes == 0 || s.tx.credit == 0
                  || (s.tx.credit < floor && s.tx.credit < s.tx.queuedBytes))
  {
  }
}
