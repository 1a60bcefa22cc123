/** The multiplexer (the `Peer` of internal/mux/peer.go): a table of streams, the round-robin order over them,
    and the operations that run under its mutex. */
module MuxPeer {
  import opened Bytes
  import opened Cell
  import opened MuxStream

  const TAKE_LIMIT := 4096

  /** The fields of a Peer. `dial` tells the server side, which can dial destinations; `retired` remembers the
      last state of every stream that left the table. */
  datatype Peer = Peer(
    window: u32, send: u32, dial: bool, streams: map<u32, Stream>, order: seq<u32>, cursor: nat,
    highest: u32, closed: bool, retired: map<u32, Stream>)

  function NewPeer(dial: bool, window: u32, send: u32): Peer {
    Peer(window, send, dial, map[], [], 0, 0, false, map[])
  }

  predicate Distinct(ids: seq<u32>) {
    forall i, j :: 0 <= i < j < |ids| ==> ids[i] != ids[j]
  }

  /** `order` lists exactly the live streams, each once. */
  ghost predicate Listed(p: Peer) {
    && Distinct(p.order)
    && (forall id :: id in p.order <==> id in p.streams)
    && p.cursor <= |p.order|
  }

  ghost predicate PeerSound(p: Peer) {
    && Listed(p) && |p.order| <= MAX_STREAMS
    && (forall id :: id in p.streams ==> 1 <= id <= p.highest && StreamOk(p.streams[id], id, p.window) && id !in p.retired)
    && (forall id :: id in p.retired ==> 1 <= id <= p.highest)
    && (|p.order| == MAX_STREAMS ==> p.highest in p.streams)
  }

  /** No stream but possibly this one stays in the table when both its directions are over. */
  ghost predicate OthersRun(p: Peer, id: u32) {
    forall k :: k in p.streams && k != id ==> !Finished(p.streams[k])
  }

  /** The table is sound and every stream in it still has something to do. */
  ghost predicate PeerOk(p: Peer) {
    PeerSound(p) && forall id :: id in p.streams ==> !Finished(p.streams[id])
  }

  // ---------------------------------------------------------------- the scheduler's order

  function Filter(ids: seq<u32>, id: u32): seq<u32> {
    if ids == [] then []
    else (if ids[0] == id then [] else [ids[0]]) + Filter(ids[1..], id)
  }

  function IndexOf(ids: seq<u32>, id: u32): (i: nat)
    ensures i <= |ids|
    ensures i < |ids| ==> ids[i] == id
    ensures forall k :: 0 <= k < i ==> ids[k] != id
    ensures id in ids ==> i < |ids|
  {
    if ids == [] || ids[0] == id then 0 else 1 + IndexOf(ids[1..], id)
  }

  /** The streams in the order in which the scheduler will visit them. */
  function Rotation(order: seq<u32>, cursor: nat): seq<u32>
    requires cursor <= |order|
  {
    order[cursor..] + order[..cursor]
  }

  function Update(p: Peer, id: u32, s: Stream): Peer {
    p.(streams := p.streams[id := s])
  }

  lemma CutDistinct(order: seq<u32>, i: nat)
    requires i < |order|
    ensures var cut := order[..i] + order[i + 1..];
            Distinct(order) ==> Distinct(cut) && (forall k :: k in cut <==> k in order && k != order[i])
  {
    var cut := order[..i] + order[i + 1..];
    forall k | Distinct(order) ensures k in cut <==> k in order && k != order[i] {
      if k in order && k != order[i] {
        var n :| 0 <= n < |order| && order[n] == k;
        assert cut[if n < i then n else n - 1] == k;
      }
    }
  }

  /** removeStream: the entry and its place in the order go; the cursor keeps pointing at the same successor. */
  function Remove(p: Peer, id: u32): (q: Peer)
    requires p.cursor <= |p.order|
    ensures q.cursor <= |q.order|
    ensures Listed(p) ==> Listed(q)
  {
    var i := IndexOf(p.order, id);
    var p1 := if id in p.streams then p.(retired := p.retired[id := p.streams[id]], streams := p.streams - {id}) else p;
    if i == |p.order| then p1
    else
      CutDistinct(p.order, i);
      var order := p.order[..i] + p.order[i + 1..];
      var moved := if i < p.cursor then p.cursor - 1 else p.cursor;
      p1.(order := order, cursor := if moved >= |order| then 0 else moved)
  }

  function NewStream(p: Peer, id: u32): Peer {
    p.(streams := p.streams[id := Fresh(p.send, p.window)], order := p.order + [id])
  }

  // ---------------------------------------------------------------- local operations

  /** When Peer.Open accepts a connection. */
  predicate CanOpen(p: Peer, authority: seq<byte>) {
    !p.closed && !p.dial && |p.streams| < MAX_STREAMS && |authority| <= MAX_AUTHORITY && p.highest != MAX_U32
  }

  /** Peer.Open: a new stream that still has to send its OPEN. */
  function OpenStream(p: Peer, authority: seq<byte>): Peer
    requires CanOpen(p, authority)
  {
    var id := p.highest + 1;
    var s := Fresh(p.send, p.window).(open := Some(Frame(OPEN, id, 0, authority)), attached := true);
    Update(NewStream(p.(highest := id), id), id, s)
  }

  /** The end of a successful dial. */
  function Dialed(p: Peer, id: u32): Peer
    requires id in p.streams
  {
    Update(p, id, p.streams[id].(ack := true, attached := true))
  }

  /** Peer.fail. */
  function Fail(p: Peer, id: u32): Peer
    requires id in p.streams
  {
    Update(p, id, p.streams[id].(reset := true))
  }

  /** The writer has performed the half-close. */
  function WriterFin(p: Peer, id: u32): Peer
    requires id in p.streams && p.cursor <= |p.order|
  {
    var s := p.streams[id].(rx := FinishFin(p.streams[id].rx));
    var q := Update(p, id, s);
    if s.tx.localFinSent && s.rx.grant == 0 then Remove(q, id) else q
  }

  // ---------------------------------------------------------------- Receive

  /** One turn of the loop in Receive; None is an error. `valid` is the host:port syntax check. */
  function ReceiveOne(p: Peer, f: Frame, valid: seq<byte> -> bool): (r: Option<Peer>)
    requires p.cursor <= |p.order|
    ensures r.Some? ==> r.value.cursor <= |r.value.order|
  {
    if f.kind == ACK || f.stream == 0 then None
    else if f.kind == OPEN then
      if !p.dial || f.stream <= p.highest || f.sequence != 0 || f.body == [] || |f.body| > MAX_AUTHORITY
         || |p.streams| >= MAX_STREAMS || !valid(f.body) then None
      else Some(NewStream(p.(highest := f.stream), f.stream))
    else if f.stream !in p.streams then
      if f.stream <= p.highest && f.kind != AUTH then Some(p) else None
    else
      match Accept(p.streams[f.stream], f, p.dial, p.send)
      case Refused => None
      case Closed => Some(Remove(p, f.stream))
      case Kept(s) => Some(Update(p, f.stream, s))
  }

  /** Frames before the refused one stay applied. */
  function ReceiveAll(p: Peer, frames: seq<Frame>, valid: seq<byte> -> bool): (Peer, bool)
    requires p.cursor <= |p.order|
    decreases |frames|
  {
    if frames == [] then (p, true)
    else
      match ReceiveOne(p, frames[0], valid)
      case None => (p, false)
      case Some(q) => ReceiveAll(q, frames[1..], valid)
  }

  // ---------------------------------------------------------------- take

  function Head(p: Peer): (id: u32)
    requires Listed(p) && p.order != []
    ensures id in p.streams
  {
    p.order[p.cursor % |p.order|]
  }

  function Advance(p: Peer): (q: Peer)
    requires Listed(p) && p.order != []
    ensures Listed(q)
  {
    p.(cursor := p.cursor % |p.order| + 1)
  }

  /** The variables of the loop in take: the peer, the bytes left, the misses in a row, the frames taken. */
  datatype Pass = Pass(p: Peer, budget: int, misses: nat, count: nat)

  predicate Running(x: Pass) {
    x.budget >= FRAME_HEADER && x.misses < |x.p.order| && x.count < TAKE_LIMIT
  }

  function HeadVisit(x: Pass, controlsOnly: bool): Visit
    requires Listed(x.p) && Running(x)
  {
    VisitStream(x.p.streams[Head(x.p)], Head(x.p), x.budget, controlsOnly)
  }

  /** The frames (none or one) that a turn of the loop appends. */
  function TurnFrames(x: Pass, controlsOnly: bool): seq<Frame>
    requires Listed(x.p) && Running(x)
  {
    var v := HeadVisit(x, controlsOnly);
    if v.Send? then [v.frame] else []
  }

  /** A turn of the loop in take: the stream under the cursor is visited. */
  function TurnPass(x: Pass, controlsOnly: bool): (y: Pass)
    requires Listed(x.p) && Running(x)
    ensures Listed(y.p)
    ensures y.budget < x.budget
            || (y.budget == x.budget && (|y.p.order| < |x.p.order| || (|y.p.order| == |x.p.order| && y.misses > x.misses)))
  {
    hide VisitStream, Distinct;
    var id := Head(x.p);
    var q := Advance(x.p);
    match HeadVisit(x, controlsOnly)
    case Retire => RemoveShrinks(q, id); Pass(Remove(q, id), x.budget, x.misses, x.count)
    case Miss(s) => Pass(Update(q, id, s), x.budget, x.misses + 1, x.count)
    case Send(s, f, remove) =>
      var u := Update(q, id, s);
      Pass(if remove then Remove(u, id) else u, x.budget - f.Size(), 0, x.count + 1)
  }

  lemma RemoveShrinks(p: Peer, id: u32)
    requires Listed(p) && id in p.streams
    ensures |Remove(p, id).order| == |p.order| - 1
    ensures id !in Remove(p, id).streams
  {
    assert id in p.order;
  }

  /** Where the loop in take stops. It does, because a turn spends budget, or shortens the order, or adds a miss. */
  function LastPass(x: Pass, controlsOnly: bool): (y: Pass)
    requires Listed(x.p)
    ensures Listed(y.p) && !Running(y)
    decreases x.budget, |x.p.order|, |x.p.order| - x.misses
  {
    if Running(x) then LastPass(TurnPass(x, controlsOnly), controlsOnly) else x
  }

  /** The frames that the loop collects. */
  function TakenFrames(x: Pass, controlsOnly: bool): seq<Frame>
    requires Listed(x.p)
    decreases x.budget, |x.p.order|, |x.p.order| - x.misses
  {
    if Running(x) then TurnFrames(x, controlsOnly) + TakenFrames(TurnPass(x, controlsOnly), controlsOnly) else []
  }

  function Take(p: Peer, budget: int, controlsOnly: bool): (Peer, seq<Frame>)
    requires Listed(p)
  {
    if p.closed then (p, [])
    else
      var x := Pass(p, budget, 0, 0);
      (LastPass(x, controlsOnly).p, TakenFrames(x, controlsOnly))
  }
}
