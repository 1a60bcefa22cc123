/** A full table (`Open`, `take` and `Receive` in internal/mux/peer.go). Both sides allow 32 streams, but a client leaves a
    stream when its last FIN is sent, the server only when that FIN has reached its socket. In between the client may
    open another. This module gives a run, without an OPEN missed, in which the server refuses that one. */
module MuxFull {
  import opened Bytes
  import opened Cell
  import opened MuxStream
  import opened MuxPeer
  import opened MuxScheduler
  import opened MuxPair
  import opened MuxRun
  import opened MuxOpens

  // ---------------------------------------------------------------- putting runs together

  /** The run leads from n to m, and no take of the client misses an OPEN. */
  ghost predicate Clean(n: Net, events: seq<(bool, Event)>, valid: seq<byte> -> bool, m: Net) {
    Reaches(n, events, valid, m) && NoneMissed(n, events, valid)
  }

  lemma CleanNothing(n: Net, valid: seq<byte> -> bool)
    ensures Clean(n, [], valid, n)
  {
  }

  lemma {:induction false} CleanJoin(n: Net, first: seq<(bool, Event)>, valid: seq<byte> -> bool, k: Net,
                                     second: seq<(bool, Event)>, m: Net)
    requires Clean(n, first, valid, k) && Clean(k, second, valid, m)
    ensures Clean(n, first + second, valid, m)
    decreases |first|
  {
    hide Act, Listed, MissesNone;
    if first == [] {
      assert first + second == second;
    } else {
      assert (first + second)[0] == first[0] && (first + second)[1..] == first[1..] + second;
      CleanJoin(Act(n, first[0].0, first[0].1, valid), first[1..], valid, k, second, m);
    }
  }

  /** One event. */
  lemma Move(n: Net, atA: bool, ev: Event, valid: seq<byte> -> bool)
    requires Inv(n, valid) && MissesNone(n, atA, ev)
    ensures Listed(n.a) && Listed(n.b)
    ensures Clean(n, [(atA, ev)], valid, Act(n, atA, ev, valid)) && Inv(Act(n, atA, ev, valid), valid)
  {
    hide Inv, Act, Listed, MissesNone;
    InvListed(n, valid);
    ActInv(n, atA, ev, valid);
    var one := [(atA, ev)];
    assert one[1..] == [];
    CleanNothing(Act(n, atA, ev, valid), valid);
  }

  /** The two peers and nothing under way. */
  ghost predicate Calm(n: Net, valid: seq<byte> -> bool) {
    Inv(n, valid) && n.refused.None? && n.ab == [] && n.ba == []
  }

  // ---------------------------------------------------------------- takes

  /** A turn that uses up the budget is the last. */
  lemma LastTurn(x: Pass)
    requires Listed(x.p) && Running(x) && TurnPass(x, false).budget < FRAME_HEADER
    ensures LastPass(x, false) == TurnPass(x, false) && TakenFrames(x, false) == TurnFrames(x, false)
    ensures !TurnMisses(x) ==> NoOpenMissed(x, false)
  {
    hide TurnPass, TurnFrames, Listed, TurnMisses;
    TakeTurn(x, false);
    assert !Running(TurnPass(x, false));
    assert TurnFrames(x, false) + [] == TurnFrames(x, false);
  }

  /** A take that one frame uses up. */
  lemma OneTurnTake(p: Peer, budget: int)
    requires Listed(p) && !p.closed && Running(Pass(p, budget, 0, 0))
    requires TurnPass(Pass(p, budget, 0, 0), false).budget < FRAME_HEADER
    ensures var x := Pass(p, budget, 0, 0);
            && Take(p, budget, false) == (TurnPass(x, false).p, TurnFrames(x, false))
            && (!TurnMisses(x) ==> NoOpenMissed(x, false))
  {
    hide TurnPass, TurnFrames, Listed, TurnMisses, LastPass, TakenFrames, NoOpenMissed;
    LastTurn(Pass(p, budget, 0, 0));
  }

  /** The stream has nothing to send. */
  predicate Silent(s: Stream) {
    !Finished(s) && !s.reset && s.open.None? && !s.ack && s.rx.grant == 0 && s.tx.pending.None? && s.tx.output == []
  }

  lemma SilentTurn(x: Pass)
    requires Listed(x.p) && Running(x) && Silent(x.p.streams[Head(x.p)])
    ensures TurnPass(x, false) == Pass(Advance(x.p), x.budget, x.misses + 1, x.count)
    ensures TurnFrames(x, false) == [] && !TurnMisses(x)
  {
    hide Listed, Finished;
    assert x.p.streams[Head(x.p) := x.p.streams[Head(x.p)]] == x.p.streams;
  }

  /** The next k streams in the order are silent. */
  predicate SilentFrom(p: Peer, k: nat) {
    && p.cursor + k <= |p.order|
    && forall i :: p.cursor <= i < p.cursor + k ==> p.order[i] in p.streams && Silent(p.streams[p.order[i]])
  }

  /** The take after k misses. */
  function Skip(x: Pass, k: nat): (y: Pass)
    requires Listed(x.p) && x.p.cursor + k <= |x.p.order|
    ensures Listed(y.p)
  {
    x.(p := x.p.(cursor := x.p.cursor + k), misses := x.misses + k)
  }

  /** A take passes over silent streams. */
  lemma {:induction false} PassSilent(x: Pass, k: nat)
    requires Listed(x.p) && SilentFrom(x.p, k) && x.misses + k < |x.p.order| && x.p.cursor + k < |x.p.order|
    requires x.budget >= FRAME_HEADER && x.count < TAKE_LIMIT
    ensures LastPass(x, false) == LastPass(Skip(x, k), false)
    ensures TakenFrames(x, false) == TakenFrames(Skip(x, k), false)
    ensures NoOpenMissed(Skip(x, k), false) ==> NoOpenMissed(x, false)
    decreases k
  {
    hide TurnPass, TurnFrames, Listed, TurnMisses, Silent;
    if k > 0 {
      AtCursor(x.p);
      assert Silent(x.p.streams[x.p.order[x.p.cursor]]);
      SilentTurn(x);
      TakeTurn(x, false);
      var next := TurnPass(x, false);
      PassSilent(next, k - 1);
      assert [] + TakenFrames(next, false) == TakenFrames(next, false);
    }
  }

  lemma AtCursor(p: Peer)
    requires Listed(p) && p.cursor < |p.order|
    ensures Head(p) == p.order[p.cursor] && Advance(p) == p.(cursor := p.cursor + 1)
  {
    hide Listed;
    ModRange(p.cursor, |p.order|);
  }

  // ---------------------------------------------------------------- the two sides

  /** A client with streams 1 to n, all but the first with nothing to send, that has just visited the last. */
  ghost predicate Fleet(p: Peer, n: nat, one: Stream) {
    && !p.closed && !p.dial && PeerOk(p)
    && |p.order| == n && p.cursor == n && p.highest == n
    && (forall i :: 0 <= i < n ==> p.order[i] == i + 1)
    && (forall i :: 1 <= i < n ==> p.order[i] in p.streams && Silent(p.streams[p.order[i]]))
    && (n > 0 ==> 1 in p.streams && p.streams[1] == one)
  }

  /** A server with streams 1 to n. */
  ghost predicate Host(q: Peer, n: nat, one: Stream) {
    && q.dial && !q.closed && PeerOk(q)
    && q.highest == n && |q.streams| == n
    && (n > 0 ==> 1 in q.streams && q.streams[1] == one)
  }

  lemma FleetUpdate(p: Peer, n: nat, one: Stream, s: Stream)
    requires Fleet(p, n, one) && n > 0 && PeerOk(Update(p, 1, s))
    ensures Fleet(Update(p, 1, s), n, s)
  {
    hide PeerOk, Silent;
  }

  lemma HostUpdate(q: Peer, n: nat, one: Stream, s: Stream)
    requires Host(q, n, one) && n > 0 && PeerOk(Update(q, 1, s))
    ensures Host(Update(q, 1, s), n, s)
  {
    hide PeerOk;
    assert q.streams[1 := s].Keys == q.streams.Keys;
  }

  /** A stream of the client once its OPEN is sent. */
  function Announced(send: u32, window: u32): Stream {
    Fresh(send, window).(attached := true)
  }

  lemma FleetOpens(p: Peer, n: nat, one: Stream, authority: seq<byte>)
    requires Fleet(p, n, one) && n < MAX_STREAMS && |authority| <= MAX_AUTHORITY
    ensures CanOpen(p, authority) && PeerOk(OpenStream(p, authority)) && Listed(OpenStream(p, authority))
    ensures var q := OpenStream(p, authority);
            && q.order != [] && Head(q) == n + 1 && Announces(q, n + 1, Frame(OPEN, n + 1, 0, authority)) && !q.closed
            && Advance(q).cursor == n + 1
  {
    hide PeerOk, Listed, Silent, StreamOk;
    MayOpenMore(p, authority);
    OpenKeeps(p, authority);
    OkListed(OpenStream(p, authority));
    OpensOne(p, authority);
    var q := OpenStream(p, authority);
    assert q.order == p.order + [p.highest + 1];
    ModRange(n, n + 1);
  }

  lemma MayOpenMore(p: Peer, authority: seq<byte>)
    requires PeerOk(p) && !p.closed && !p.dial && |p.order| < MAX_STREAMS && p.highest < MAX_U32
    requires |authority| <= MAX_AUTHORITY
    ensures CanOpen(p, authority)
  {
    hide StreamOk;
    OrderLength(p);
  }

  /** The client opens one more stream, and a take of just its size sends the OPEN. */
  lemma FleetSends(p: Peer, n: nat, one: Stream, authority: seq<byte>)
    requires Fleet(p, n, one) && n < MAX_STREAMS && |authority| <= MAX_AUTHORITY
    requires n == 0 ==> one == Announced(p.send, p.window)
    ensures CanOpen(p, authority)
    ensures var q := OpenStream(p, authority);
            var budget := FRAME_HEADER + |authority|;
            && Listed(q) && NoOpenMissed(Pass(q, budget, 0, 0), false)
            && Take(q, budget, false).1 == [Frame(OPEN, n + 1, 0, authority)]
            && (PeerOk(Take(q, budget, false).0) ==> Fleet(Take(q, budget, false).0, n + 1, one))
  {
    hide PeerOk, Listed, OpenStream, TurnPass, TurnFrames, Take, CanOpen;
    FleetOpens(p, n, one, authority);
    var q, f := OpenStream(p, authority), Frame(OPEN, n + 1, 0, authority);
    var x := Pass(q, f.Size(), 0, 0);
    AnnouncingTurn(x, f, false);
    OneTurnTake(q, f.Size());
    FleetGrows(p, n, one, authority);
  }

  lemma FleetGrows(p: Peer, n: nat, one: Stream, authority: seq<byte>)
    requires Fleet(p, n, one) && n < MAX_STREAMS && CanOpen(p, authority)
    requires n == 0 ==> one == Announced(p.send, p.window)
    requires var q := OpenStream(p, authority);
             Listed(q) && q.order != [] && n + 1 in q.streams && Advance(q).cursor == n + 1
    ensures var q := OpenStream(p, authority);
            var r := Update(Advance(q), n + 1, q.streams[n + 1].(open := None));
            PeerOk(r) ==> Fleet(r, n + 1, one)
  {
    hide PeerOk, Listed;
    var q := OpenStream(p, authority);
    var r := Update(Advance(q), n + 1, q.streams[n + 1].(open := None));
    assert r.order == p.order + [p.highest + 1];
    forall i | 1 <= i < n + 1 ensures r.order[i] in r.streams && Silent(r.streams[r.order[i]]) {
      if i < n {
        assert r.order[i] == p.order[i];
      }
    }
  }

  /** The server accepts it. */
  lemma HostAccepts(q: Peer, n: nat, one: Stream, authority: seq<byte>, valid: seq<byte> -> bool)
    requires Host(q, n, one) && n < MAX_STREAMS && 0 < |authority| <= MAX_AUTHORITY && valid(authority)
    requires n == 0 ==> one == Fresh(q.send, q.window)
    ensures q.cursor <= |q.order|
    ensures var (r, ok) := ReceiveAll(q, [Frame(OPEN, n + 1, 0, authority)], valid);
            ok && (PeerOk(r) ==> Host(r, n + 1, one))
  {
    hide StreamOk, Listed;
    OkListed(q);
    CursorInside(q);
    var f := Frame(OPEN, n + 1, 0, authority);
    assert n + 1 !in q.streams;
    var r := NewStream(q.(highest := n + 1), n + 1);
    hide PeerOk, Fresh;
    assert ReceiveOne(q, f, valid) == Some(r);
    assert [f][1..] == [];
    assert r.streams.Keys == q.streams.Keys + {n + 1};
  }

  // ---------------------------------------------------------------- another stream

  /** The client opens a stream, sends its OPEN, and the server receives it. */
  function Another(authority: seq<byte>): seq<(bool, Event)> {
    [(true, Open(authority))] + [(true, TakeCell(FRAME_HEADER + |authority|, false))] + [(false, ReceiveCell)]
  }

  lemma AnotherSent(n: Net, k: nat, c: Stream, authority: seq<byte>, valid: seq<byte> -> bool) returns (m: Net)
    requires Calm(n, valid) && Fleet(n.a, k, c) && k < MAX_STREAMS && |authority| <= MAX_AUTHORITY
    requires k == 0 ==> c == Announced(n.a.send, n.a.window)
    ensures Clean(n, [(true, Open(authority))] + [(true, TakeCell(FRAME_HEADER + |authority|, false))], valid, m)
    ensures Inv(m, valid) && m.refused.None? && m.ab == [[Frame(OPEN, k + 1, 0, authority)]] && m.ba == []
    ensures m.b == n.b && Fleet(m.a, k + 1, c)
  {
    hide Inv, Act, Listed, PeerOk, Take, OpenStream, Fleet, CanOpen, Clean, NoOpenMissed;
    FleetIsClient(n.a, k, c);
    FleetSends(n.a, k, c, authority);
    Move(n, true, Open(authority), valid);
    ClientOpens(n, authority, valid);
    var n1 := n.(a := OpenStream(n.a, authority));
    OpenLeavesFlags(n.a, authority);
    var budget := FRAME_HEADER + |authority|;
    Move(n1, true, TakeCell(budget, false), valid);
    ClientTakes(n1, budget, valid);
    m := Act(n1, true, TakeCell(budget, false), valid);
    CleanJoin(n, [(true, Open(authority))], valid, n1, [(true, TakeCell(budget, false))], m);
    InvPeers(m, valid);
  }

  lemma FleetIsClient(p: Peer, n: nat, one: Stream)
    requires Fleet(p, n, one)
    ensures !p.closed && !p.dial && PeerOk(p) && |p.order| == n
  {
    hide PeerOk, Silent;
  }

  lemma OpenLeavesFlags(p: Peer, authority: seq<byte>)
    requires CanOpen(p, authority)
    ensures !OpenStream(p, authority).closed
  {
  }

  lemma AnotherRun(n: Net, k: nat, c: Stream, s: Stream, authority: seq<byte>, valid: seq<byte> -> bool) returns (m: Net)
    requires Calm(n, valid) && Fleet(n.a, k, c) && Host(n.b, k, s) && k < MAX_STREAMS
    requires 0 < |authority| <= MAX_AUTHORITY && valid(authority)
    requires k == 0 ==> c == Announced(n.a.send, n.a.window) && s == Fresh(n.b.send, n.b.window)
    ensures Clean(n, Another(authority), valid, m)
    ensures Calm(m, valid) && Fleet(m.a, k + 1, c) && Host(m.b, k + 1, s)
  {
    hide Inv, Act, Listed, PeerOk, Fleet, Host, Clean, ReceiveAll;
    var n2 := AnotherSent(n, k, c, authority, valid);
    HostAccepts(n2.b, k, s, authority, valid);
    Move(n2, false, ReceiveCell, valid);
    ServerTakesOff(n2, valid);
    m := Act(n2, false, ReceiveCell, valid);
    CleanJoin(n, [(true, Open(authority))] + [(true, TakeCell(FRAME_HEADER + |authority|, false))], valid, n2,
              [(false, ReceiveCell)], m);
    InvPeers(m, valid);
  }

  /** The same count times. */
  function Others(authority: seq<byte>, count: nat): seq<(bool, Event)> {
    if count == 0 then [] else Others(authority, count - 1) + Another(authority)
  }

  lemma {:induction false} OthersRun(n: Net, k: nat, count: nat, c: Stream, s: Stream, authority: seq<byte>,
                                     valid: seq<byte> -> bool)
    returns (m: Net)
    requires Calm(n, valid) && Fleet(n.a, k, c) && Host(n.b, k, s) && 0 < k && k + count <= MAX_STREAMS
    requires 0 < |authority| <= MAX_AUTHORITY && valid(authority)
    ensures Clean(n, Others(authority, count), valid, m)
    ensures Calm(m, valid) && Fleet(m.a, k + count, c) && Host(m.b, k + count, s)
    decreases count
  {
    hide Inv, Fleet, Host, Clean, Another, Calm;
    if count == 0 {
      m := n;
      CleanNothing(n, valid);
    } else {
      var l := OthersRun(n, k, count - 1, c, s, authority, valid);
      m := AnotherRun(l, k + count - 1, c, s, authority, valid);
      CleanJoin(n, Others(authority, count - 1), valid, l, Another(authority), m);
    }
  }

  // ---------------------------------------------------------------- one stream ends

  lemma ClientLocal(n: Net, ev: Event, valid: seq<byte> -> bool)
    requires Inv(n, valid) && n.refused.None? && !ev.TakeCell? && !ev.ReceiveCell? && Enabled(n.a, [], ev)
    ensures n.a.cursor <= |n.a.order| && Listed(n.a) && Listed(n.b)
    ensures Act(n, true, ev, valid) == n.(a := Local(n.a, ev))
    ensures Clean(n, [(true, ev)], valid, n.(a := Local(n.a, ev))) && Inv(n.(a := Local(n.a, ev)), valid)
  {
    hide Inv, Listed, Local, Clean, CanOpen;
    InvPeers(n, valid);
    Move(n, true, ev, valid);
  }

  lemma ServerLocal(n: Net, ev: Event, valid: seq<byte> -> bool)
    requires Inv(n, valid) && n.refused.None? && !ev.TakeCell? && !ev.ReceiveCell? && Enabled(n.b, [], ev)
    ensures n.b.cursor <= |n.b.order| && Listed(n.a) && Listed(n.b)
    ensures Act(n, false, ev, valid) == n.(b := Local(n.b, ev))
    ensures Clean(n, [(false, ev)], valid, n.(b := Local(n.b, ev))) && Inv(n.(b := Local(n.b, ev)), valid)
  {
    hide Inv, Listed, Local, Clean, CanOpen;
    InvPeers(n, valid);
    Move(n, false, ev, valid);
  }

  lemma ServerTakes(n: Net, budget: int, valid: seq<byte> -> bool)
    requires Inv(n, valid) && n.refused.None? && !n.b.closed
    ensures Listed(n.a) && Listed(n.b)
    ensures var (q, cell) := Take(n.b, budget, false);
            var m := n.(b := q, ba := n.ba + [cell]);
            Clean(n, [(false, TakeCell(budget, false))], valid, m) && Inv(m, valid)
  {
    hide Inv, Listed, Take, Clean;
    Move(n, false, TakeCell(budget, false), valid);
  }

  lemma ClientTakesOff(n: Net, p: Peer, valid: seq<byte> -> bool)
    requires Inv(n, valid) && n.refused.None? && n.ba != [] && n.a.cursor <= |n.a.order|
    requires ReceiveAll(n.a, n.ba[0], valid) == (p, true)
    ensures var m := n.(a := p, ba := n.ba[1..]);
            Clean(n, [(true, ReceiveCell)], valid, m) && Inv(m, valid)
  {
    hide Inv, Listed, ReceiveAll, Clean;
    Move(n, true, ReceiveCell, valid);
  }

  /** A take of one header by a peer whose only stream has something that small to send. */
  lemma OnlyStreamSends(q: Peer, s: Stream, s': Stream, f: Frame)
    requires Host(q, 1, s) && VisitStream(s, 1, FRAME_HEADER, false) == Send(s', f, false) && f.body == []
    ensures Listed(q) && Take(q, FRAME_HEADER, false).1 == [f]
    ensures PeerOk(Take(q, FRAME_HEADER, false).0) ==> Host(Take(q, FRAME_HEADER, false).0, 1, s')
  {
    hide PeerOk, Listed, VisitStream, MissesOpen, Take;
    OkListed(q);
    OnlyHead(q);
    var x := Pass(q, FRAME_HEADER, 0, 0);
    assert HeadVisit(x, false) == Send(s', f, false);
    OneTurnTake(q, FRAME_HEADER);
    assert TurnPass(x, false).p == Update(Advance(q), 1, s');
    assert q.streams[1 := s'].Keys == q.streams.Keys;
  }

  lemma OnlyHead(q: Peer)
    requires Listed(q) && |q.streams| == 1 && 1 in q.streams
    ensures q.order != [] && Head(q) == 1
  {
    OrderLength(q);
    assert 1 in q.order;
  }

  /** A frame for stream 1 is received. */
  lemma FirstReceives(p: Peer, f: Frame, s: Stream, valid: seq<byte> -> bool)
    requires p.cursor <= |p.order| && 1 in p.streams && f.stream == 1 && f.kind != OPEN && f.kind != ACK
    requires Accept(p.streams[1], f, p.dial, p.send) == Kept(s)
    ensures ReceiveAll(p, [f], valid) == (Update(p, 1, s), true)
  {
    hide Accept, Remove;
    assert ReceiveOne(p, f, valid) == Some(Update(p, 1, s));
    assert [f][1..] == [];
  }

  const END: Frame := Frame(FIN, 1, 0, [])

  /** The server's stream 1 is connected, meets the end of its socket and has sent its FIN. */
  function HostEvents(): seq<(bool, Event)> {
    [(false, DialDone(1))] + [(false, SocketEof(1))]
    + [(false, TakeCell(FRAME_HEADER, false))] + [(false, TakeCell(FRAME_HEADER, false))]
  }

  function HostEnded(s: Stream): Stream {
    s.(attached := true, tx := s.tx.(eof := true, localFinSent := true))
  }

  lemma HostRun(n: Net, valid: seq<byte> -> bool) returns (m: Net)
    requires Calm(n, valid) && Host(n.b, 1, Fresh(n.b.send, n.b.window))
    ensures Clean(n, HostEvents(), valid, m)
    ensures Inv(m, valid) && m.refused.None? && m.a == n.a && m.ab == [] && m.ba == [[Frame(OPENED, 1, 0, [])], [END]]
    ensures Host(m.b, 1, HostEnded(Fresh(n.b.send, n.b.window)))
  {
    hide Inv, Listed, PeerOk, Clean, Take, VisitStream;
    var s0 := Fresh(n.b.send, n.b.window);

    ServerLocal(n, DialDone(1), valid);
    var s1 := s0.(ack := true, attached := true);
    var n1 := n.(b := Dialed(n.b, 1));
    InvPeers(n1, valid);
    HostUpdate(n.b, 1, s0, s1);

    ServerLocal(n1, SocketEof(1), valid);
    var s2 := s1.(tx := ReadEof(s1.tx, 1));
    var n2 := n1.(b := SetTx(n1.b, 1, s2.tx));
    InvPeers(n2, valid);
    HostUpdate(n1.b, 1, s1, s2);
    CleanJoin(n, [(false, DialDone(1))], valid, n1, [(false, SocketEof(1))], n2);

    var s3 := s2.(ack := false);
    AckVisit(s2);
    OnlyStreamSends(n2.b, s2, s3, Frame(OPENED, 1, 0, []));
    ServerTakes(n2, FRAME_HEADER, valid);
    var n3 := n2.(b := Take(n2.b, FRAME_HEADER, false).0, ba := [[Frame(OPENED, 1, 0, [])]]);
    assert n2.ba + [[Frame(OPENED, 1, 0, [])]] == n3.ba;
    InvPeers(n3, valid);
    CleanJoin(n, [(false, DialDone(1))] + [(false, SocketEof(1))], valid, n2, [(false, TakeCell(FRAME_HEADER, false))], n3);

    var s4 := HostEnded(s0);
    FinVisit(s3, s4);
    OnlyStreamSends(n3.b, s3, s4, END);
    ServerTakes(n3, FRAME_HEADER, valid);
    m := n3.(b := Take(n3.b, FRAME_HEADER, false).0, ba := n3.ba + [[END]]);
    InvPeers(m, valid);
    CleanJoin(n, [(false, DialDone(1))] + [(false, SocketEof(1))] + [(false, TakeCell(FRAME_HEADER, false))], valid, n3,
              [(false, TakeCell(FRAME_HEADER, false))], m);
  }

  lemma AckVisit(s: Stream)
    requires s.ack && !s.reset && s.open.None? && !Finished(s)
    ensures VisitStream(s, 1, FRAME_HEADER, false) == Send(s.(ack := false), Frame(OPENED, 1, 0, []), false)
  {
  }

  /** A visit that sends the FIN. */
  lemma FinVisit(s: Stream, s': Stream)
    requires !s.ack && !s.reset && s.open.None? && s.rx.grant == 0 && !s.tx.localFinSent
    requires s.tx.pending.None? && s.tx.output == [END]
    requires s' == s.(tx := s.tx.(output := [], localFinSent := true))
    ensures VisitStream(s, 1, FRAME_HEADER, false) == Send(s', END, Finished(s'))
  {
  }

  /** The client receives OPENED and FIN, and half-closes its socket. */
  function ClientEvents(): seq<(bool, Event)> {
    [(true, ReceiveCell)] + [(true, ReceiveCell)] + [(true, Popped(1))] + [(true, FinDone(1))]
  }

  function ClientEnded(c: Stream): Stream {
    c.(rx := c.rx.(remoteFin := true, remoteFinWritten := true))
  }

  lemma ClientRun(n: Net, valid: seq<byte> -> bool) returns (m: Net)
    requires Inv(n, valid) && n.refused.None? && n.ab == [] && n.ba == [[Frame(OPENED, 1, 0, [])], [END]]
    requires Fleet(n.a, 1, Announced(n.a.send, n.a.window))
    ensures Clean(n, ClientEvents(), valid, m)
    ensures Calm(m, valid) && m.b == n.b && Fleet(m.a, 1, ClientEnded(Announced(n.a.send, n.a.window)))
  {
    hide Inv, Listed, PeerOk, Clean, ReceiveAll, Fleet;
    var c0 := Announced(n.a.send, n.a.window);
    FleetFirst(n.a, 1, c0);
    FirstReceives(n.a, Frame(OPENED, 1, 0, []), c0, valid);
    ClientTakesOff(n, Update(n.a, 1, c0), valid);
    var n1 := n.(a := Update(n.a, 1, c0), ba := [[END]]);
    assert n.ba[1..] == n1.ba;
    InvPeers(n1, valid);
    FleetUpdate(n.a, 1, c0, c0);

    var c1 := c0.(rx := c0.rx.(input := [END], remoteFin := true));
    assert c0.rx.input + [END] == [END];
    FleetFirst(n1.a, 1, c0);
    FirstReceives(n1.a, END, c1, valid);
    ClientTakesOff(n1, Update(n1.a, 1, c1), valid);
    var n2 := n1.(a := Update(n1.a, 1, c1), ba := []);
    assert n1.ba[1..] == n2.ba;
    InvPeers(n2, valid);
    FleetUpdate(n1.a, 1, c0, c1);
    CleanJoin(n, [(true, ReceiveCell)], valid, n1, [(true, ReceiveCell)], n2);

    var c2 := c1.(rx := PopInput(c1.rx));
    FleetFirst(n2.a, 1, c1);
    ClientLocal(n2, Popped(1), valid);
    var n3 := n2.(a := SetRx(n2.a, 1, c2.rx));
    InvPeers(n3, valid);
    FleetUpdate(n2.a, 1, c1, c2);
    CleanJoin(n, [(true, ReceiveCell)] + [(true, ReceiveCell)], valid, n2, [(true, Popped(1))], n3);

    var c3 := ClientEnded(c0);
    FleetFirst(n3.a, 1, c2);
    ClientLocal(n3, FinDone(1), valid);
    assert c2.(rx := FinishFin(c2.rx)) == c3;
    m := n3.(a := Update(n3.a, 1, c3));
    InvPeers(m, valid);
    FleetUpdate(n3.a, 1, c2, c3);
    CleanJoin(n, [(true, ReceiveCell)] + [(true, ReceiveCell)] + [(true, Popped(1))], valid, n3, [(true, FinDone(1))], m);
  }

  lemma FleetFirst(p: Peer, n: nat, one: Stream)
    requires Fleet(p, n, one) && n > 0
    ensures 1 in p.streams && p.streams[1] == one && p.cursor <= |p.order| && !p.closed && !p.dial
  {
    hide PeerOk, Silent;
  }

  // ---------------------------------------------------------------- the client leaves, the server does not

  /** A client that has left stream 1; the other ones up to n have nothing to send. */
  ghost predicate Left(p: Peer, n: nat) {
    && !p.closed && !p.dial && PeerOk(p)
    && |p.order| == n - 1 && p.cursor == 0 && p.highest == n && 1 in p.retired
    && (forall i :: 0 <= i < n - 1 ==> p.order[i] in p.streams && Silent(p.streams[p.order[i]]))
  }

  /** The client's stream 1 meets the end of its socket and its FIN is sent and received. */
  function LeaveEvents(): seq<(bool, Event)> {
    [(true, SocketEof(1))] + [(true, TakeCell(FRAME_HEADER, false))] + [(false, ReceiveCell)]
  }

  /** The FIN of stream 1 goes out and the stream leaves the table. */
  lemma FleetLeaves(p: Peer, n: nat, one: Stream)
    requires Fleet(p, n, one) && n > 1 && one.tx.output == [END] && one.tx.pending.None? && !one.tx.localFinSent
    requires !one.ack && !one.reset && one.open.None? && one.rx.grant == 0 && one.rx.remoteFinWritten
    ensures Listed(p) && NoOpenMissed(Pass(p, FRAME_HEADER, 0, 0), false)
    ensures Take(p, FRAME_HEADER, false).1 == [END]
    ensures PeerOk(Take(p, FRAME_HEADER, false).0) ==> Left(Take(p, FRAME_HEADER, false).0, n)
  {
    hide PeerOk, Listed, VisitStream, TurnPass, Take, Remove, NoOpenMissed;
    OkListed(p);
    ModRange(p.cursor, n);
    var x := Pass(p, FRAME_HEADER, 0, 0);
    assert Head(p) == 1;
    var s := one.(tx := one.tx.(output := [], localFinSent := true));
    FinVisit(one, s);
    assert HeadVisit(x, false) == Send(s, END, true);
    SendRemoves(x, s);
    OneTurnTake(p, FRAME_HEADER);
    var q := Update(Advance(p), 1, s);
    UpdateListed(Advance(p), 1, s);
    FirstGoes(q);
    assert forall i :: 0 <= i < n - 1 ==> Remove(q, 1).order[i] == p.order[i + 1];
    StillSilent(p, n, one, Remove(q, 1), s);
  }

  lemma SendRemoves(x: Pass, s: Stream)
    requires Listed(x.p) && Running(x) && HeadVisit(x, false) == Send(s, END, true)
    ensures TurnPass(x, false).p == Remove(Update(Advance(x.p), Head(x.p), s), Head(x.p))
    ensures TurnPass(x, false).budget == x.budget - FRAME_HEADER && TurnFrames(x, false) == [END]
  {
    hide HeadVisit, Listed, Remove;
  }

  lemma FirstGoes(q: Peer)
    requires Listed(q) && q.order != [] && q.order[0] == 1 && q.cursor == 1
    ensures var r := Remove(q, 1);
            && r.order == q.order[1..] && r.cursor == 0 && r.streams == q.streams - {1} && 1 in r.retired
            && r.highest == q.highest && r.dial == q.dial && r.closed == q.closed
  {
    hide Distinct;
    assert IndexOf(q.order, 1) == 0;
    assert 1 in q.order;
  }

  lemma StillSilent(p: Peer, n: nat, one: Stream, r: Peer, s: Stream)
    requires Fleet(p, n, one) && |r.order| == n - 1 && r.streams == p.streams[1 := s] - {1}
    requires forall i :: 0 <= i < n - 1 ==> r.order[i] == p.order[i + 1]
    ensures forall i :: 0 <= i < n - 1 ==> r.order[i] in r.streams && Silent(r.streams[r.order[i]])
  {
    hide PeerOk, Silent;
  }

  lemma LeaveRun(n: Net, c: Stream, s: Stream, valid: seq<byte> -> bool) returns (m: Net)
    requires Calm(n, valid) && Fleet(n.a, MAX_STREAMS, ClientEnded(c)) && Host(n.b, MAX_STREAMS, HostEnded(s))
    requires c == Announced(n.a.send, n.a.window) && s == Fresh(n.b.send, n.b.window)
    ensures Clean(n, LeaveEvents(), valid, m)
    ensures Calm(m, valid) && Left(m.a, MAX_STREAMS)
    ensures exists one :: Host(m.b, MAX_STREAMS, one)
  {
    hide Inv, Listed, PeerOk, Clean, ReceiveAll, Fleet, Host, Take, Left;
    var c3 := ClientEnded(c);
    FleetFirst(n.a, MAX_STREAMS, c3);
    ClientLocal(n, SocketEof(1), valid);
    var c4 := c3.(tx := ReadEof(c3.tx, 1));
    var n1 := n.(a := SetTx(n.a, 1, c4.tx));
    InvPeers(n1, valid);
    FleetUpdate(n.a, MAX_STREAMS, c3, c4);
    assert c4.tx.output == [END];

    FleetLeaves(n1.a, MAX_STREAMS, c4);
    FleetFirst(n1.a, MAX_STREAMS, c4);
    Move(n1, true, TakeCell(FRAME_HEADER, false), valid);
    ClientTakes(n1, FRAME_HEADER, valid);
    var n2 := n1.(a := Take(n1.a, FRAME_HEADER, false).0, ab := [[END]]);
    assert n1.ab + [[END]] == n2.ab;
    InvPeers(n2, valid);
    CleanJoin(n, [(true, SocketEof(1))], valid, n1, [(true, TakeCell(FRAME_HEADER, false))], n2);

    var s4 := HostEnded(s);
    var s5 := s4.(rx := s4.rx.(input := [END], remoteFin := true));
    HostFirst(n2.b, MAX_STREAMS, s4);
    assert s4.rx.input + [END] == [END];
    FirstReceives(n2.b, END, s5, valid);
    Move(n2, false, ReceiveCell, valid);
    ServerTakesOff(n2, valid);
    m := n2.(b := Update(n2.b, 1, s5), ab := []);
    assert n2.ab[1..] == m.ab;
    InvPeers(m, valid);
    HostUpdate(n2.b, MAX_STREAMS, s4, s5);
    CleanJoin(n, [(true, SocketEof(1))] + [(true, TakeCell(FRAME_HEADER, false))], valid, n2, [(false, ReceiveCell)], m);
  }

  lemma HostFirst(q: Peer, n: nat, one: Stream)
    requires Host(q, n, one) && n > 0
    ensures 1 in q.streams && q.streams[1] == one && q.dial && q.cursor <= |q.order|
  {
    hide StreamOk, Distinct;
  }

  // ---------------------------------------------------------------- the run

  /** The client with 31 streams opens another, and its take, after 31 silent streams, sends the OPEN. */
  lemma LeftSends(p: Peer, authority: seq<byte>)
    requires Left(p, MAX_STREAMS) && |authority| <= MAX_AUTHORITY
    ensures CanOpen(p, authority) && !OpenStream(p, authority).closed
    ensures var q := OpenStream(p, authority);
            var budget := FRAME_HEADER + |authority|;
            && Listed(q) && NoOpenMissed(Pass(q, budget, 0, 0), false)
            && Take(q, budget, false).1 == [Frame(OPEN, MAX_STREAMS + 1, 0, authority)]
            && 1 in Take(q, budget, false).0.retired
  {
    hide PeerOk, Listed, OpenStream, TurnPass, TurnFrames, CanOpen, Silent, NoOpenMissed, LastPass, TakenFrames;
    LeftOpens(p, authority);
    var q, f := OpenStream(p, authority), Frame(OPEN, MAX_STREAMS + 1, 0, authority);
    var x := Pass(q, f.Size(), 0, 0);
    PassSilent(x, MAX_STREAMS - 1);
    var y := Skip(x, MAX_STREAMS - 1);
    AtCursor(y.p);
    AnnouncingTurn(y, f, false);
    LastTurn(y);
  }

  lemma LeftOpens(p: Peer, authority: seq<byte>)
    requires Left(p, MAX_STREAMS) && |authority| <= MAX_AUTHORITY
    ensures CanOpen(p, authority)
    ensures var q := OpenStream(p, authority);
            && Listed(q) && SilentFrom(q, MAX_STREAMS - 1) && |q.order| == MAX_STREAMS && q.cursor == 0
            && q.order[MAX_STREAMS - 1] == MAX_STREAMS + 1 && !q.closed && 1 in q.retired
            && Announces(q, MAX_STREAMS + 1, Frame(OPEN, MAX_STREAMS + 1, 0, authority))
  {
    hide PeerOk, Listed, Silent, Announces;
    MayOpenMore(p, authority);
    OpenKeeps(p, authority);
    var q := OpenStream(p, authority);
    OkListed(q);
    OpensOne(p, authority);
    KnownNumbers(p);
    assert q.order == p.order + [p.highest + 1];
    forall i | 0 <= i < MAX_STREAMS - 1 ensures q.order[i] in q.streams && Silent(q.streams[q.order[i]]) {
      assert q.order[i] == p.order[i];
    }
  }

  lemma KnownNumbers(p: Peer)
    requires PeerOk(p)
    ensures forall id :: id in p.streams ==> id <= p.highest
  {
    hide StreamOk;
  }

  lemma HostRefuses(q: Peer, one: Stream, authority: seq<byte>, valid: seq<byte> -> bool)
    requires Host(q, MAX_STREAMS, one)
    ensures q.cursor <= |q.order|
    ensures var cell := [Frame(OPEN, MAX_STREAMS + 1, 0, authority)];
            !ReceiveAll(q, cell, valid).1 && Refusal(q, cell, valid) == Some((q, cell[0]))
  {
    hide PeerOk;
    HostFirst(q, MAX_STREAMS, one);
    assert ReceiveOne(q, Frame(OPEN, MAX_STREAMS + 1, 0, authority), valid).None?;
  }

  /** The client opens stream 1; the server connects it, meets the end of its socket and sends its FIN, which the client
      writes; the client opens 31 more; its stream 1 meets the end of its socket, its FIN is sent and the client has left
      the stream; the server receives the FIN and has not written it when another OPEN comes. */
  function FullTableEvents(authority: seq<byte>): seq<(bool, Event)> {
    Another(authority) + HostEvents() + ClientEvents() + Others(authority, MAX_STREAMS - 1) + LeaveEvents()
    + Another(authority)
  }

  /** The server has refused the OPEN of stream 33, which came in its turn: its table has 32 streams, among them the first,
      which the client has left. */
  predicate RefusedFull(n: Net, authority: seq<byte>) {
    && n.refused.Some?
    && var (q, f) := n.refused.value;
       && f == Frame(OPEN, MAX_STREAMS + 1, 0, authority) && q.highest < f.stream
       && |q.streams| == MAX_STREAMS && 1 in q.streams && 1 in n.a.retired
  }

  /** The state before the last three events. */
  lemma FullTable(authority: seq<byte>, clientWindow: u32, serverWindow: u32, valid: seq<byte> -> bool)
    returns (n: Net)
    requires 0 < |authority| <= MAX_AUTHORITY && valid(authority)
    ensures Clean(Start(clientWindow, serverWindow),
                  Another(authority) + HostEvents() + ClientEvents() + Others(authority, MAX_STREAMS - 1) + LeaveEvents(),
                  valid, n)
    ensures Calm(n, valid) && Left(n.a, MAX_STREAMS) && exists one :: Host(n.b, MAX_STREAMS, one)
  {
    hide Inv, Clean, Fleet, Host, Another, HostEvents, ClientEvents, Others, LeaveEvents, Left, Reaches;
    var n0 := Start(clientWindow, serverWindow);
    StartInv(clientWindow, serverWindow, valid);
    var c, s := Announced(serverWindow, clientWindow), Fresh(clientWindow, serverWindow);
    StartFleet(clientWindow, serverWindow, c, s);
    var n1 := AnotherRun(n0, 0, c, s, authority, valid);
    SettingsStay(n0, Another(authority), valid, n1);
    var n2 := HostRun(n1, valid);
    CleanJoin(n0, Another(authority), valid, n1, HostEvents(), n2);
    var n3 := ClientRun(n2, valid);
    CleanJoin(n0, Another(authority) + HostEvents(), valid, n2, ClientEvents(), n3);
    var n4 := OthersRun(n3, 1, MAX_STREAMS - 1, ClientEnded(c), HostEnded(s), authority, valid);
    CleanJoin(n0, Another(authority) + HostEvents() + ClientEvents(), valid, n3, Others(authority, MAX_STREAMS - 1), n4);
    SettingsStay(n0, Another(authority) + HostEvents() + ClientEvents() + Others(authority, MAX_STREAMS - 1), valid, n4);
    n := LeaveRun(n4, c, s, valid);
    CleanJoin(n0, Another(authority) + HostEvents() + ClientEvents() + Others(authority, MAX_STREAMS - 1), valid, n4,
              LeaveEvents(), n);
  }

  lemma StartFleet(clientWindow: u32, serverWindow: u32, c: Stream, s: Stream)
    ensures var n := Start(clientWindow, serverWindow); Fleet(n.a, 0, c) && Host(n.b, 0, s)
  {
  }

  lemma SettingsStay(n: Net, events: seq<(bool, Event)>, valid: seq<byte> -> bool, m: Net)
    requires Clean(n, events, valid, m)
    ensures SameSettings(n.a, m.a) && SameSettings(n.b, m.b)
  {
    RunSettings(n, events, valid, m);
  }

  /** That run misses no OPEN, the client never has more than 32 streams, and it ends with the server refusing the OPEN
      with which the client has its 32nd: stream 1 lingers in the server's table. */
  lemma FullTableRun(authority: seq<byte>, clientWindow: u32, serverWindow: u32, valid: seq<byte> -> bool)
    returns (n: Net)
    requires 0 < |authority| <= MAX_AUTHORITY && valid(authority)
    ensures var start, events := Start(clientWindow, serverWindow), FullTableEvents(authority);
            Reaches(start, events, valid, n) && NoneMissed(start, events, valid)
    ensures RefusedFull(n, authority)
  {
    hide Inv, Fleet, Host, Another, HostEvents, ClientEvents, Others, LeaveEvents, Left, Reaches, NoneMissed, Act, Listed,
         PeerOk, Take, OpenStream, CanOpen, NoOpenMissed, ReceiveAll, Refusal;
    var n5 := FullTable(authority, clientWindow, serverWindow, valid);
    var one :| Host(n5.b, MAX_STREAMS, one);
    n := RefusedRun(n5, one, authority, valid);
    CleanJoin(Start(clientWindow, serverWindow),
              Another(authority) + HostEvents() + ClientEvents() + Others(authority, MAX_STREAMS - 1) + LeaveEvents(),
              valid, n5, Another(authority), n);
  }

  lemma RefusedRun(n: Net, one: Stream, authority: seq<byte>, valid: seq<byte> -> bool) returns (m: Net)
    requires Calm(n, valid) && Left(n.a, MAX_STREAMS) && Host(n.b, MAX_STREAMS, one) && |authority| <= MAX_AUTHORITY
    ensures Clean(n, Another(authority), valid, m)
    ensures RefusedFull(m, authority)
  {
    hide Inv, Act, Listed, PeerOk, Take, OpenStream, Left, CanOpen, Clean, NoOpenMissed, ReceiveAll, Refusal;
    var budget := FRAME_HEADER + |authority|;
    LeftSends(n.a, authority);
    Move(n, true, Open(authority), valid);
    ClientOpens(n, authority, valid);
    var n1 := n.(a := OpenStream(n.a, authority));
    Move(n1, true, TakeCell(budget, false), valid);
    ClientTakes(n1, budget, valid);
    var cell := [Frame(OPEN, MAX_STREAMS + 1, 0, authority)];
    var n2 := n1.(a := Take(n1.a, budget, false).0, ab := [cell]);
    assert n1.ab + [cell] == n2.ab;
    CleanJoin(n, [(true, Open(authority))], valid, n1, [(true, TakeCell(budget, false))], n2);
    HostRefuses(n2.b, one, authority, valid);
    Move(n2, false, ReceiveCell, valid);
    ServerTakesOff(n2, valid);
    m := Act(n2, false, ReceiveCell, valid);
    CleanJoin(n, [(true, Open(authority))] + [(true, TakeCell(budget, false))], valid, n2, [(false, ReceiveCell)], m);
  }
}
