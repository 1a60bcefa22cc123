/** What the round-robin scheduler promises: the order is a permutation of the live streams, removal keeps the
    rotation, one `take` fits its budget, leaves nothing sendable behind and visits streams fairly. */
module MuxScheduler {
  import opened Bytes
  import opened Cell
  import opened MuxStream
  import opened MuxPeer

  // ---------------------------------------------------------------- the invariant of the peer

  lemma {:induction false} DistinctCard(ids: seq<u32>, s: set<u32>)
    requires Distinct(ids) && (forall id :: id in ids <==> id in s)
    ensures |ids| == |s|
  {
    if ids == [] {
      assert s == {};
    } else {
      var rest := ids[1..];
      forall id ensures id in rest <==> id in s - {ids[0]} {
        if id in rest {
          var k :| 0 <= k < |rest| && rest[k] == id;
          assert ids[k + 1] == id && ids[0] != ids[k + 1];
        }
        if id in s - {ids[0]} {
          var k :| 0 <= k < |ids| && ids[k] == id;
          assert rest[k - 1] == id;
        }
      }
      DistinctCard(rest, s - {ids[0]});
    }
  }

  /** The order holds as many entries as the stream table. */
  lemma OrderLength(p: Peer)
    requires Listed(p)
    ensures |p.order| == |p.streams|
  {
    DistinctCard(p.order, p.streams.Keys);
  }

  /** A stream that is over after a change has to leave. */
  lemma UpdateKeeps(p: Peer, id: u32, s: Stream)
    requires PeerOk(p) && id in p.streams && StreamOk(s, id, p.window)
    ensures PeerSound(Update(p, id, s)) && OthersRun(Update(p, id, s), id)
    ensures !Finished(s) ==> PeerOk(Update(p, id, s))
  {
    hide StreamOk, Finished;
  }

  /** What a removal does to the table, whatever it does to the order. */
  lemma RemoveTable(p: Peer, id: u32)
    requires Listed(p)
    ensures var q := Remove(p, id);
            && Listed(q) && |q.order| == |p.order| - (if id in p.streams then 1 else 0)
            && q == p.(streams := p.streams - {id}, retired := q.retired, order := q.order, cursor := q.cursor)
            && q.retired == if id in p.streams then p.retired[id := p.streams[id]] else p.retired
  {
    hide Distinct;
    assert id in p.streams <==> id in p.order;
    assert id !in p.streams ==> p.streams - {id} == p.streams;
  }

  lemma RemoveKeeps(p: Peer, id: u32)
    requires PeerSound(p) && OthersRun(p, id)
    ensures PeerOk(Remove(p, id))
    ensures forall k :: k in Remove(p, id).streams <==> k in p.streams && k != id
  {
    hide StreamOk, Finished, Listed, Remove;
    SoundCursor(p);
    RemoveTable(p, id);
  }

  lemma NewStreamListed(p: Peer, id: u32)
    requires Listed(p) && id !in p.streams
    ensures Listed(NewStream(p, id))
  {
    var q := NewStream(p, id);
    assert q.order[|p.order|] == id;
    forall k ensures k in q.order <==> k in q.streams {
      if k in p.order {
        var i :| 0 <= i < |p.order| && p.order[i] == k;
        assert q.order[i] == k;
      }
    }
  }

  lemma NewStreamKeeps(p: Peer, id: u32)
    requires PeerOk(p) && p.highest < id && |p.streams| < MAX_STREAMS
    ensures PeerOk(NewStream(p.(highest := id), id))
  {
    hide PeerOk, StreamOk, Listed, Fresh, Finished;
    OkListed(p);
    OrderLength(p);
    FreshOk(id, p.send, p.window);
    ListedStill(p, p.(highest := id));
    NewerIsNew(p, id);
    NewStreamListed(p.(highest := id), id);
    OneMoreOk(p, id, NewStream(p.(highest := id), id));
  }

  lemma NewerIsNew(p: Peer, id: u32)
    requires PeerOk(p) && p.highest < id
    ensures id !in p.streams && id !in p.retired
  {
    hide StreamOk, Listed, Finished;
  }

  lemma OneMoreOk(p: Peer, id: u32, q: Peer)
    requires PeerOk(p) && Listed(q) && p.highest < id && |p.order| < MAX_STREAMS && |q.order| == |p.order| + 1
    requires id in q.streams && StreamOk(q.streams[id], id, p.window) && !Finished(q.streams[id])
    requires q == p.(highest := id, streams := p.streams[id := q.streams[id]], order := q.order)
    ensures PeerOk(q)
  {
    hide StreamOk, Listed, Finished;
  }

  lemma ListedStill(p: Peer, q: Peer)
    requires Listed(p) && q.order == p.order && q.streams == p.streams && q.cursor == p.cursor
    ensures Listed(q)
  {
    hide Distinct;
  }

  lemma OpenKeeps(p: Peer, authority: seq<byte>)
    requires PeerOk(p) && CanOpen(p, authority)
    ensures PeerOk(OpenStream(p, authority))
  {
    hide SenderOk, ReceiverOk, Listed, Fresh, PeerOk;
    var id: u32 := p.highest + 1;
    FreshStarts(p.send, p.window);
    NewStreamKeeps(p, id);
    var s := Fresh(p.send, p.window).(open := Some(Frame(OPEN, id, 0, authority)), attached := true);
    FreshOk(id, p.send, p.window);
    assert StreamOk(s, id, p.window);
    UpdateKeeps(NewStream(p.(highest := id), id), id, s);
  }

  lemma FreshStarts(send: u32, window: u32)
    ensures var s := Fresh(send, window);
            s.tx.sent == [] && !s.tx.localFinSent && !s.ack && s.open.None? && !Finished(s)
  {
  }

  lemma FailKeeps(p: Peer, id: u32)
    requires PeerOk(p) && id in p.streams
    ensures PeerOk(Fail(p, id))
  {
    hide SenderOk, ReceiverOk, Listed;
    UpdateKeeps(p, id, p.streams[id].(reset := true));
  }

  lemma DialedKeeps(p: Peer, id: u32)
    requires PeerOk(p) && id in p.streams && !p.streams[id].attached
    ensures PeerOk(Dialed(p, id))
  {
    hide SenderOk, ReceiverOk, Listed;
    Silence(p.streams[id], id, p.window);
    UpdateKeeps(p, id, p.streams[id].(ack := true, attached := true));
  }

  lemma WriterFinKeeps(p: Peer, id: u32)
    requires PeerOk(p) && id in p.streams && CanFinishFin(p.streams[id].rx)
    ensures PeerOk(WriterFin(p, id))
  {
    hide SenderOk, ReceiverOk, Listed, Remove;
    var s := p.streams[id].(rx := FinishFin(p.streams[id].rx));
    FinishFinKeeps(p.streams[id].rx, id, p.window);
    UpdateKeeps(p, id, s);
    SoundCursor(Update(p, id, s));
    RemoveKeeps(Update(p, id, s), id);
  }

  lemma SoundCursor(p: Peer)
    requires PeerSound(p)
    ensures Listed(p) && p.cursor <= |p.order|
  {
    hide StreamOk;
  }

  lemma ReceiveOneKeeps(p: Peer, f: Frame, valid: seq<byte> -> bool)
    requires PeerOk(p) && ReceiveOne(p, f, valid).Some?
    ensures PeerOk(ReceiveOne(p, f, valid).value)
  {
    hide StreamOk, Accept, Remove;
    if f.kind == OPEN {
      NewStreamKeeps(p, f.stream);
    } else if f.stream in p.streams {
      var a := Accept(p.streams[f.stream], f, p.dial, p.send);
      if a.Kept? {
        AcceptKeeps(p.streams[f.stream], f, f.stream, p.window, p.dial, p.send);
        AcceptRuns(p.streams[f.stream], f, p.dial, p.send);
        UpdateKeeps(p, f.stream, a.s);
      } else {
        RemoveKeeps(p, f.stream);
      }
    }
  }

  lemma {:induction false} ReceiveKeeps(p: Peer, frames: seq<Frame>, valid: seq<byte> -> bool)
    requires PeerOk(p)
    ensures PeerOk(ReceiveAll(p, frames, valid).0)
    decreases |frames|
  {
    if frames != [] && ReceiveOne(p, frames[0], valid).Some? {
      ReceiveOneKeeps(p, frames[0], valid);
      ReceiveKeeps(ReceiveOne(p, frames[0], valid).value, frames[1..], valid);
    }
  }

  lemma TurnKeeps(x: Pass, controlsOnly: bool)
    requires PeerOk(x.p) && Running(x)
    ensures PeerOk(TurnPass(x, controlsOnly).p)
    ensures var fs := TurnFrames(x, controlsOnly);
            fs == [] || (fs == [fs[0]] && fs[0].stream == Head(x.p) && fs[0].Size() <= x.budget)
  {
    hide StreamOk, VisitStream, Remove, Finished;
    var id := Head(x.p);
    var q := Advance(x.p);
    assert PeerOk(q);
    VisitKeeps(x.p.streams[id], id, x.p.window, x.budget, controlsOnly);
    VisitRuns(x.p.streams[id], id, x.budget, controlsOnly);
    var s := HeadVisit(x, controlsOnly).s;
    UpdateKeeps(q, id, s);
    SoundCursor(Update(q, id, s));
    RemoveKeeps(Update(q, id, s), id);
  }

  /** No visit finds a stream that is over: such a stream has left the table at once. */
  lemma NothingToRetire(x: Pass, controlsOnly: bool)
    requires PeerOk(x.p) && Running(x)
    ensures !HeadVisit(x, controlsOnly).Retire?
  {
    hide StreamOk, VisitStream, Finished, Distinct;
    VisitRuns(x.p.streams[Head(x.p)], Head(x.p), x.budget, controlsOnly);
  }

  // ---------------------------------------------------------------- rotation

  lemma {:induction false} FilterAppend(a: seq<u32>, b: seq<u32>, id: u32)
    ensures Filter(a + b, id) == Filter(a, id) + Filter(b, id)
  {
    if a == [] {
      assert a + b == b;
    } else {
      assert (a + b)[1..] == a[1..] + b;
      FilterAppend(a[1..], b, id);
    }
  }

  lemma {:induction false} FilterAbsent(a: seq<u32>, id: u32)
    requires id !in a
    ensures Filter(a, id) == a
  {
    if a != [] {
      FilterAbsent(a[1..], id);
    }
  }

  lemma FilterOnce(a: seq<u32>, id: u32, b: seq<u32>)
    requires id !in a && id !in b
    ensures Filter(a + [id] + b, id) == a + b
  {
    FilterAbsent(a, id);
    FilterAbsent(b, id);
    assert [id][1..] == [];
    assert Filter([id], id) == [];
    FilterAppend(a + [id], b, id);
    FilterAppend(a, [id], id);
    hide Filter;
    assert a + [] == a;
  }

  lemma DistinctSplit(order: seq<u32>, i: nat)
    requires Distinct(order) && i < |order|
    ensures order == order[..i] + [order[i]] + order[i + 1..]
    ensures order[i] !in order[..i] && order[i] !in order[i + 1..]
  {
  }

  /** Cutting one entry out of an order, seen from a cursor behind or before it. */
  lemma CutBefore(o: seq<u32>, i: nat, c: nat)
    requires i < c <= |o|
    ensures o[..c] == o[..i] + [o[i]] + o[i + 1..c]
    ensures var o' := o[..i] + o[i + 1..]; o'[..c - 1] == o[..i] + o[i + 1..c] && o'[c - 1..] == o[c..]
  {
  }

  lemma CutAfter(o: seq<u32>, i: nat, c: nat)
    requires c <= i < |o|
    ensures o[c..] == o[c..i] + [o[i]] + o[i + 1..]
    ensures var o' := o[..i] + o[i + 1..]; o'[..c] == o[..c] && o'[c..] == o[c..i] + o[i + 1..]
  {
  }

  lemma RotationWraps(order: seq<u32>)
    ensures Rotation(order, 0) == order && Rotation(order, |order|) == order
  {
  }

  lemma RotationCut(o: seq<u32>, i: nat, c: nat)
    requires i < |o| && c <= |o| && o[i] !in o[..i] && o[i] !in o[i + 1..]
    ensures var o' := o[..i] + o[i + 1..];
            Rotation(o', if i < c then c - 1 else c) == Filter(Rotation(o, c), o[i])
  {
    FilterAppend(o[c..], o[..c], o[i]);
    hide Filter;
    if i < c {
      CutBefore(o, i, c);
      CutFilterBefore(o, i, c);
    } else {
      CutAfter(o, i, c);
      CutFilterAfter(o, i, c);
    }
  }

  lemma RotationMembers(o: seq<u32>, c: nat)
    requires c <= |o|
    ensures |Rotation(o, c)| == |o| && (forall id :: id in Rotation(o, c) <==> id in o)
    ensures Distinct(o) ==> Distinct(Rotation(o, c))
  {
    var r := Rotation(o, c);
    forall id ensures id in r <==> id in o {
      if id in o {
        var i :| 0 <= i < |o| && o[i] == id;
        assert r[if i >= c then i - c else i + |o| - c] == id;
      }
    }
  }

  /** Removing a stream leaves the rotation that starts at the cursor as it was, with that stream filtered out. */
  lemma RemoveKeepsTurn(p: Peer, id: u32)
    requires Listed(p)
    ensures Rotation(Remove(p, id).order, Remove(p, id).cursor) == Filter(Rotation(p.order, p.cursor), id)
  {
    hide Filter, Rotation, Distinct;
    var o, c, i := p.order, p.cursor, IndexOf(p.order, id);
    if i == |o| {
      RotationMembers(o, c);
      FilterAbsent(Rotation(o, c), id);
    } else {
      RotationCutAt(o, i, c, Remove(p, id).cursor);
    }
  }

  lemma RotationCutAt(o: seq<u32>, i: nat, c: nat, c': nat)
    requires Distinct(o) && i < |o| && c <= |o|
    requires var moved: nat := if i < c then c - 1 else c;
             c' == if moved >= |o| - 1 then 0 else moved
    ensures Rotation(o[..i] + o[i + 1..], c') == Filter(Rotation(o, c), o[i])
  {
    hide Filter, Rotation, Distinct;
    DistinctSplit(o, i);
    RotationCut(o, i, c);
    RotationWraps(o[..i] + o[i + 1..]);
  }

  lemma CutFilterBefore(o: seq<u32>, i: nat, c: nat)
    requires i < c <= |o| && o[i] !in o[..i] && o[i] !in o[i + 1..]
    ensures Filter(o[..c], o[i]) == o[..i] + o[i + 1..c] && Filter(o[c..], o[i]) == o[c..]
  {
    CutBefore(o, i, c);
    assert forall k :: i + 1 <= k < |o| ==> o[k] == o[i + 1..][k - (i + 1)];
    FilterOnce(o[..i], o[i], o[i + 1..c]);
    FilterAbsent(o[c..], o[i]);
  }

  lemma CutFilterAfter(o: seq<u32>, i: nat, c: nat)
    requires c <= i < |o| && o[i] !in o[..i] && o[i] !in o[i + 1..]
    ensures Filter(o[c..], o[i]) == o[c..i] + o[i + 1..] && Filter(o[..c], o[i]) == o[..c]
  {
    CutAfter(o, i, c);
    assert forall k :: 0 <= k < i ==> o[k] == o[..i][k];
    FilterOnce(o[c..i], o[i], o[i + 1..]);
    FilterAbsent(o[..c], o[i]);
  }

  function Round(p: Peer): seq<u32>
    requires p.cursor <= |p.order|
  {
    Rotation(p.order, p.cursor)
  }

  lemma RoundMembers(p: Peer)
    requires Listed(p)
    ensures |Round(p)| == |p.order| && Distinct(Round(p))
    ensures forall id :: id in Round(p) <==> id in p.streams
  {
    RotationMembers(p.order, p.cursor);
  }

  lemma AdvanceRotates(p: Peer)
    requires Listed(p) && p.order != []
    ensures Round(p) != [] && Round(p)[0] == Head(p) && Round(Advance(p)) == Round(p)[1..] + [Round(p)[0]]
    ensures Filter(Round(Advance(p)), Head(p)) == Round(p)[1..]
  {
    RoundMembers(p);
    CursorWraps(p.order, p.cursor);
    RotationStep(p.order, p.cursor % |p.order|);
    hide Filter, Distinct, Rotation, Listed;
    FilterRotated(Round(p));
  }

  lemma CursorWraps(o: seq<u32>, c: nat)
    requires o != [] && c <= |o|
    ensures Rotation(o, c) == Rotation(o, c % |o|)
  {
    ModRange(c, |o|);
    RotationWraps(o);
    hide Rotation;
  }

  lemma ModRange(c: nat, n: nat)
    requires c <= n && 0 < n
    ensures c % n == if c < n then c else 0
  {
  }

  lemma RotationStep(o: seq<u32>, c: nat)
    requires c < |o|
    ensures Rotation(o, c) != [] && Rotation(o, c)[0] == o[c] && Rotation(o, c + 1) == Rotation(o, c)[1..] + [o[c]]
  {
  }

  lemma FilterRotated(r: seq<u32>)
    requires r != [] && Distinct(r)
    ensures Filter(r[1..] + [r[0]], r[0]) == r[1..]
  {
    assert r[0] !in r[1..];
    FilterOnce(r[1..], r[0], []);
    hide Filter;
    assert r[1..] + [r[0]] + [] == r[1..] + [r[0]] && r[1..] + [] == r[1..];
  }

  /** The stream visited is the head of the rotation; it goes to the back, or leaves. */
  lemma TurnRotates(x: Pass, controlsOnly: bool)
    requires Listed(x.p) && Running(x)
    ensures var r, y := Round(x.p), TurnPass(x, controlsOnly);
            && |r| > 0 && r[0] == Head(x.p)
            && (Round(y.p) == r[1..] + [r[0]] || Round(y.p) == r[1..])
            && (forall k :: k in y.p.streams && k != r[0] ==> k in x.p.streams && y.p.streams[k] == x.p.streams[k])
            && (HeadVisit(x, controlsOnly).Miss? ==> Round(y.p) == r[1..] + [r[0]] && r[0] in y.p.streams)
            && (r[0] in y.p.streams ==>
                  !HeadVisit(x, controlsOnly).Retire? && y.p.streams[r[0]] == HeadVisit(x, controlsOnly).s)
  {
    var id, q := Head(x.p), Advance(x.p);
    AdvanceRotates(x.p);
    hide Filter, Rotation, VisitStream, Listed;
    match HeadVisit(x, controlsOnly)
    case Retire =>
      RemoveShrinks(q, id);
      RemoveKeepsTurn(q, id);
    case Miss(s) =>
    case Send(s, f, remove) =>
      UpdateListed(q, id, s);
      RemoveShrinks(Update(q, id, s), id);
      RemoveKeepsTurn(Update(q, id, s), id);
  }

  lemma UpdateListed(p: Peer, id: u32, s: Stream)
    requires Listed(p) && id in p.streams
    ensures Listed(Update(p, id, s))
  {
  }

  lemma OkListed(p: Peer)
    requires PeerOk(p)
    ensures Listed(p)
  {
  }

  // ---------------------------------------------------------------- one take fits its budget

  function TotalSize(fs: seq<Frame>): nat {
    if fs == [] then 0 else fs[0].Size() + TotalSize(fs[1..])
  }

  lemma {:induction false} TotalSizeAppend(a: seq<Frame>, b: seq<Frame>)
    ensures TotalSize(a + b) == TotalSize(a) + TotalSize(b)
  {
    if a == [] {
      assert a + b == b;
    } else {
      assert (a + b)[1..] == a[1..] + b;
      TotalSizeAppend(a[1..], b);
    }
  }

  lemma TurnFits(x: Pass, controlsOnly: bool)
    requires PeerOk(x.p) && Running(x)
    ensures var fs, y := TurnFrames(x, controlsOnly), TurnPass(x, controlsOnly);
            x.budget - y.budget == TotalSize(fs) && y.budget >= 0 && y.count == x.count + |fs|
  {
    TurnKeeps(x, controlsOnly);
    var fs := TurnFrames(x, controlsOnly);
    if fs != [] {
      assert fs[1..] == [];
    }
  }

  /** The peer's invariant survives a take, and the frames taken fit the budget and the frame limit. */
  lemma {:induction false} TakeFits(x: Pass, controlsOnly: bool)
    requires PeerOk(x.p) && x.count <= TAKE_LIMIT
    ensures var y, fs := LastPass(x, controlsOnly), TakenFrames(x, controlsOnly);
            && PeerOk(y.p)
            && TotalSize(fs) == x.budget - y.budget && |fs| == y.count - x.count
            && y.count <= TAKE_LIMIT && (x.budget >= 0 ==> y.budget >= 0)
    decreases x.budget, |x.p.order|, |x.p.order| - x.misses
  {
    hide PeerOk, TurnPass, TurnFrames, Listed;
    OkListed(x.p);
    if Running(x) {
      var y := TurnPass(x, controlsOnly);
      TurnKeeps(x, controlsOnly);
      TurnFits(x, controlsOnly);
      TotalSizeAppend(TurnFrames(x, controlsOnly), TakenFrames(y, controlsOnly));
      TakeFits(y, controlsOnly);
    }
  }

  // ---------------------------------------------------------------- one take leaves nothing sendable behind

  /** The stream has nothing it may send in the remaining budget: no RESET or OPENED is pending, an OPEN does not fit,
      a grant lacks the 20 bytes of its frame, no FIN is next, and DATA is next only without credit, with exactly a
      frame header left, or when only control frames are wanted. */
  predicate Idle(s: Stream, budget: int, controlsOnly: bool) {
    && !Finished(s) && !s.reset
    && if s.open.Some? then s.open.value.Size() > budget
       else
         && !s.ack
         && (s.rx.grant > 0 ==> budget < FRAME_HEADER + 4)
         && (Queue(s.tx) != [] ==>
               && Queue(s.tx)[0].kind == DATA
               && (controlsOnly || s.tx.credit == 0 || budget == FRAME_HEADER))
  }

  lemma MissIsIdle(s: Stream, id: u32, window: u32, budget: nat, controlsOnly: bool)
    requires StreamOk(s, id, window) && budget >= FRAME_HEADER
    requires VisitStream(s, id, budget, controlsOnly).Miss?
    ensures Idle(VisitStream(s, id, budget, controlsOnly).s, budget, controlsOnly)
  {
    if !s.open.Some? {
      var t := Refill(s.tx);
      RefillKeeps(s.tx, id);
      if t.pending.Some? {
        assert Queue(t)[0] == t.pending.value;
        assert ScanOne(Progress(t.sent, t.localFinSent), t.pending.value).Some?;
      }
    }
  }

  ghost function IdleSet(p: Peer, budget: int, controlsOnly: bool): set<u32> {
    set id | id in p.streams && Idle(p.streams[id], budget, controlsOnly)
  }

  /** The last `misses` streams of the rotation are idle. */
  ghost predicate TailIdle(x: Pass, controlsOnly: bool)
    requires x.p.cursor <= |x.p.order|
  {
    var r := Round(x.p);
    && x.misses <= |r|
    && forall i :: |r| - x.misses <= i < |r| ==> r[i] in IdleSet(x.p, x.budget, controlsOnly)
  }

  lemma MissedTail(r: seq<u32>, r': seq<u32>, m: nat, m': nat, good: set<u32>, good': set<u32>)
    requires r != [] && m < |r| && Distinct(r)
    requires (r' == r[1..] + [r[0]] && m' == m + 1 && r[0] in good') || (r' == r[1..] && m' == m)
    requires forall i :: |r| - m <= i < |r| ==> r[i] in good
    requires forall k :: k in good && k in r' && k != r[0] ==> k in good'
    ensures m' <= |r'| && (forall i :: |r'| - m' <= i < |r'| ==> r'[i] in good')
  {
    forall i | |r'| - m' <= i < |r'| ensures r'[i] in good' {
      if i < |r| - 1 {
        assert r'[i] == r[i + 1];
        assert r'[i] in r';
      }
    }
  }

  /** After a visit without a frame, what is known about the others is kept and a missed stream is known idle. */
  lemma TurnIdle(x: Pass, controlsOnly: bool)
    requires PeerOk(x.p) && Running(x) && !HeadVisit(x, controlsOnly).Send?
    ensures var r, y := Round(x.p), TurnPass(x, controlsOnly);
            && r != [] && Distinct(r)
            && (forall k :: k in IdleSet(x.p, x.budget, controlsOnly) && k in Round(y.p) && k != r[0] ==>
                  k in IdleSet(y.p, y.budget, controlsOnly))
            && if HeadVisit(x, controlsOnly).Miss? then
                 && Round(y.p) == r[1..] + [r[0]] && y.misses == x.misses + 1
                 && r[0] in IdleSet(y.p, y.budget, controlsOnly)
               else Round(y.p) == r[1..] && y.misses == x.misses
  {
    var y := TurnPass(x, controlsOnly);
    var r, r' := Round(x.p), Round(y.p);
    var v := HeadVisit(x, controlsOnly);
    RoundMembers(x.p);
    RoundMembers(y.p);
    TurnRotates(x, controlsOnly);
    if v.Miss? {
      MissIsIdle(x.p.streams[r[0]], r[0], x.p.window, x.budget, controlsOnly);
    } else {
      RemoveShrinks(Advance(x.p), r[0]);
    }
    hide Round, Idle, VisitStream, StreamOk, Remove, Listed, Distinct;
  }

  lemma CursorInside(p: Peer)
    requires Listed(p)
    ensures p.cursor <= |p.order|
  {
  }

  lemma SendResets(x: Pass, controlsOnly: bool)
    requires Listed(x.p) && Running(x) && HeadVisit(x, controlsOnly).Send?
    ensures TurnPass(x, controlsOnly).misses == 0
  {
    hide HeadVisit, Listed;
  }

  lemma TurnTail(x: Pass, controlsOnly: bool)
    requires PeerOk(x.p) && Running(x) && TailIdle(x, controlsOnly)
    ensures TailIdle(TurnPass(x, controlsOnly), controlsOnly)
  {
    hide Round, HeadVisit, PeerOk, Listed, Distinct, TurnPass, IdleSet;
    OkListed(x.p);
    var y := TurnPass(x, controlsOnly);
    CursorInside(y.p);
    if HeadVisit(x, controlsOnly).Send? {
      SendResets(x, controlsOnly);
    } else {
      RoundMembers(x.p);
      TurnIdle(x, controlsOnly);
      MissedTail(Round(x.p), Round(y.p), x.misses, y.misses,
                 IdleSet(x.p, x.budget, controlsOnly), IdleSet(y.p, y.budget, controlsOnly));
    }
  }

  /** What is known about missed streams is kept to the end of the loop. */
  lemma {:induction false} LastTail(x: Pass, controlsOnly: bool)
    requires PeerOk(x.p) && TailIdle(x, controlsOnly)
    ensures TailIdle(LastPass(x, controlsOnly), controlsOnly)
    decreases x.budget, |x.p.order|, |x.p.order| - x.misses
  {
    hide TurnPass, PeerOk, Listed, TailIdle;
    OkListed(x.p);
    if Running(x) {
      TurnKeeps(x, controlsOnly);
      TurnTail(x, controlsOnly);
      LastTail(TurnPass(x, controlsOnly), controlsOnly);
    }
  }

  lemma NothingMissed(x: Pass, controlsOnly: bool)
    requires x.p.cursor <= |x.p.order| && x.misses == 0
    ensures TailIdle(x, controlsOnly)
  {
    hide Round, Idle;
  }

  lemma AllIdle(y: Pass, controlsOnly: bool)
    requires Listed(y.p) && TailIdle(y, controlsOnly) && y.misses >= |y.p.order|
    ensures forall id :: id in y.p.streams ==> Idle(y.p.streams[id], y.budget, controlsOnly)
  {
    hide Round, Idle, Listed;
    CursorInside(y.p);
    RoundMembers(y.p);
    forall id | id in y.p.streams ensures Idle(y.p.streams[id], y.budget, controlsOnly) {
      var i :| 0 <= i < |Round(y.p)| && Round(y.p)[i] == id;
      assert Round(y.p)[i] in IdleSet(y.p, y.budget, controlsOnly);
    }
  }

  /** When a take stops with room for a frame and below the frame limit, a whole round has found every surviving
      stream idle. */
  lemma TakeIsWorkConserving(p: Peer, budget: int, controlsOnly: bool)
    requires PeerOk(p)
    ensures var x := Pass(p, budget, 0, 0);
            var y, fs := LastPass(x, controlsOnly), TakenFrames(x, controlsOnly);
            && y.budget == budget - TotalSize(fs)
            && (|| y.budget < FRAME_HEADER
                || |fs| == TAKE_LIMIT
                || forall id :: id in y.p.streams ==> Idle(y.p.streams[id], y.budget, controlsOnly))
  {
    hide Idle, Listed, PeerOk, LastPass, TakenFrames, TailIdle;
    OkListed(p);
    CursorInside(p);
    var x := Pass(p, budget, 0, 0);
    var y := LastPass(x, controlsOnly);
    NothingMissed(x, controlsOnly);
    LastTail(x, controlsOnly);
    TakeFits(x, controlsOnly);
    if y.budget >= FRAME_HEADER && y.count < TAKE_LIMIT {
      AllIdle(y, controlsOnly);
    }
  }

  ghost predicate SameData(p: Peer, q: Peer, id: u32)
    requires id in q.streams
  {
    id in p.streams && q.streams[id].tx.credit == p.streams[id].tx.credit && q.streams[id].tx.sent == p.streams[id].tx.sent
  }

  /** What take with `controlsOnly` may not touch. */
  ghost predicate DataUntouched(p: Peer, q: Peer) {
    forall id :: id in q.streams ==> SameData(p, q, id)
  }

  lemma TurnShrinks(x: Pass, controlsOnly: bool)
    requires Listed(x.p) && Running(x)
    ensures TurnPass(x, controlsOnly).p.streams.Keys <= x.p.streams.Keys
  {
    TurnRotates(x, controlsOnly);
    RoundMembers(x.p);
  }

  lemma ControlsTurn(x: Pass)
    requires PeerOk(x.p) && Running(x)
    ensures DataUntouched(x.p, TurnPass(x, true).p)
  {
    var id, y := Head(x.p), TurnPass(x, true);
    ControlsVisit(x.p.streams[id], id, x.p.window, x.budget);
    TurnRotates(x, true);
    TurnShrinks(x, true);
    assert HeadVisit(x, true) == VisitStream(x.p.streams[id], id, x.budget, true);
    hide StreamOk, VisitStream, Round, Distinct, Remove, Listed, TurnPass, HeadVisit, TurnFrames, PeerOk;
  }

  lemma ControlsTurnFrames(x: Pass)
    requires PeerOk(x.p) && Running(x)
    ensures forall i :: 0 <= i < |TurnFrames(x, true)| ==> TurnFrames(x, true)[i].kind != DATA
  {
    var id := Head(x.p);
    ControlsVisit(x.p.streams[id], id, x.p.window, x.budget);
    hide StreamOk, VisitStream, Listed;
  }

  lemma ControlsVisit(s: Stream, id: u32, window: u32, budget: nat)
    requires StreamOk(s, id, window) && budget >= FRAME_HEADER
    ensures var v := VisitStream(s, id, budget, true);
            && (v.Miss? || v.Send? ==> v.s.tx.credit == s.tx.credit && v.s.tx.sent == s.tx.sent)
            && (v.Send? ==> v.frame.kind != DATA)
  {
  }

  lemma UntouchedSelf(p: Peer)
    ensures DataUntouched(p, p)
  {
  }

  lemma UntouchedTrans(p: Peer, q: Peer, r: Peer)
    requires DataUntouched(p, q) && DataUntouched(q, r)
    ensures DataUntouched(p, r)
  {
    assert forall id :: id in r.streams ==> SameData(q, r, id) && SameData(p, q, id);
  }

  /** TakeControls consumes neither data nor credit. */
  lemma {:induction false} ControlsTakeNoData(x: Pass)
    requires PeerOk(x.p)
    ensures DataUntouched(x.p, LastPass(x, true).p)
    ensures forall i :: 0 <= i < |TakenFrames(x, true)| ==> TakenFrames(x, true)[i].kind != DATA
    decreases x.budget, |x.p.order|, |x.p.order| - x.misses
  {
    hide TurnPass, TurnFrames, PeerOk, Listed, DataUntouched;
    OkListed(x.p);
    UntouchedSelf(x.p);
    if Running(x) {
      TurnKeeps(x, true);
      ControlsTurn(x);
      ControlsTurnFrames(x);
      ControlsTakeNoData(TurnPass(x, true));
      UntouchedTrans(x.p, TurnPass(x, true).p, LastPass(x, true).p);
    }
  }

  // ---------------------------------------------------------------- fairness

  /** The streams visited by one take, in order. */
  function Visits(x: Pass, controlsOnly: bool): seq<u32>
    requires Listed(x.p)
    decreases x.budget, |x.p.order|, |x.p.order| - x.misses
  {
    if !Running(x) then [] else [Head(x.p)] + Visits(TurnPass(x, controlsOnly), controlsOnly)
  }

  /** The streams in the table at each of these visits. */
  function Tables(x: Pass, controlsOnly: bool): (t: seq<set<u32>>)
    requires Listed(x.p)
    ensures |t| == |Visits(x, controlsOnly)|
    decreases x.budget, |x.p.order|, |x.p.order| - x.misses
  {
    if !Running(x) then [] else [x.p.streams.Keys] + Tables(TurnPass(x, controlsOnly), controlsOnly)
  }

  predicate VisitedAfter(v: seq<u32>, i: nat, y: u32) {
    exists k :: i < k < |v| && v[k] == y
  }

  /** Streams stand in the rotation in the order of their last visit. */
  ghost predicate Recency(h: seq<u32>, r: seq<u32>) {
    forall a, b, i :: 0 <= a < b < |r| && 0 <= i < |h| && h[i] == r[a] ==> VisitedAfter(h, i, r[b])
  }

  /** Whenever a stream is visited again, every other stream that is in the table at that moment has been visited in
      between. */
  ghost predicate Fair(v: seq<u32>, t: seq<set<u32>>) {
    && |t| == |v|
    && forall i, j, y :: 0 <= i < j < |v| && v[i] == v[j] && y in t[j] && y != v[j] ==> VisitedAfter(v[..j], i, y)
  }

  lemma RecencyStep(h: seq<u32>, r: seq<u32>, r': seq<u32>)
    requires Recency(h, r) && r != [] && Distinct(r)
    requires r' == r[1..] + [r[0]] || r' == r[1..]
    ensures Recency(h + [r[0]], r')
  {
    var h' := h + [r[0]];
    forall a, b, i | 0 <= a < b < |r'| && 0 <= i < |h'| && h'[i] == r'[a] ensures VisitedAfter(h', i, r'[b]) {
      assert r'[a] == r[a + 1];
      if b < |r| - 1 {
        assert r'[b] == r[b + 1];
        assert VisitedAfter(h, i, r[b + 1]);
        var k :| i < k < |h| && h[k] == r[b + 1];
        assert h'[k] == r'[b];
      } else {
        assert h'[|h|] == r'[b];
      }
    }
  }

  lemma FairStep(h: seq<u32>, t: seq<set<u32>>, r: seq<u32>, live: set<u32>)
    requires Recency(h, r) && r != [] && Fair(h, t)
    requires forall y :: y in live ==> y in r
    ensures Fair(h + [r[0]], t + [live])
  {
    var v, u := h + [r[0]], t + [live];
    forall i, j, y | 0 <= i < j < |v| && v[i] == v[j] && y in u[j] && y != v[j]
      ensures VisitedAfter(v[..j], i, y)
    {
      if j == |h| {
        var b :| 0 <= b < |r| && r[b] == y;
        assert VisitedAfter(h, i, r[b]);
        assert v[..j] == h;
      } else {
        assert h[i] == h[j];
        assert v[..j] == h[..j];
      }
    }
  }

  lemma NothingVisited(r: seq<u32>)
    ensures Recency([], r) && Fair([], [])
  {
  }

  lemma {:induction false} FairFrom(x: Pass, controlsOnly: bool, h: seq<u32>, t: seq<set<u32>>)
    requires Listed(x.p) && Recency(h, Round(x.p)) && Fair(h, t)
    ensures Fair(h + Visits(x, controlsOnly), t + Tables(x, controlsOnly))
    ensures Recency(h + Visits(x, controlsOnly), Round(LastPass(x, controlsOnly).p))
    decreases x.budget, |x.p.order|, |x.p.order| - x.misses
  {
    hide TurnPass, Recency, Fair, Listed, Round, Distinct;
    CursorInside(x.p);
    if Running(x) {
      var y := TurnPass(x, controlsOnly);
      CursorInside(y.p);
      RoundMembers(x.p);
      TurnRotates(x, controlsOnly);
      var r, live := Round(x.p), x.p.streams.Keys;
      RecencyStep(h, r, Round(y.p));
      FairStep(h, t, r, live);
      FairFrom(y, controlsOnly, h + [r[0]], t + [live]);
      Assoc(h, [r[0]], Visits(y, controlsOnly));
      Assoc(t, [live], Tables(y, controlsOnly));
    } else {
      assert h + [] == h && t + [] == t;
    }
  }

  /** The frames come from the visits in visiting order, at most one from each. */
  predicate FromVisits(fs: seq<Frame>, v: seq<u32>)
    decreases |v|
  {
    || fs == []
    || (v != [] && ((fs[0].stream == v[0] && FromVisits(fs[1..], v[1..])) || FromVisits(fs, v[1..])))
  }

  lemma {:induction false} FramesFollowVisits(x: Pass, controlsOnly: bool)
    requires PeerOk(x.p)
    ensures FromVisits(TakenFrames(x, controlsOnly), Visits(x, controlsOnly))
    decreases x.budget, |x.p.order|, |x.p.order| - x.misses
  {
    hide TurnPass, TurnFrames, PeerOk, Listed;
    OkListed(x.p);
    if Running(x) {
      TurnKeeps(x, controlsOnly);
      var y := TurnPass(x, controlsOnly);
      FramesFollowVisits(y, controlsOnly);
      var first, fs, v := TurnFrames(x, controlsOnly), TakenFrames(y, controlsOnly), Visits(y, controlsOnly);
      assert ([Head(x.p)] + v)[1..] == v;
      if first == [] {
        assert first + fs == fs;
      } else {
        assert (first + fs)[1..] == fs;
      }
    }
  }

  /** Within one take no stream sends a second time before every other stream then in the table has had its turn in
      between. */
  lemma TakeIsFair(p: Peer, budget: int, controlsOnly: bool)
    requires PeerOk(p)
    ensures var x := Pass(p, budget, 0, 0);
            var v := Visits(x, controlsOnly);
            FromVisits(TakenFrames(x, controlsOnly), v) && Fair(v, Tables(x, controlsOnly))
  {
    hide LastPass, TakenFrames, Visits, Tables, PeerOk, Listed, Recency, Fair, FromVisits;
    OkListed(p);
    var x := Pass(p, budget, 0, 0);
    var v, t := Visits(x, controlsOnly), Tables(x, controlsOnly);
    FramesFollowVisits(x, controlsOnly);
    NothingVisited(Round(p));
    FairFrom(x, controlsOnly, [], []);
    assert [] + v == v && [] + t == t;
  }

  // ---------------------------------------------------------------- how many frames one take can return

  function TxBacklog(t: Outgoing): nat {
    |Queue(t)| + (if t.credit > 0 then 1 else 0)
  }

  /** What a stream can still send without its reader or the peer adding anything. */
  function Backlog(s: Stream): nat {
    (if s.reset then 1 else 0) + (if s.open.Some? then 1 else 0) + (if s.ack then 1 else 0)
    + (if s.rx.grant > 0 then 1 else 0) + TxBacklog(s.tx)
  }

  function Backlogs(order: seq<u32>, streams: map<u32, Stream>): nat {
    if order == [] then 0
    else (if order[0] in streams then Backlog(streams[order[0]]) else 0) + Backlogs(order[1..], streams)
  }

  lemma OfferSpends(t: Outgoing, id: u32, budget: nat, controlsOnly: bool)
    requires SenderOk(t, id) && budget >= FRAME_HEADER && OfferPending(t, budget, controlsOnly).Offered?
    ensures var v := OfferPending(t, budget, controlsOnly);
            && TxBacklog(t) > 0 && TxBacklog(v.tx) <= TxBacklog(t)
            && (budget - v.frame.Size() >= FRAME_HEADER ==> TxBacklog(v.tx) < TxBacklog(t))
  {
    var f := t.pending.value;
    assert Queue(t)[0] == f && ScanOne(Progress(t.sent, t.localFinSent), f).Some?;
  }

  lemma VisitSpends(s: Stream, id: u32, window: u32, budget: nat, controlsOnly: bool)
    requires StreamOk(s, id, window) && budget >= FRAME_HEADER
    ensures var v := VisitStream(s, id, budget, controlsOnly);
            && (v.Miss? ==> Backlog(v.s) == Backlog(s))
            && (v.Send? ==> Backlog(s) > 0 && Backlog(v.s) <= Backlog(s))
            && (v.Send? && !v.remove && budget - v.frame.Size() >= FRAME_HEADER ==> Backlog(v.s) < Backlog(s))
  {
    hide TxBacklog, OfferPending, Refill, SenderOk, ReceiverOk, Finished, OpenFrame, Uint32;
    RefillKeeps(s.tx, id);
    RefillSpends(s.tx);
    var t := Refill(s.tx);
    if OfferPending(t, budget, controlsOnly).Offered? {
      OfferSpends(t, id, budget, controlsOnly);
    }
  }

  lemma RefillSpends(t: Outgoing)
    ensures TxBacklog(Refill(t)) == TxBacklog(t)
  {
    assert |Queue(Refill(t))| == |Queue(t)|;
  }

  lemma {:induction false} BacklogsCongruent(order: seq<u32>, a: map<u32, Stream>, b: map<u32, Stream>)
    requires forall k :: k in order ==> (k in a <==> k in b) && (k in a ==> a[k] == b[k])
    ensures Backlogs(order, a) == Backlogs(order, b)
  {
    if order != [] {
      assert order[0] in order;
      BacklogsCongruent(order[1..], a, b);
    }
  }

  lemma {:induction false} BacklogsAppend(a: seq<u32>, b: seq<u32>, streams: map<u32, Stream>)
    ensures Backlogs(a + b, streams) == Backlogs(a, streams) + Backlogs(b, streams)
  {
    if a == [] {
      assert a + b == b;
    } else {
      assert (a + b)[1..] == a[1..] + b;
      BacklogsAppend(a[1..], b, streams);
    }
  }

  /** The share of one stream in the sum. */
  lemma BacklogsShare(order: seq<u32>, i: nat, streams: map<u32, Stream>)
    requires i < |order| && order[i] in streams
    ensures Backlogs(order, streams) == Backlogs(order[..i] + order[i + 1..], streams) + Backlog(streams[order[i]])
  {
    var head, one, tail := order[..i], [order[i]], order[i + 1..];
    hide Backlog;
    BacklogsAppend(head, one + tail, streams);
    BacklogsAppend(one, tail, streams);
    BacklogsAppend(head, tail, streams);
    assert one[1..] == [];
    assert Backlogs(one, streams) == Backlog(streams[order[i]]);
    hide Backlogs;
    assert order == head + (one + tail);
  }

  lemma BacklogsUpdated(order: seq<u32>, i: nat, a: map<u32, Stream>, s: Stream)
    requires Distinct(order) && i < |order| && order[i] in a
    ensures Backlogs(order, a[order[i] := s]) + Backlog(a[order[i]]) == Backlogs(order, a) + Backlog(s)
    ensures Backlogs(order[..i] + order[i + 1..], a - {order[i]}) + Backlog(a[order[i]]) == Backlogs(order, a)
    ensures Backlogs(order[..i] + order[i + 1..], a[order[i] := s] - {order[i]}) + Backlog(a[order[i]]) == Backlogs(order, a)
  {
    var id, rest := order[i], order[..i] + order[i + 1..];
    CutDistinct(order, i);
    hide Backlog;
    BacklogsShare(order, i, a);
    BacklogsShare(order, i, a[id := s]);
    BacklogsCongruent(rest, a, a[id := s]);
    BacklogsCongruent(rest, a, a - {id});
    BacklogsCongruent(rest, a, a[id := s] - {id});
  }

  lemma TurnTable(x: Pass, controlsOnly: bool)
    requires Listed(x.p) && Running(x)
    ensures var id, o, v, y := Head(x.p), x.p.order, HeadVisit(x, controlsOnly), TurnPass(x, controlsOnly).p;
            var i := IndexOf(o, id);
            && i < |o| && o[i] == id
            && (v.Retire? ==> y.order == o[..i] + o[i + 1..] && y.streams == x.p.streams - {id})
            && (v.Miss? ==> y.order == o && y.streams == x.p.streams[id := v.s])
            && (v.Send? && !v.remove ==> y.order == o && y.streams == x.p.streams[id := v.s])
            && (v.Send? && v.remove ==> y.order == o[..i] + o[i + 1..] && y.streams == x.p.streams[id := v.s] - {id})
  {
    hide VisitStream;
    assert Head(x.p) in x.p.order;
  }

  lemma HeadOk(x: Pass)
    requires PeerOk(x.p) && Running(x)
    ensures Listed(x.p) && Distinct(x.p.order) && StreamOk(x.p.streams[Head(x.p)], Head(x.p), x.p.window)
  {
    hide StreamOk, Finished, Distinct;
  }

  /** A turn pays for its frame out of the backlog, unless it uses up the budget. */
  lemma TurnSpends(x: Pass, controlsOnly: bool)
    requires PeerOk(x.p) && Running(x)
    ensures var y, fs := TurnPass(x, controlsOnly), TurnFrames(x, controlsOnly);
            && |fs| <= 1
            && Backlogs(y.p.order, y.p.streams) + |fs|
               <= Backlogs(x.p.order, x.p.streams) + (if y.budget < FRAME_HEADER then 1 else 0)
  {
    hide VisitStream, Backlog, Backlogs, StreamOk, Distinct, PeerOk, Listed;
    HeadOk(x);
    var id, v := Head(x.p), HeadVisit(x, controlsOnly);
    VisitSpends(x.p.streams[id], id, x.p.window, x.budget, controlsOnly);
    TurnTable(x, controlsOnly);
    assert v == VisitStream(x.p.streams[id], id, x.budget, controlsOnly);
    BacklogsUpdated(x.p.order, IndexOf(x.p.order, id), x.p.streams, if v.Retire? then x.p.streams[id] else v.s);
    assert v.Send? ==> TurnPass(x, controlsOnly).budget == x.budget - v.frame.Size();
    hide HeadVisit, TurnPass;
  }

  /** However large the budget, a take returns at most one frame more than the streams have in store. */
  lemma {:induction false} TakeIsBounded(x: Pass, controlsOnly: bool)
    requires PeerOk(x.p)
    ensures |TakenFrames(x, controlsOnly)| <= Backlogs(x.p.order, x.p.streams) + 1
    decreases x.budget, |x.p.order|, |x.p.order| - x.misses
  {
    hide TurnPass, TurnFrames, PeerOk, Listed, Backlogs;
    OkListed(x.p);
    if Running(x) {
      var y := TurnPass(x, controlsOnly);
      TurnKeeps(x, controlsOnly);
      TurnSpends(x, controlsOnly);
      if Running(y) {
        TakeIsBounded(y, controlsOnly);
      }
    }
  }

  lemma {:induction false} BacklogsBounded(order: seq<u32>, streams: map<u32, Stream>)
    requires forall id :: id in streams ==> |streams[id].tx.output| <= OUTPUT_SLOTS
    ensures Backlogs(order, streams) <= 22 * |order|
  {
    if order != [] {
      BacklogsBounded(order[1..], streams);
    }
  }

  /** With 32 streams and sixteen-slot readers a take cannot come near the 4096-frame limit of a cell. */
  lemma TakeFrameBound(p: Peer, budget: int, controlsOnly: bool)
    requires PeerOk(p)
    ensures |TakenFrames(Pass(p, budget, 0, 0), controlsOnly)| <= 705
  {
    TakeIsBounded(Pass(p, budget, 0, 0), controlsOnly);
    BacklogsBounded(p.order, p.streams);
  }
}
