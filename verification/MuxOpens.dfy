/** The order in which a client announces its streams (`Open`, `take` and `Receive` in internal/mux/peer.go). Numbers are
    given out in rising order and the receiver insists on it, but `take` passes over an OPEN that does not fit the rest
    of its budget. This module says exactly when OPENs keep their order, and shows two runs that break it. */
module MuxOpens {
  import opened Bytes
  import opened Cell
  import opened MuxStream
  import opened MuxPeer
  import opened MuxScheduler
  import opened MuxPair
  import opened MuxRun

  predicate Ascending(ids: seq<u32>) {
    forall i, j :: 0 <= i < j < |ids| ==> ids[i] < ids[j]
  }

  /** The stream's OPEN has not been sent. */
  predicate Unopened(p: Peer, id: u32) {
    id in p.streams && p.streams[id].open.Some?
  }

  /** The scheduler has passed over no stream whose OPEN is still unsent. */
  predicate InLine(p: Peer) {
    forall i :: 0 <= i < p.cursor && i < |p.order| ==> !Unopened(p, p.order[i])
  }

  /** The visit fails for want of budget for an OPEN: the guard `s.open.Size() <= budget` in take. */
  predicate MissesOpen(s: Stream, budget: int) {
    !Finished(s) && !s.reset && s.open.Some? && s.open.value.Size() > budget
  }

  predicate TurnMisses(x: Pass)
    requires Listed(x.p) && Running(x)
  {
    MissesOpen(x.p.streams[Head(x.p)], x.budget)
  }

  /** No visit of this take fails for want of budget for an OPEN. */
  predicate NoOpenMissed(x: Pass, controlsOnly: bool)
    requires Listed(x.p)
    decreases x.budget, |x.p.order|, |x.p.order| - x.misses
  {
    Running(x) ==> !TurnMisses(x) && NoOpenMissed(TurnPass(x, controlsOnly), controlsOnly)
  }

  /** The peer is in line at the start, after every visit and at the end of this take. */
  predicate StaysInLine(x: Pass, controlsOnly: bool)
    requires Listed(x.p)
    decreases x.budget, |x.p.order|, |x.p.order| - x.misses
  {
    InLine(x.p) && (Running(x) ==> StaysInLine(TurnPass(x, controlsOnly), controlsOnly))
  }

  // ---------------------------------------------------------------- what being in line means

  /** The unopened streams among these. */
  function UnopenedIn(ids: seq<u32>, p: Peer): seq<u32> {
    if ids == [] then [] else (if Unopened(p, ids[0]) then [ids[0]] else []) + UnopenedIn(ids[1..], p)
  }

  lemma {:induction false} UnopenedAppend(a: seq<u32>, b: seq<u32>, p: Peer)
    ensures UnopenedIn(a + b, p) == UnopenedIn(a, p) + UnopenedIn(b, p)
  {
    if a == [] {
      assert a + b == b;
    } else {
      assert (a + b)[1..] == a[1..] + b;
      UnopenedAppend(a[1..], b, p);
      Assoc(if Unopened(p, a[0]) then [a[0]] else [], UnopenedIn(a[1..], p), UnopenedIn(b, p));
    }
  }

  lemma {:induction false} UnopenedMembers(ids: seq<u32>, p: Peer)
    ensures forall id :: id in UnopenedIn(ids, p) <==> id in ids && Unopened(p, id)
  {
    if ids != [] {
      UnopenedMembers(ids[1..], p);
      assert ids == [ids[0]] + ids[1..];
    }
  }

  lemma {:induction false} UnopenedAscending(ids: seq<u32>, p: Peer)
    requires Ascending(ids)
    ensures Ascending(UnopenedIn(ids, p))
  {
    hide Unopened, Ascending;
    if ids == [] {
      AscendingNothing();
    } else {
      var rest := UnopenedIn(ids[1..], p);
      AscendingSlice(ids, 1);
      UnopenedAscending(ids[1..], p);
      UnopenedMembers(ids[1..], p);
      FirstIsLowest(ids);
      AscendingCons(ids[0], rest);
      assert [] + rest == rest;
    }
  }

  lemma AscendingNothing()
    ensures Ascending([])
  {
  }

  lemma FirstIsLowest(ids: seq<u32>)
    requires Ascending(ids) && ids != []
    ensures forall k :: k in ids[1..] ==> ids[0] < k
  {
  }

  lemma AscendingCons(first: u32, rest: seq<u32>)
    requires Ascending(rest) && forall k :: k in rest ==> first < k
    ensures Ascending([first] + rest)
  {
    var all := [first] + rest;
    forall i, j | 0 <= i < j < |all| ensures all[i] < all[j] {
      assert all[j] == rest[j - 1] && rest[j - 1] in rest;
      assert i > 0 ==> all[i] == rest[i - 1];
    }
  }

  /** A largest number keeps the order exactly when nothing follows it. */
  lemma LargestIsLast(a: seq<u32>, id: u32, b: seq<u32>)
    requires Ascending(a) && (forall k :: k in a ==> k < id) && (forall k :: k in b ==> k < id)
    ensures Ascending(a + [id] + b) <==> b == []
    ensures b == [] ==> a + b == a
  {
    var all := a + [id] + b;
    if b == [] {
      forall i, j | 0 <= i < j < |all| ensures all[i] < all[j] {
        assert all[i] == a[i] && a[i] in a;
        assert all[j] == if j < |a| then a[j] else id;
      }
    } else {
      assert all[|a|] == id && all[|a| + 1] == b[0];
      assert b[0] in b;
    }
  }

  lemma {:induction false} UnopenedSame(ids: seq<u32>, p: Peer, q: Peer)
    requires forall id :: id in ids ==> (Unopened(p, id) <==> Unopened(q, id))
    ensures UnopenedIn(ids, p) == UnopenedIn(ids, q)
  {
    if ids != [] {
      UnopenedSame(ids[1..], p, q);
    }
  }

  /** The client's order lists numbers as they were given out. */
  ghost predicate ClientOk(p: Peer) {
    PeerOk(p) && !p.dial && Ascending(p.order)
  }

  /** A peer in line has its unsent OPENs in rising order in the round that comes; and it is in line exactly when they
      are still in rising order, in the round that comes, once another stream has been opened. */
  lemma InLineMeans(p: Peer, authority: seq<byte>)
    requires ClientOk(p) && CanOpen(p, authority)
    ensures Listed(p) && Listed(OpenStream(p, authority))
    ensures InLine(p) ==> Ascending(UnopenedIn(Round(p), p))
    ensures var q := OpenStream(p, authority); InLine(p) <==> Ascending(UnopenedIn(Round(q), q))
  {
    hide PeerOk, Listed, OpenStream, Unopened, UnopenedIn, Round, InLine, CanOpen, Ascending;
    OkListed(p);
    OpenKeeps(p, authority);
    var q := OpenStream(p, authority);
    OkListed(q);
    var front, back, id := p.order[..p.cursor], p.order[p.cursor..], q.highest;
    RoundOpened(p, authority);
    OldUnopened(p, authority);
    UnopenedFront(p);
    AscendingSlice(p.order, p.cursor);
    UnopenedAscending(back, p);
    UnopenedSame(front, p, q);
    UnopenedSame(back, p, q);
    UnopenedAppend(back, front, p);
    UnopenedAppend(back + [id], front, q);
    UnopenedAppend(back, [id], q);
    UnopenedMembers(back, p);
    UnopenedMembers(front, p);
    LargestIsLast(UnopenedIn(back, p), id, UnopenedIn(front, p));
  }

  lemma AscendingSlice(ids: seq<u32>, i: nat)
    requires Ascending(ids) && i <= |ids|
    ensures Ascending(ids[i..])
  {
  }

  /** Where the new stream enters the round. */
  lemma RoundOpened(p: Peer, authority: seq<byte>)
    requires CanOpen(p, authority) && p.cursor <= |p.order|
    ensures var q := OpenStream(p, authority);
            q.cursor <= |q.order| && Round(q) == p.order[p.cursor..] + [q.highest] + p.order[..p.cursor]
            && Round(p) == p.order[p.cursor..] + p.order[..p.cursor]
  {
    var q := OpenStream(p, authority);
    assert q.order == p.order + [q.highest];
    assert q.order[q.cursor..] == p.order[p.cursor..] + [q.highest] && q.order[..q.cursor] == p.order[..p.cursor];
  }

  lemma OldUnopened(p: Peer, authority: seq<byte>)
    requires PeerOk(p) && CanOpen(p, authority)
    ensures var q := OpenStream(p, authority);
            && (forall id :: id in p.order ==> id < q.highest && (Unopened(p, id) <==> Unopened(q, id)))
            && UnopenedIn([q.highest], q) == [q.highest]
  {
    hide StreamOk;
    var q := OpenStream(p, authority);
    assert [q.highest][1..] == [];
    assert Unopened(q, q.highest);
  }

  lemma UnopenedFront(p: Peer)
    requires p.cursor <= |p.order|
    ensures InLine(p) <==> UnopenedIn(p.order[..p.cursor], p) == []
  {
    var front := p.order[..p.cursor];
    UnopenedMembers(front, p);
    hide UnopenedIn, Unopened;
    if UnopenedIn(front, p) != [] {
      var id := UnopenedIn(front, p)[0];
      assert id in UnopenedIn(front, p);
      var i :| 0 <= i < |front| && front[i] == id;
      assert p.order[i] == id;
    } else {
      forall i | 0 <= i < p.cursor && i < |p.order| ensures !Unopened(p, p.order[i]) {
        assert front[i] in front;
      }
    }
  }

  // ---------------------------------------------------------------- one turn

  /** Where a turn leaves cursor and order: the place visited is passed, or it is gone. */
  lemma TurnPlaces(x: Pass, controlsOnly: bool)
    requires Listed(x.p) && Running(x)
    ensures var o, c, y := x.p.order, x.p.cursor % |x.p.order|, TurnPass(x, controlsOnly).p;
            && c < |o| && o[c] == Head(x.p) && (c == x.p.cursor || (c == 0 && x.p.cursor == |o|))
            && if Head(x.p) in y.streams then y.order == o && y.cursor == c + 1
               else y.order == o[..c] + o[c + 1..] && y.cursor <= c
  {
    hide VisitStream, IndexOf, Distinct, Listed, HeadVisit;
    CursorInside(x.p);
    ModRange(x.p.cursor, |x.p.order|);
    HeadIndex(x.p);
    TurnTable(x, controlsOnly);
  }

  lemma HeadIndex(p: Peer)
    requires Listed(p) && p.order != []
    ensures IndexOf(p.order, Head(p)) == p.cursor % |p.order| && Head(p) in p.streams
  {
    ModRange(p.cursor, |p.order|);
    var c := p.cursor % |p.order|;
    assert p.order[c] in p.order;
  }

  /** What a turn does to unsent OPENs: others keep theirs, the visited stream keeps its own only if the turn missed it. */
  lemma TurnUnopened(x: Pass, controlsOnly: bool)
    requires Listed(x.p) && Running(x)
    ensures var id, y := Head(x.p), TurnPass(x, controlsOnly).p;
            && (forall k :: k != id ==> (Unopened(y, k) <==> Unopened(x.p, k)))
            && (Unopened(y, id) <==> TurnMisses(x))
            && (TurnMisses(x) ==> y.streams[id] == x.p.streams[id] && TurnFrames(x, controlsOnly) == [])
  {
    hide Listed, Remove, OfferPending, Refill, IndexOf;
    TurnTable(x, controlsOnly);
  }

  /** A turn keeps the peer in line exactly when it does not miss an OPEN. */
  lemma TurnLine(x: Pass, controlsOnly: bool)
    requires Listed(x.p) && Running(x) && InLine(x.p)
    ensures InLine(TurnPass(x, controlsOnly).p) <==> !TurnMisses(x)
  {
    TurnPlaces(x, controlsOnly);
    TurnUnopened(x, controlsOnly);
    hide Listed, TurnPass, Unopened, TurnMisses, Head;
    var o, c, y := x.p.order, x.p.cursor % |x.p.order|, TurnPass(x, controlsOnly).p;
    forall i | 0 <= i < y.cursor && i < |y.order| && i != c ensures !Unopened(y, y.order[i]) {
      assert y.order[i] == o[i];
    }
    if TurnMisses(x) {
      assert y.order[c] == Head(x.p) && Unopened(y, y.order[c]);
    }
  }

  /** A take keeps the peer in line, so that its OPENs stay in rising order, exactly when none of its visits misses an
      OPEN for want of budget. */
  lemma {:induction false} TakeKeepsLine(x: Pass, controlsOnly: bool)
    requires PeerOk(x.p) && Listed(x.p) && InLine(x.p)
    ensures StaysInLine(x, controlsOnly) <==> NoOpenMissed(x, controlsOnly)
    ensures NoOpenMissed(x, controlsOnly) ==> InLine(LastPass(x, controlsOnly).p)
    decreases x.budget, |x.p.order|, |x.p.order| - x.misses
  {
    hide PeerOk, Listed, TurnPass, InLine, TurnMisses;
    if Running(x) {
      TurnKeeps(x, controlsOnly);
      TurnLine(x, controlsOnly);
      if !TurnMisses(x) {
        TakeKeepsLine(TurnPass(x, controlsOnly), controlsOnly);
      }
    }
  }

  // ---------------------------------------------------------------- the OPENs of one take

  /** The streams announced by these frames. */
  function OpenIds(fs: seq<Frame>): seq<u32> {
    if fs == [] then [] else (if fs[0].kind == OPEN then [fs[0].stream] else []) + OpenIds(fs[1..])
  }

  lemma {:induction false} OpenIdsAppend(a: seq<Frame>, b: seq<Frame>)
    ensures OpenIds(a + b) == OpenIds(a) + OpenIds(b)
  {
    if a == [] {
      assert a + b == b;
    } else {
      assert (a + b)[1..] == a[1..] + b;
      OpenIdsAppend(a[1..], b);
      Assoc(if a[0].kind == OPEN then [a[0].stream] else [], OpenIds(a[1..]), OpenIds(b));
    }
  }

  /** A turn announces at most the visited stream, and only if its OPEN was unsent. */
  lemma TurnOpens(x: Pass, controlsOnly: bool)
    requires PeerOk(x.p) && Listed(x.p) && Running(x)
    ensures PeerOk(TurnPass(x, controlsOnly).p)
    ensures var sent := OpenIds(TurnFrames(x, controlsOnly));
            sent == [] || (sent == [Head(x.p)] && Unopened(x.p, Head(x.p)) && !TurnMisses(x))
    ensures OpenIds(TakenFrames(x, controlsOnly))
            == OpenIds(TurnFrames(x, controlsOnly)) + OpenIds(TakenFrames(TurnPass(x, controlsOnly), controlsOnly))
  {
    hide PeerOk, Listed, OfferPending;
    TurnKeeps(x, controlsOnly);
    VisitOpens(x.p, Head(x.p), x.budget, controlsOnly);
    OpenIdsAppend(TurnFrames(x, controlsOnly), TakenFrames(TurnPass(x, controlsOnly), controlsOnly));
    OneOpen(TurnFrames(x, controlsOnly));
    hide OpenIds, TurnPass, VisitStream;
  }

  lemma OneOpen(fs: seq<Frame>)
    requires |fs| <= 1
    ensures OpenIds(fs) == if fs != [] && fs[0].kind == OPEN then [fs[0].stream] else []
  {
    if fs != [] {
      assert fs[1..] == [];
    }
  }

  lemma VisitOpens(p: Peer, id: u32, budget: nat, controlsOnly: bool)
    requires PeerOk(p) && id in p.streams && budget >= FRAME_HEADER
    ensures var v := VisitStream(p.streams[id], id, budget, controlsOnly);
            v.Send? && v.frame.kind == OPEN ==>
              v.frame.stream == id && Unopened(p, id) && !MissesOpen(p.streams[id], budget)
  {
    hide SenderOk, ReceiverOk, OfferPending, Refill, Listed, SentNext, Uint32;
    var s := p.streams[id];
    assert StreamOk(s, id, p.window);
    if OfferPending(Refill(s.tx), budget, controlsOnly).Offered? {
      RefillKeeps(s.tx, id);
      OfferKeeps(Refill(s.tx), id, budget, controlsOnly);
    }
  }

  lemma {:induction false} LeftUnopened(x: Pass, controlsOnly: bool, id: u32)
    requires Listed(x.p) && Unopened(LastPass(x, controlsOnly).p, id)
    ensures Unopened(x.p, id)
    decreases x.budget, |x.p.order|, |x.p.order| - x.misses
  {
    hide Listed, TurnPass, Unopened;
    if Running(x) {
      TurnUnopened(x, controlsOnly);
      MissedWasUnopened(x);
      LeftUnopened(TurnPass(x, controlsOnly), controlsOnly, id);
    }
  }

  lemma MissedWasUnopened(x: Pass)
    requires Listed(x.p) && Running(x)
    ensures TurnMisses(x) ==> Unopened(x.p, Head(x.p))
  {
  }

  lemma {:induction false} SentWereUnopened(x: Pass, controlsOnly: bool, id: u32)
    requires PeerOk(x.p) && Listed(x.p) && id in OpenIds(TakenFrames(x, controlsOnly))
    ensures Unopened(x.p, id) && !Unopened(LastPass(x, controlsOnly).p, id)
    decreases x.budget, |x.p.order|, |x.p.order| - x.misses
  {
    hide PeerOk, Listed, TurnPass, Unopened, TurnFrames, OpenIds;
    if Running(x) {
      var y := TurnPass(x, controlsOnly);
      TurnOpens(x, controlsOnly);
      TurnUnopened(x, controlsOnly);
      if id in OpenIds(TurnFrames(x, controlsOnly)) {
        if Unopened(LastPass(y, controlsOnly).p, id) {
          LeftUnopened(y, controlsOnly, id);
        }
      } else {
        SentWereUnopened(y, controlsOnly, id);
        MissedWasUnopened(x);
      }
    } else {
      NothingTaken(x, controlsOnly);
    }
  }

  lemma NothingTaken(x: Pass, controlsOnly: bool)
    requires Listed(x.p) && !Running(x)
    ensures OpenIds(TakenFrames(x, controlsOnly)) == [] && LastPass(x, controlsOnly) == x
  {
  }

  /** An OPEN that was missed is missed again: the budget of a take only shrinks. */
  lemma {:induction false} MissedStays(x: Pass, controlsOnly: bool, id: u32)
    requires Listed(x.p) && id in x.p.streams && MissesOpen(x.p.streams[id], x.budget)
    ensures Unopened(LastPass(x, controlsOnly).p, id)
    decreases x.budget, |x.p.order|, |x.p.order| - x.misses
  {
    hide Listed, TurnPass;
    if Running(x) {
      TurnTable(x, controlsOnly);
      TurnUnopened(x, controlsOnly);
      hide TurnFrames, HeadVisit, IndexOf, Finished;
      MissedStays(TurnPass(x, controlsOnly), controlsOnly, id);
    }
  }

  /** In line, the stream whose turn it is comes before every unopened stream. */
  lemma HeadIsLowest(x: Pass, id: u32)
    requires Listed(x.p) && Running(x) && InLine(x.p) && Ascending(x.p.order) && Unopened(x.p, id)
    ensures Head(x.p) <= id
  {
    var o, c := x.p.order, x.p.cursor;
    assert id in o;
    hide Unopened, Listed;
    ModRange(c, |o|);
    var i :| 0 <= i < |o| && o[i] == id;
  }

  /** The OPENs that a take sends come in rising order and before all that it leaves unsent. */
  ghost predicate SentInOrder(x: Pass, controlsOnly: bool)
    requires Listed(x.p)
  {
    var sent := OpenIds(TakenFrames(x, controlsOnly));
    && Ascending(sent)
    && forall k, id: u32 :: k in sent && Unopened(LastPass(x, controlsOnly).p, id) ==> k < id
  }

  /** Once a visit has missed an OPEN, this take sends no further OPEN. */
  ghost predicate NoneBehindMissed(x: Pass, controlsOnly: bool)
    requires Listed(x.p)
    decreases x.budget, |x.p.order|, |x.p.order| - x.misses
  {
    Running(x) ==>
      if TurnMisses(x) then OpenIds(TakenFrames(x, controlsOnly)) == []
      else NoneBehindMissed(TurnPass(x, controlsOnly), controlsOnly)
  }

  /** A turn that misses: in order if and only if nothing is announced any more. */
  lemma MissedThenInOrder(x: Pass, controlsOnly: bool)
    requires PeerOk(x.p) && Listed(x.p) && Running(x) && InLine(x.p) && Ascending(x.p.order) && TurnMisses(x)
    ensures SentInOrder(x, controlsOnly) <==> OpenIds(TakenFrames(x, controlsOnly)) == []
  {
    hide PeerOk, Listed, InLine, OpenIds, Unopened, TakenFrames, LastPass;
    var sent, id := OpenIds(TakenFrames(x, controlsOnly)), Head(x.p);
    MissedStays(x, controlsOnly, id);
    if sent != [] {
      var k := sent[0];
      assert k in sent;
      SentWereUnopened(x, controlsOnly, k);
      HeadIsLowest(x, k);
    }
  }

  /** A turn that misses nothing leaves the question to the rest of the take. */
  lemma TurnInOrder(x: Pass, controlsOnly: bool)
    requires PeerOk(x.p) && Listed(x.p) && Running(x) && InLine(x.p) && Ascending(x.p.order) && !TurnMisses(x)
    ensures SentInOrder(x, controlsOnly) <==> SentInOrder(TurnPass(x, controlsOnly), controlsOnly)
  {
    hide PeerOk, Listed, OpenIds, TurnPass, TurnFrames, TakenFrames, Unopened, LastPass, InLine, Ascending;
    var y, id := TurnPass(x, controlsOnly), Head(x.p);
    TurnOpens(x, controlsOnly);
    TurnUnopened(x, controlsOnly);
    TurnLasts(x, controlsOnly);
    var now, later := OpenIds(TurnFrames(x, controlsOnly)), OpenIds(TakenFrames(y, controlsOnly));
    if now == [] {
      assert [] + later == later;
    } else {
      forall k | k in later ensures id < k {
        SentWereUnopened(y, controlsOnly, k);
        HeadIsLowest(x, k);
      }
      forall k: u32 | Unopened(LastPass(y, controlsOnly).p, k) ensures id < k {
        LeftUnopened(y, controlsOnly, k);
        HeadIsLowest(x, k);
      }
      AscendingUncons(id, later);
      assert forall k :: k in now + later <==> k == id || k in later;
    }
  }

  lemma TurnLasts(x: Pass, controlsOnly: bool)
    requires Listed(x.p) && Running(x)
    ensures LastPass(x, controlsOnly) == LastPass(TurnPass(x, controlsOnly), controlsOnly)
  {
  }

  lemma AscendingUncons(first: u32, rest: seq<u32>)
    requires forall k :: k in rest ==> first < k
    ensures Ascending([first] + rest) <==> Ascending(rest)
  {
    var all := [first] + rest;
    if Ascending(rest) {
      AscendingCons(first, rest);
    }
    if Ascending(all) {
      AscendingTail(first, rest);
    }
  }

  lemma TurnAscending(x: Pass, controlsOnly: bool)
    requires Listed(x.p) && Running(x) && Ascending(x.p.order)
    ensures Ascending(TurnPass(x, controlsOnly).p.order)
  {
    hide Listed, TurnPass, Head;
    TurnPlaces(x, controlsOnly);
  }

  /** From a peer in line, the OPENs of a take leave in rising order, and before all that stay, exactly when none is
      sent behind one that was missed. In particular that is so when none is missed. */
  lemma {:induction false} TakeSendsInOrder(x: Pass, controlsOnly: bool)
    requires PeerOk(x.p) && Listed(x.p) && InLine(x.p) && Ascending(x.p.order)
    ensures SentInOrder(x, controlsOnly) <==> NoneBehindMissed(x, controlsOnly)
    ensures NoOpenMissed(x, controlsOnly) ==> NoneBehindMissed(x, controlsOnly)
    decreases x.budget, |x.p.order|, |x.p.order| - x.misses
  {
    hide PeerOk, Listed, InLine, TurnPass, SentInOrder, OpenIds, TurnMisses;
    if !Running(x) {
      NothingInOrder(x, controlsOnly);
    } else if TurnMisses(x) {
      MissedThenInOrder(x, controlsOnly);
    } else {
      TurnKeeps(x, controlsOnly);
      TurnLine(x, controlsOnly);
      TurnAscending(x, controlsOnly);
      TurnInOrder(x, controlsOnly);
      TakeSendsInOrder(TurnPass(x, controlsOnly), controlsOnly);
    }
  }

  lemma NothingInOrder(x: Pass, controlsOnly: bool)
    requires Listed(x.p) && !Running(x)
    ensures SentInOrder(x, controlsOnly)
  {
  }

  // ---------------------------------------------------------------- whole runs

  /** The numbers under way to a server that has seen h, and those that the client p has not sent yet, rise above h. */
  ghost predicate Orderly(h: u32, sent: seq<u32>, p: Peer) {
    && h <= p.highest && Ascending(sent)
    && (forall k :: k in sent ==> h < k <= p.highest)
    && (forall id: u32 :: Unopened(p, id) ==> h < id)
    && (forall k, id: u32 :: k in sent && Unopened(p, id) ==> k < id)
  }

  /** p' keeps the line of p: nothing new is unsent, nobody is passed over. */
  ghost predicate KeepsLine(p: Peer, p': Peer) {
    && p'.highest == p.highest && p'.dial == p.dial
    && (Ascending(p.order) ==> Ascending(p'.order))
    && (InLine(p) ==> InLine(p'))
    && (forall id: u32 :: Unopened(p', id) ==> Unopened(p, id))
  }

  lemma UpdateLine(p: Peer, id: u32, s: Stream)
    requires id in p.streams && s.open == p.streams[id].open
    ensures KeepsLine(p, Update(p, id, s))
  {
  }

  lemma RemoveLine(p: Peer, id: u32)
    requires Listed(p) && id in p.streams
    ensures KeepsLine(p, Remove(p, id))
  {
    hide IndexOf, Listed, Ascending, Remove, Unopened;
    CursorInside(p);
    var o, i, q := p.order, IndexOf(p.order, id), Remove(p, id);
    RemoveShape(p, id);
    CutAscending(o, i);
    forall k | InLine(p) && 0 <= k < q.cursor && k < |q.order| ensures !Unopened(q, q.order[k]) {
      assert q.order[k] == o[if k < i then k else k + 1];
    }
  }

  lemma RemoveShape(p: Peer, id: u32)
    requires Listed(p) && id in p.streams
    ensures var o, i, q := p.order, IndexOf(p.order, id), Remove(p, id);
            && i < |o| && q.order == o[..i] + o[i + 1..]
            && q.cursor <= (if i < p.cursor then p.cursor - 1 else p.cursor)
            && q.highest == p.highest && q.dial == p.dial
            && (forall k: u32 :: Unopened(q, k) ==> Unopened(p, k))
  {
    hide IndexOf, Distinct;
    assert id in p.order;
  }

  lemma CutAscending(o: seq<u32>, i: nat)
    requires i < |o|
    ensures Ascending(o) ==> Ascending(o[..i] + o[i + 1..])
  {
    var cut := o[..i] + o[i + 1..];
    assert forall k :: 0 <= k < |cut| ==> cut[k] == o[if k < i then k else k + 1];
  }

  lemma LineTwice(p: Peer, q: Peer, r: Peer)
    requires KeepsLine(p, q) && KeepsLine(q, r)
    ensures KeepsLine(p, r)
  {
    hide InLine, Ascending, Unopened;
  }

  /** No local event but Open makes an OPEN, and none moves the cursor over one. */
  lemma LocalLine(p: Peer, ev: Event)
    requires Listed(p) && Enabled(p, [], ev) && !ev.Open?
    ensures KeepsLine(p, Local(p, ev))
  {
    hide KeepsLine, Listed, ReadData, ReadEof, PopInput, WriteSome, FinishChunk, FinishFin, Remove;
    match ev
    case DialDone(id) => UpdateLine(p, id, p.streams[id].(ack := true, attached := true));
    case Failed(id) => UpdateLine(p, id, p.streams[id].(reset := true));
    case SocketRead(id, data) => UpdateLine(p, id, p.streams[id].(tx := ReadData(p.streams[id].tx, id, data)));
    case SocketEof(id) => UpdateLine(p, id, p.streams[id].(tx := ReadEof(p.streams[id].tx, id)));
    case Popped(id) => UpdateLine(p, id, p.streams[id].(rx := PopInput(p.streams[id].rx)));
    case SocketWrite(id, n) => UpdateLine(p, id, p.streams[id].(rx := WriteSome(p.streams[id].rx, n)));
    case ChunkDone(id) => UpdateLine(p, id, p.streams[id].(rx := FinishChunk(p.streams[id].rx)));
    case FinDone(id) =>
      var s := p.streams[id].(rx := FinishFin(p.streams[id].rx));
      UpdateLine(p, id, s);
      UpdateListed(p, id, s);
      RemoveLine(Update(p, id, s), id);
      if s.tx.localFinSent && s.rx.grant == 0 {
        LineTwice(p, Update(p, id, s), Remove(Update(p, id, s), id));
      }
    case TakeCell(budget, controlsOnly) => SameLine(p);
  }

  lemma SameLine(p: Peer)
    ensures KeepsLine(p, p)
  {
  }

  /** Opening puts the new number behind all others. */
  lemma OpenLine(p: Peer, authority: seq<byte>, h: u32, sent: seq<u32>)
    requires ClientOk(p) && CanOpen(p, authority) && InLine(p) && Orderly(h, sent, p)
    ensures var q := OpenStream(p, authority); Ascending(q.order) && InLine(q) && Orderly(h, sent, q) && !q.dial
  {
    hide PeerOk, Listed, OpenStream, CanOpen, Unopened, UnopenedIn, Ascending;
    OkListed(p);
    CursorInside(p);
    var q := OpenStream(p, authority);
    OldUnopened(p, authority);
    OpenShape(p, authority);
    AscendingSnoc(p.order, q.highest);
    UnopenedIsKnown(p);
    forall id: u32 | Unopened(q, id) ensures h < id && forall k :: k in sent ==> k < id {
      assert id == q.highest || Unopened(p, id);
    }
  }

  lemma OpenShape(p: Peer, authority: seq<byte>)
    requires CanOpen(p, authority)
    ensures var q := OpenStream(p, authority);
            && q.order == p.order + [q.highest] && q.highest == p.highest + 1
            && q.cursor == p.cursor && q.dial == p.dial
            && (forall id: u32 :: Unopened(q, id) ==> id == q.highest || Unopened(p, id))
  {
  }

  lemma AscendingSnoc(ids: seq<u32>, last: u32)
    requires Ascending(ids) && forall k :: k in ids ==> k < last
    ensures Ascending(ids + [last])
  {
    var all := ids + [last];
    forall i, j | 0 <= i < j < |all| ensures all[i] < all[j] {
      assert all[i] == ids[i] && ids[i] in ids;
    }
  }

  lemma {:induction false} TakeHighest(x: Pass, controlsOnly: bool)
    requires Listed(x.p)
    ensures LastPass(x, controlsOnly).p.highest == x.p.highest
    ensures Ascending(x.p.order) ==> Ascending(LastPass(x, controlsOnly).p.order)
    decreases x.budget, |x.p.order|, |x.p.order| - x.misses
  {
    hide Listed, TurnPass, Ascending;
    if Running(x) {
      TurnHighest(x, controlsOnly);
      if Ascending(x.p.order) {
        TurnAscending(x, controlsOnly);
      }
      TakeHighest(TurnPass(x, controlsOnly), controlsOnly);
    }
  }

  lemma TurnHighest(x: Pass, controlsOnly: bool)
    requires Listed(x.p) && Running(x)
    ensures TurnPass(x, controlsOnly).p.highest == x.p.highest
  {
    hide VisitStream, Listed, IndexOf;
  }

  /** A take that misses no OPEN keeps everything in order. */
  lemma TakeOrderly(p: Peer, budget: int, controlsOnly: bool, h: u32, sent: seq<u32>)
    requires ClientOk(p) && Listed(p) && InLine(p) && Orderly(h, sent, p)
    requires NoOpenMissed(Pass(p, budget, 0, 0), controlsOnly)
    ensures var x := Pass(p, budget, 0, 0);
            var q := LastPass(x, controlsOnly).p;
            && Ascending(q.order) && InLine(q) && q.dial == p.dial
            && Orderly(h, sent + OpenIds(TakenFrames(x, controlsOnly)), q)
  {
    hide PeerOk, Listed, InLine, NoOpenMissed, NoneBehindMissed, LastPass, TakenFrames, OpenIds, Unopened, Ascending;
    var x := Pass(p, budget, 0, 0);
    var q, more := LastPass(x, controlsOnly).p, OpenIds(TakenFrames(x, controlsOnly));
    TakeKeepsLine(x, controlsOnly);
    TakeSendsInOrder(x, controlsOnly);
    TakeHighest(x, controlsOnly);
    TakeSettings(x, controlsOnly);
    forall k | k in more ensures Unopened(p, k) {
      SentWereUnopened(x, controlsOnly, k);
    }
    forall id: u32 | Unopened(q, id) ensures Unopened(p, id) {
      LeftUnopened(x, controlsOnly, id);
    }
    UnopenedIsKnown(p);
    OrderlyMore(h, sent, more, p, q);
  }

  lemma OrderlyMore(h: u32, sent: seq<u32>, more: seq<u32>, p: Peer, q: Peer)
    requires Orderly(h, sent, p) && Ascending(more) && q.highest == p.highest
    requires forall k :: k in more ==> k <= p.highest && Unopened(p, k)
    requires forall id: u32 :: Unopened(q, id) ==> Unopened(p, id)
    requires forall k, id: u32 :: k in more && Unopened(q, id) ==> k < id
    ensures Orderly(h, sent + more, q)
  {
    hide Unopened, Ascending;
    AscendingJoin(sent, more);
    assert forall k :: k in sent + more ==> k in sent || k in more;
  }

  lemma UnopenedIsKnown(p: Peer)
    requires PeerOk(p)
    ensures forall id: u32 :: Unopened(p, id) ==> id <= p.highest
  {
    hide StreamOk;
  }

  lemma AscendingJoin(a: seq<u32>, b: seq<u32>)
    requires Ascending(a) && Ascending(b) && forall k, m :: k in a && m in b ==> k < m
    ensures Ascending(a + b)
  {
    var all := a + b;
    forall i, j | 0 <= i < j < |all| ensures all[i] < all[j] {
      assert i < |a| ==> all[i] in a;
      assert j >= |a| ==> all[j] in b;
    }
  }

  // ---------------------------------------------------------------- receiving in order

  /** A client accepts no OPEN, so a received cell only removes streams or leaves their OPENs alone. */
  lemma {:induction false} ClientReceives(p: Peer, frames: seq<Frame>, valid: seq<byte> -> bool)
    requires PeerOk(p) && !p.dial && p.cursor <= |p.order|
    ensures KeepsLine(p, ReceiveAll(p, frames, valid).0)
    ensures Refusal(p, frames, valid).Some? ==> !Refusal(p, frames, valid).value.0.dial
    decreases |frames|
  {
    hide PeerOk, KeepsLine, ReceiveOne;
    SameLine(p);
    if frames != [] && ReceiveOne(p, frames[0], valid).Some? {
      var q := ReceiveOne(p, frames[0], valid).value;
      ClientReceivesOne(p, frames[0], valid);
      ReceiveOneKeeps(p, frames[0], valid);
      ClientReceives(q, frames[1..], valid);
      LineTwice(p, q, ReceiveAll(q, frames[1..], valid).0);
    }
  }

  lemma ClientReceivesOne(p: Peer, f: Frame, valid: seq<byte> -> bool)
    requires PeerOk(p) && !p.dial && p.cursor <= |p.order| && ReceiveOne(p, f, valid).Some?
    ensures KeepsLine(p, ReceiveOne(p, f, valid).value) && !ReceiveOne(p, f, valid).value.dial
  {
    OkListed(p);
    hide PeerOk, KeepsLine, Listed, Remove, Accept;
    SameLine(p);
    if f.stream in p.streams {
      RemoveLine(p, f.stream);
      var a := Accept(p.streams[f.stream], f, p.dial, p.send);
      if a.Kept? {
        AcceptLeavesOpen(p.streams[f.stream], f, p.dial, p.send);
        UpdateLine(p, f.stream, a.s);
      }
    }
    LineDial(p, ReceiveOne(p, f, valid).value);
  }

  lemma AcceptLeavesOpen(s: Stream, f: Frame, dial: bool, send: u32)
    requires Accept(s, f, dial, send).Kept?
    ensures Accept(s, f, dial, send).s.open == s.open
  {
    hide AcceptData, AcceptFin, AcceptCredit;
  }

  lemma LineDial(p: Peer, q: Peer)
    requires KeepsLine(p, q)
    ensures q.dial == p.dial
  {
  }

  /** A server that takes an orderly cell off the channel: the rest is orderly above the highest number it has seen, and
      an OPEN that it refuses comes in its turn. */
  lemma {:induction false} ServerReceives(q: Peer, cell: seq<Frame>, later: seq<Frame>, p: Peer,
                                          valid: seq<byte> -> bool)
    requires q.cursor <= |q.order| && Orderly(q.highest, OpenIds(cell + later), p)
    ensures ReceiveAll(q, cell, valid).1 ==> Orderly(ReceiveAll(q, cell, valid).0.highest, OpenIds(later), p)
    ensures var r := Refusal(q, cell, valid);
            r.Some? && r.value.1.kind == OPEN ==> r.value.0.highest < r.value.1.stream
    decreases |cell|
  {
    hide ReceiveOne, Orderly, OpenIds;
    if cell == [] {
      assert cell + later == later;
    } else {
      var f, all := cell[0], cell + later;
      assert all[0] == f && all[1..] == cell[1..] + later;
      FirstOpen(q.highest, all, p);
      HighestMoves(q, f, valid);
      if ReceiveOne(q, f, valid).Some? {
        ServerReceives(ReceiveOne(q, f, valid).value, cell[1..], later, p, valid);
      }
    }
  }

  lemma FirstOpen(h: u32, all: seq<Frame>, p: Peer)
    requires all != [] && Orderly(h, OpenIds(all), p)
    ensures Orderly(if all[0].kind == OPEN then all[0].stream else h, OpenIds(all[1..]), p)
    ensures all[0].kind == OPEN ==> h < all[0].stream
  {
    hide OpenIds, Orderly;
    Unfold(all);
    var rest := OpenIds(all[1..]);
    if all[0].kind == OPEN {
      OrderlyTail(h, all[0].stream, rest, p);
    } else {
      assert [] + rest == rest;
    }
  }

  lemma OrderlyTail(h: u32, first: u32, rest: seq<u32>, p: Peer)
    requires Orderly(h, [first] + rest, p)
    ensures Orderly(first, rest, p) && h < first
  {
    var sent := [first] + rest;
    hide Unopened;
    assert sent[0] == first && sent[0] in sent;
    assert forall k :: k in rest ==> k in sent;
    forall i | 0 <= i < |rest| ensures first < rest[i] {
      assert sent[0] < sent[i + 1];
    }
    AscendingTail(first, rest);
  }

  lemma AscendingTail(first: u32, rest: seq<u32>)
    requires Ascending([first] + rest)
    ensures Ascending(rest)
  {
    var all := [first] + rest;
    forall i, j | 0 <= i < j < |rest| ensures rest[i] < rest[j] {
      assert rest[i] == all[i + 1] && rest[j] == all[j + 1];
    }
  }

  lemma Unfold(all: seq<Frame>)
    requires all != []
    ensures OpenIds(all) == (if all[0].kind == OPEN then [all[0].stream] else []) + OpenIds(all[1..])
  {
  }

  lemma HighestMoves(q: Peer, f: Frame, valid: seq<byte> -> bool)
    requires q.cursor <= |q.order|
    ensures ReceiveOne(q, f, valid).Some? ==>
              ReceiveOne(q, f, valid).value.highest == if f.kind == OPEN then f.stream else q.highest
  {
    hide Accept, IndexOf;
  }

  // ---------------------------------------------------------------- runs that miss no OPEN

  /** In a run: the client is in line, its numbers under way and unsent rise above all that the server has seen, and an
      OPEN that was refused had come in its turn. */
  ghost predicate LineInv(n: Net) {
    && !n.a.dial && n.b.dial && Ascending(n.a.order) && InLine(n.a)
    && Orderly(n.b.highest, OpenIds(Flat(n.ab)), n.a)
    && (n.refused.Some? ==> InTurn(n.refused.value.0, n.refused.value.1))
  }

  predicate InTurn(q: Peer, f: Frame) {
    q.dial && f.kind == OPEN ==> q.highest < f.stream
  }

  /** The event is no take of the client that misses an OPEN. */
  ghost predicate MissesNone(n: Net, atA: bool, ev: Event) {
    atA && ev.TakeCell? && n.refused.None? && !n.a.closed ==>
      Listed(n.a) && NoOpenMissed(Pass(n.a, ev.budget, 0, 0), ev.controlsOnly)
  }

  lemma ClientActs(n: Net, ev: Event, valid: seq<byte> -> bool)
    requires Inv(n, valid) && Listed(n.a) && LineInv(n) && MissesNone(n, true, ev)
    ensures LineInv(ActA(n, ev, valid))
  {
    hide Joint, PeerOk, Listed, InLine, Ascending, Orderly, OpenIds, Take, Local, OpenStream, NoOpenMissed, KeepsLine,
         ReceiveAll, Excused, Inv, Flat, Refusal, CanOpen, LastPass, TakenFrames;
    InvPeers(n, valid);
    if n.refused.None? && Enabled(n.a, n.ba, ev) {
      if ev.Open? {
        OpenLine(n.a, ev.authority, n.b.highest, OpenIds(Flat(n.ab)));
        LocalOpens(n.a, ev.authority);
      } else if ev.TakeCell? {
        var taken := TakenFrames(Pass(n.a, ev.budget, 0, 0), ev.controlsOnly);
        TakeOrderly(n.a, ev.budget, ev.controlsOnly, n.b.highest, OpenIds(Flat(n.ab)));
        FlatSnoc(n.ab, taken);
        OpenIdsAppend(Flat(n.ab), taken);
        TakeIs(n.a, ev.budget, ev.controlsOnly);
      } else if ev.ReceiveCell? {
        ClientReceives(n.a, n.ba[0], valid);
        StaysOrderly(n.a, ReceiveAll(n.a, n.ba[0], valid).0, n.b.highest, OpenIds(Flat(n.ab)));
        AllOrRefused(n.a, n.ba[0], valid);
      } else {
        LocalLine(n.a, ev);
        StaysOrderly(n.a, Local(n.a, ev), n.b.highest, OpenIds(Flat(n.ab)));
      }
    }
  }

  lemma InvPeers(n: Net, valid: seq<byte> -> bool)
    requires Inv(n, valid)
    ensures PeerOk(n.a) && PeerOk(n.b) && n.a.cursor <= |n.a.order| && n.b.cursor <= |n.b.order|
  {
    hide PeerOk, Listed, Link, Excused;
    OkListed(n.a);
    OkListed(n.b);
    CursorInside(n.a);
    CursorInside(n.b);
  }

  lemma LocalOpens(p: Peer, authority: seq<byte>)
    requires CanOpen(p, authority) && p.cursor <= |p.order|
    ensures Local(p, Open(authority)) == OpenStream(p, authority)
  {
  }

  lemma TakeIs(p: Peer, budget: int, controlsOnly: bool)
    requires Listed(p) && !p.closed
    ensures var x := Pass(p, budget, 0, 0);
            Take(p, budget, controlsOnly) == (LastPass(x, controlsOnly).p, TakenFrames(x, controlsOnly))
  {
  }

  lemma {:induction false} AllOrRefused(p: Peer, frames: seq<Frame>, valid: seq<byte> -> bool)
    requires p.cursor <= |p.order|
    ensures ReceiveAll(p, frames, valid).1 <==> Refusal(p, frames, valid).None?
    decreases |frames|
  {
    hide ReceiveOne;
    if frames != [] && ReceiveOne(p, frames[0], valid).Some? {
      AllOrRefused(ReceiveOne(p, frames[0], valid).value, frames[1..], valid);
    }
  }

  lemma StaysOrderly(p: Peer, q: Peer, h: u32, sent: seq<u32>)
    requires KeepsLine(p, q) && Orderly(h, sent, p)
    ensures Orderly(h, sent, q) && q.dial == p.dial && q.highest == p.highest
    ensures Ascending(p.order) ==> Ascending(q.order)
    ensures InLine(p) ==> InLine(q)
  {
    hide Ascending, InLine, Unopened;
  }

  lemma ServerActs(n: Net, ev: Event, valid: seq<byte> -> bool)
    requires Listed(n.b) && LineInv(n)
    ensures LineInv(Mirror(ActA(Mirror(n), ev, valid)))
  {
    assert n.b.cursor <= |n.b.order|;
    hide Listed, InLine, Ascending, Orderly, OpenIds, Take, Local, KeepsLine, ReceiveAll;
    if n.refused.None? && Enabled(n.b, n.ab, ev) {
      if ev.TakeCell? {
        TakeHighest(Pass(n.b, ev.budget, 0, 0), ev.controlsOnly);
        TakeSettings(Pass(n.b, ev.budget, 0, 0), ev.controlsOnly);
        TakeIs(n.b, ev.budget, ev.controlsOnly);
      } else if ev.ReceiveCell? {
        ServerReceives(n.b, n.ab[0], Flat(n.ab[1..]), n.a, valid);
        ReceiveSettings(n.b, n.ab[0], valid);
        AllOrRefused(n.b, n.ab[0], valid);
      } else {
        LocalLine(n.b, ev);
        LineHighest(n.b, Local(n.b, ev));
      }
    }
  }

  lemma LineHighest(p: Peer, q: Peer)
    requires KeepsLine(p, q)
    ensures q.dial == p.dial && q.highest == p.highest
  {
  }

  /** No take of the client misses an OPEN in this run. */
  ghost predicate NoneMissed(n: Net, events: seq<(bool, Event)>, valid: seq<byte> -> bool)
    decreases |events|
  {
    events == []
    || (Listed(n.a) && Listed(n.b) && MissesNone(n, events[0].0, events[0].1)
        && NoneMissed(Act(n, events[0].0, events[0].1, valid), events[1..], valid))
  }

  lemma {:induction false} RunLine(n: Net, events: seq<(bool, Event)>, valid: seq<byte> -> bool, m: Net)
    requires Inv(n, valid) && LineInv(n) && Reaches(n, events, valid, m) && NoneMissed(n, events, valid)
    ensures LineInv(m)
    decreases |events|
  {
    hide Inv, LineInv, ActA, MissesNone;
    if events != [] {
      var (atA, ev) := events[0];
      ActInv(n, atA, ev, valid);
      if atA {
        ClientActs(n, ev, valid);
      } else {
        ServerActs(n, ev, valid);
      }
      RunLine(Act(n, atA, ev, valid), events[1..], valid, m);
    }
  }

  /** In a run whose takes miss no OPEN for want of budget, no OPEN is refused because another has overtaken it: what can
      still be wrong with one is its authority, or that it finds the table full because of a stream that the client has
      retired and the server has not. */
  lemma NoOvertaking(clientWindow: u32, serverWindow: u32, events: seq<(bool, Event)>, valid: seq<byte> -> bool, n: Net)
    requires Reaches(Start(clientWindow, serverWindow), events, valid, n)
    requires NoneMissed(Start(clientWindow, serverWindow), events, valid)
    requires n.refused.Some? && n.refused.value.1.kind == OPEN
    ensures var (q, f) := n.refused.value;
            && q.highest < f.stream
            && (f.body == [] || !valid(f.body) || (|q.streams| >= MAX_STREAMS && Lingers(n.a, q)))
  {
    hide Inv, Reaches, NoneMissed;
    StartInv(clientWindow, serverWindow, valid);
    RunLine(Start(clientWindow, serverWindow), events, valid, n);
    HonestRefusals(clientWindow, serverWindow, events, valid, n);
  }

  // ---------------------------------------------------------------- two runs in which an honest frame is refused

  /** A run goes on. */
  lemma {:induction false} ReachesMore(start: Net, events: seq<(bool, Event)>, valid: seq<byte> -> bool, n: Net,
                                       atA: bool, ev: Event)
    requires Inv(start, valid) && Reaches(start, events, valid, n)
    ensures Listed(n.a) && Listed(n.b) && Inv(n, valid)
    ensures Reaches(start, events + [(atA, ev)], valid, Act(n, atA, ev, valid))
    decreases |events|
  {
    hide Inv, Act, Listed;
    RunInv(start, events, valid, n);
    InvListed(n, valid);
    var all := events + [(atA, ev)];
    if events == [] {
      assert all[0] == (atA, ev) && all[1..] == [];
    } else {
      assert all[0] == events[0] && all[1..] == events[1..] + [(atA, ev)];
      ActInv(start, events[0].0, events[0].1, valid);
      ReachesMore(Act(start, events[0].0, events[0].1, valid), events[1..], valid, n, atA, ev);
    }
  }

  /** The stream waits for nothing but its turn. */
  predicate Announces(p: Peer, id: u32, f: Frame) {
    id in p.streams && p.streams[id].open == Some(f) && !p.streams[id].reset && !Finished(p.streams[id])
  }

  lemma AnnouncingTurn(x: Pass, f: Frame, controlsOnly: bool)
    requires Listed(x.p) && Running(x) && Announces(x.p, Head(x.p), f)
    ensures TurnFrames(x, controlsOnly) == if f.Size() <= x.budget then [f] else []
    ensures TurnPass(x, controlsOnly)
            == if f.Size() <= x.budget then
                 var s := x.p.streams[Head(x.p)];
                 Pass(Update(Advance(x.p), Head(x.p), s.(open := None)), x.budget - f.Size(), 0, x.count + 1)
               else Pass(Advance(x.p), x.budget, x.misses + 1, x.count)
  {
    hide Listed, Finished, Refill, OfferPending;
    assert x.p.streams[Head(x.p) := x.p.streams[Head(x.p)]] == x.p.streams;
  }

  /** A peer with these streams, all of them still to be announced. */
  predicate Announcing(p: Peer, opens: seq<Frame>) {
    && |p.order| == |opens| && !p.closed && !p.dial
    && forall i :: 0 <= i < |opens| ==> p.order[i] == i + 1 && Announces(p, i + 1, opens[i])
  }

  lemma OpensAnother(p: Peer, opens: seq<Frame>, authority: seq<byte>)
    requires PeerOk(p) && Announcing(p, opens) && CanOpen(p, authority) && p.highest == |opens|
    ensures var q := OpenStream(p, authority);
            && Announcing(q, opens + [Frame(OPEN, p.highest + 1, 0, authority)])
            && q.highest == |opens| + 1 && q.cursor == p.cursor && PeerOk(q)
  {
    hide PeerOk, Announces;
    OpenKeeps(p, authority);
    OpensOne(p, authority);
    var q := OpenStream(p, authority);
    assert q.order == p.order + [p.highest + 1];
    hide OpenStream;
    forall i | 0 <= i < |opens| ensures Announces(q, i + 1, opens[i]) {
      assert Announces(p, i + 1, opens[i]);
    }
  }

  lemma OpensOne(p: Peer, authority: seq<byte>)
    requires CanOpen(p, authority)
    ensures Announces(OpenStream(p, authority), p.highest + 1, Frame(OPEN, p.highest + 1, 0, authority))
    ensures forall id: u32, f :: id <= p.highest && Announces(p, id, f) ==> Announces(OpenStream(p, authority), id, f)
  {
  }

  /** A take whose budget is too small for the only OPEN passes it over. */
  lemma PassesOver(p: Peer, f: Frame, budget: int)
    requires Listed(p) && Announcing(p, [f]) && p.cursor == 0 && FRAME_HEADER <= budget < f.Size()
    ensures Take(p, budget, false) == (p.(cursor := 1), [])
  {
    var x := Pass(p, budget, 0, 0);
    assert p.order == [1] && Head(p) == 1;
    AnnouncingTurn(x, f, false);
    var y := TurnPass(x, false);
    hide TurnPass, TurnFrames, Listed, VisitStream;
    assert y == Pass(p.(cursor := 1), budget, 1, 0) && !Running(y);
    NothingTaken(y, false);
    TakeTurn(x, false);
    assert TakenFrames(y, false) == [];
  }

  lemma TakeTurn(x: Pass, controlsOnly: bool)
    requires Listed(x.p) && Running(x)
    ensures LastPass(x, controlsOnly) == LastPass(TurnPass(x, controlsOnly), controlsOnly)
    ensures TakenFrames(x, controlsOnly)
            == TurnFrames(x, controlsOnly) + TakenFrames(TurnPass(x, controlsOnly), controlsOnly)
  {
  }

  /** Then the later stream has the turn, and the earlier one comes after it, however large the budget. */
  lemma OvertakenTake(p: Peer, first: Frame, second: Frame, budget: int)
    requires Listed(p) && Announcing(p, [first, second]) && p.cursor == 1
    requires budget >= first.Size() + second.Size()
    ensures exists rest :: Take(p, budget, false).1 == [second, first] + rest
  {
    hide TurnPass, TurnFrames, VisitStream, TakenFrames, LastPass, Listed, Announces;
    var x := Pass(p, budget, 0, 0);
    var opens := [first, second];
    assert p.order[0] == 1 && Announces(p, 0 + 1, opens[0]);
    assert p.order[1] == 2 && Announces(p, 1 + 1, opens[1]);
    assert Head(p) == 2;
    AnnouncingTurn(x, second, false);
    TakeTurn(x, false);
    var y := TurnPass(x, false);
    OtherAnnounces(p, first, second);
    assert Head(y.p) == 1;
    AnnouncingTurn(y, first, false);
    TakeTurn(y, false);
    var rest := TakenFrames(TurnPass(y, false), false);
    assert [second] + ([first] + rest) == [second, first] + rest;
  }

  lemma OtherAnnounces(p: Peer, first: Frame, second: Frame)
    requires Listed(p) && p.order != [] && Announces(p, 1, first) && Announces(p, 2, second)
    ensures Announces(Update(Advance(p), 2, p.streams[2].(open := None)), 1, first)
  {
  }

  lemma RunsNowhere(n: Net, valid: seq<byte> -> bool)
    ensures Reaches(n, [], valid, n)
  {
  }

  lemma ClientOpens(n: Net, authority: seq<byte>, valid: seq<byte> -> bool)
    requires Listed(n.a) && Listed(n.b) && n.refused.None? && CanOpen(n.a, authority)
    ensures Act(n, true, Open(authority), valid) == n.(a := OpenStream(n.a, authority))
  {
    hide Listed, OpenStream;
  }

  lemma ClientTakes(n: Net, budget: int, valid: seq<byte> -> bool)
    requires Listed(n.a) && Listed(n.b) && n.refused.None? && !n.a.closed
    ensures var (p, cell) := Take(n.a, budget, false);
            Act(n, true, TakeCell(budget, false), valid) == n.(a := p, ab := n.ab + [cell])
  {
    hide Listed, Take;
  }

  lemma ServerTakesOff(n: Net, valid: seq<byte> -> bool)
    requires Listed(n.a) && Listed(n.b) && n.refused.None? && n.ab != []
    ensures var (q, ok) := ReceiveAll(n.b, n.ab[0], valid);
            Act(n, false, ReceiveCell, valid)
            == if ok then n.(b := q, ab := n.ab[1..]) else n.(refused := Refusal(n.b, n.ab[0], valid))
  {
    hide Listed, ReceiveAll, Refusal;
  }

  /** A client opens one stream; a take has one byte too few for its OPEN and leaves an empty cell; the client opens
      another; the next take has room for both; the server receives the two cells. */
  function OvertakenEvents(first: seq<byte>, second: seq<byte>, budget: int): seq<(bool, Event)> {
    [(true, Open(first)), (true, TakeCell(FRAME_HEADER + |first| - 1, false))]
    + [(true, Open(second)), (true, TakeCell(budget, false))]
    + [(false, ReceiveCell), (false, ReceiveCell)]
  }

  lemma StartAnnounces(window: u32, send: u32)
    ensures var p := NewPeer(false, window, send); PeerOk(p) && Announcing(p, []) && p.highest == 0 && p.cursor == 0
  {
  }

  lemma MayOpen(p: Peer, opens: seq<Frame>, authority: seq<byte>)
    requires PeerOk(p) && Announcing(p, opens) && p.highest == |opens| < MAX_STREAMS && |authority| <= MAX_AUTHORITY
    ensures Listed(p) && CanOpen(p, authority) && !p.closed
  {
    hide StreamOk, Announces;
    OrderLength(p);
  }

  lemma MovedAnnounces(p: Peer, opens: seq<Frame>)
    requires PeerOk(p) && Announcing(p, opens) && opens != []
    ensures PeerOk(p.(cursor := 1)) && Announcing(p.(cursor := 1), opens)
  {
    hide StreamOk, Finished, Distinct, Listed, PeerOk;
    CursorMoves(p, 1);
  }

  lemma CursorMoves(p: Peer, c: nat)
    requires PeerOk(p) && c <= |p.order|
    ensures PeerOk(p.(cursor := c))
  {
    hide StreamOk, Distinct;
  }

  /** The client's half of that run. */
  lemma OvertakenCells(first: seq<byte>, second: seq<byte>, budget: int, clientWindow: u32, serverWindow: u32,
                       valid: seq<byte> -> bool) returns (n: Net, rest: seq<Frame>)
    requires 0 < |first| <= MAX_AUTHORITY && 0 < |second| <= MAX_AUTHORITY
    requires budget >= 2 * FRAME_HEADER + |first| + |second|
    ensures Reaches(Start(clientWindow, serverWindow), OvertakenEvents(first, second, budget)[..4], valid, n)
    ensures n.refused.None? && n.b == NewPeer(true, serverWindow, clientWindow)
    ensures n.ab == [[], [Frame(OPEN, 2, 0, second), Frame(OPEN, 1, 0, first)] + rest]
  {
    hide Inv, Reaches, Act, Take, OpenStream, Announcing, Listed, PeerOk;
    var all := OvertakenEvents(first, second, budget);
    var n0 := Start(clientWindow, serverWindow);
    StartInv(clientWindow, serverWindow, valid);
    assert Reaches(n0, [], valid, n0) by { RunsNowhere(n0, valid); }
    StartAnnounces(clientWindow, serverWindow);
    var f, g := Frame(OPEN, 1, 0, first), Frame(OPEN, 2, 0, second);

    ReachesMore(n0, [], valid, n0, true, all[0].1);
    MayOpen(n0.a, [], first);
    ClientOpens(n0, first, valid);
    OpensAnother(n0.a, [], first);
    var n1 := n0.(a := OpenStream(n0.a, first));
    assert [] + [f] == [f] && [] + [all[0]] == all[..1];

    ReachesMore(n0, all[..1], valid, n1, true, all[1].1);
    MayOpen(n1.a, [f], first);
    ClientTakes(n1, FRAME_HEADER + |first| - 1, valid);
    PassesOver(n1.a, f, FRAME_HEADER + |first| - 1);
    var n2 := n1.(a := n1.a.(cursor := 1), ab := [[]]);
    assert all[..1] + [all[1]] == all[..2] && [] + [[]] == n2.ab;

    ReachesMore(n0, all[..2], valid, n2, true, all[2].1);
    MovedAnnounces(n1.a, [f]);
    MayOpen(n2.a, [f], second);
    ClientOpens(n2, second, valid);
    OpensAnother(n2.a, [f], second);
    var n3 := n2.(a := OpenStream(n2.a, second));
    assert [f] + [g] == [f, g] && all[..2] + [all[2]] == all[..3];

    ReachesMore(n0, all[..3], valid, n3, true, all[3].1);
    MayOpen(n3.a, [f, g], second);
    ClientTakes(n3, budget, valid);
    OvertakenTake(n3.a, f, g, budget);
    rest :| Take(n3.a, budget, false).1 == [g, f] + rest;
    n := Act(n3, true, all[3].1, valid);
    assert all[..3] + [all[3]] == all[..4];
    assert n.ab == [[]] + [[g, f] + rest];
  }

  /** That run ends with the server refusing the first OPEN: the other one has overtaken it. */
  lemma OvertakenRun(first: seq<byte>, second: seq<byte>, budget: int, clientWindow: u32, serverWindow: u32,
                     valid: seq<byte> -> bool) returns (n: Net)
    requires 0 < |first| <= MAX_AUTHORITY && 0 < |second| <= MAX_AUTHORITY && valid(second)
    requires budget >= 2 * FRAME_HEADER + |first| + |second|
    ensures Reaches(Start(clientWindow, serverWindow), OvertakenEvents(first, second, budget), valid, n)
    ensures n.refused.Some? && n.refused.value.1 == Frame(OPEN, 1, 0, first) && n.refused.value.0.highest == 2
  {
    hide Inv, Reaches, Act, Listed, Refusal, ReceiveAll;
    var n0, all := Start(clientWindow, serverWindow), OvertakenEvents(first, second, budget);
    StartInv(clientWindow, serverWindow, valid);
    var n4, rest := OvertakenCells(first, second, budget, clientWindow, serverWindow, valid);
    var cell := n4.ab[1];

    ReachesMore(n0, all[..4], valid, n4, false, all[4].1);
    ServerTakesOff(n4, valid);
    EmptyCell(n4.b, valid);
    var n5 := n4.(ab := [cell]);
    assert n4.ab[1..] == n5.ab && all[..4] + [all[4]] == all[..5];

    ReachesMore(n0, all[..5], valid, n5, false, all[5].1);
    ServerTakesOff(n5, valid);
    ServerRefusesFirst(n5.b, first, second, rest, valid);
    n := Act(n5, false, all[5].1, valid);
    assert all[..5] + [all[5]] == all;
  }

  lemma EmptyCell(q: Peer, valid: seq<byte> -> bool)
    requires q.cursor <= |q.order|
    ensures ReceiveAll(q, [], valid) == (q, true)
  {
  }

  lemma ServerRefusesFirst(q: Peer, first: seq<byte>, second: seq<byte>, rest: seq<Frame>, valid: seq<byte> -> bool)
    requires q.dial && q.highest < 2 && q.streams == map[] && q.cursor <= |q.order|
    requires 0 < |second| <= MAX_AUTHORITY && valid(second)
    ensures var cell := [Frame(OPEN, 2, 0, second), Frame(OPEN, 1, 0, first)] + rest;
            && !ReceiveAll(q, cell, valid).1
            && Refusal(q, cell, valid).Some?
            && Refusal(q, cell, valid).value.1 == Frame(OPEN, 1, 0, first) && Refusal(q, cell, valid).value.0.highest == 2
  {
    var f, g := Frame(OPEN, 1, 0, first), Frame(OPEN, 2, 0, second);
    var cell := [g, f] + rest;
    var r := ReceiveOne(q, g, valid).value;
    assert r.highest == 2 && r.dial;
    assert cell[0] == g && cell[1..][0] == f;
    assert ReceiveOne(r, f, valid).None?;
    hide ReceiveOne;
  }

  /** A client opens a stream that fails before its OPEN was sent; the RESET goes out alone, and the server, which has
      never met the stream, refuses it. */
  function LoneResetEvents(authority: seq<byte>): seq<(bool, Event)> {
    [(true, Open(authority)), (true, Failed(1))] + [(true, TakeCell(FRAME_HEADER, false)), (false, ReceiveCell)]
  }

  lemma LoneResetRun(authority: seq<byte>, clientWindow: u32, serverWindow: u32,
                     valid: seq<byte> -> bool) returns (n: Net)
    requires |authority| <= MAX_AUTHORITY
    ensures Reaches(Start(clientWindow, serverWindow), LoneResetEvents(authority), valid, n)
    ensures n.refused.Some? && n.refused.value.1 == Frame(RESET, 1, 0, [])
  {
    hide Inv, Reaches, Act, Take, OpenStream, Announcing, Listed, PeerOk, Refusal, ReceiveAll;
    var n0, all := Start(clientWindow, serverWindow), LoneResetEvents(authority);
    StartInv(clientWindow, serverWindow, valid);
    assert Reaches(n0, [], valid, n0) by { RunsNowhere(n0, valid); }
    StartAnnounces(clientWindow, serverWindow);
    var f := Frame(OPEN, 1, 0, authority);

    ReachesMore(n0, [], valid, n0, true, all[0].1);
    MayOpen(n0.a, [], authority);
    ClientOpens(n0, authority, valid);
    OpensAnother(n0.a, [], authority);
    var n1 := n0.(a := OpenStream(n0.a, authority));
    assert [] + [f] == [f] && [] + [all[0]] == all[..1];

    ReachesMore(n0, all[..1], valid, n1, true, all[1].1);
    OnlyFails(n1, f, valid);
    var n2 := n1.(a := Fail(n1.a, 1));
    assert all[..1] + [all[1]] == all[..2];

    ReachesMore(n0, all[..2], valid, n2, true, all[2].1);
    ClientTakes(n2, FRAME_HEADER, valid);
    SendsReset(n2.a);
    var n3 := Act(n2, true, all[2].1, valid);
    assert all[..2] + [all[2]] == all[..3] && n3.ab[0] == [Frame(RESET, 1, 0, [])];

    ReachesMore(n0, all[..3], valid, n3, false, all[3].1);
    ServerTakesOff(n3, valid);
    ServerRefusesReset(n3.b, valid);
    n := Act(n3, false, all[3].1, valid);
    assert all[..3] + [all[3]] == all;
  }

  lemma OnlyFails(n: Net, f: Frame, valid: seq<byte> -> bool)
    requires Listed(n.a) && Listed(n.b) && n.refused.None? && Announcing(n.a, [f])
    ensures 1 in n.a.streams && Act(n, true, Failed(1), valid) == n.(a := Fail(n.a, 1))
    ensures var p := Fail(n.a, 1);
            p.order == [1] && 1 in p.streams && p.streams[1].reset && !Finished(p.streams[1]) && !p.closed
  {
    assert n.a.order[0] == 1 && Announces(n.a, 0 + 1, [f][0]);
    assert n.a.order == [1];
  }

  lemma SendsReset(p: Peer)
    requires Listed(p) && p.order == [1] && 1 in p.streams && p.streams[1].reset && !Finished(p.streams[1]) && !p.closed
    ensures Take(p, FRAME_HEADER, false).1 == [Frame(RESET, 1, 0, [])]
  {
    var x := Pass(p, FRAME_HEADER, 0, 0);
    assert Head(p) == 1;
    TakeTurn(x, false);
    var y := TurnPass(x, false);
    assert TurnFrames(x, false) == [Frame(RESET, 1, 0, [])] && y.budget == 0;
    hide TurnFrames, TurnPass, VisitStream;
    assert TakenFrames(y, false) == [];
  }

  lemma ServerRefusesReset(q: Peer, valid: seq<byte> -> bool)
    requires q.highest == 0 && q.streams == map[] && q.cursor <= |q.order|
    ensures var cell := [Frame(RESET, 1, 0, [])];
            !ReceiveAll(q, cell, valid).1 && Refusal(q, cell, valid) == Some((q, cell[0]))
  {
  }
}
