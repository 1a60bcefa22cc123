/** One stream and the table it is in (internal/mux/peer.go): in which order its frames leave, when it leaves itself, and
    which frames it accepts. */
module MuxOrder {
  import opened Bytes
  import opened Cell
  import opened MuxStream
  import opened MuxPeer
  import opened MuxScheduler
  import opened MuxFlow
  import opened MuxPair
  import opened MuxRun

  function ResetFrame(id: u32): Frame {
    Frame(RESET, id, 0, [])
  }

  function OpenedFrame(id: u32): Frame {
    Frame(OPENED, id, 0, [])
  }

  function CreditFrame(id: u32, grant: u32): Frame {
    Frame(CREDIT, id, 0, Uint32(grant))
  }

  predicate Before(fs: seq<Frame>, j: nat, f: Frame) {
    exists i :: 0 <= i < j && i < |fs| && fs[i] == f
  }

  /** The frame at j may stand there, given what its stream owed when the take began with this budget: a failed stream
      sends its RESET and nothing else; OPEN goes before everything, OPENED before all but OPEN; CREDIT goes before what
      was read from the socket, unless the budget left did not suffice for it. */
  predicate Allowed(s: Stream, id: u32, fs: seq<Frame>, j: nat, budget: int)
    requires j < |fs|
  {
    var f := fs[j];
    if s.reset then f == ResetFrame(id)
    else
      && f.kind in {OPEN, OPENED, CREDIT, DATA, FIN}
      && (f.kind == OPEN ==> s.open == Some(f)) && (s.open.Some? && f.kind != OPEN ==> Before(fs, j, s.open.value))
      && (f.kind == OPENED ==> s.ack && f == OpenedFrame(id))
      && (s.ack && f.kind != OPEN && f.kind != OPENED ==> Before(fs, j, OpenedFrame(id)))
      && (f.kind == CREDIT ==> s.rx.grant > 0 && f == CreditFrame(id, s.rx.grant))
      && (s.rx.grant > 0 && (f.kind == DATA || f.kind == FIN) ==>
            Before(fs, j, CreditFrame(id, s.rx.grant)) || budget - TotalSize(fs[..j]) < FRAME_HEADER + 4)
  }

  ghost predicate InTurn(s: Stream, id: u32, fs: seq<Frame>, budget: int) {
    forall j :: 0 <= j < |fs| && fs[j].stream == id ==> Allowed(s, id, fs, j, budget)
  }

  // ---------------------------------------------------------------- one visit

  /** What a visit sends is the first thing the stream owes. */
  lemma VisitSends(s: Stream, id: u32, window: u32, budget: nat, controlsOnly: bool)
    requires StreamOk(s, id, window) && !Finished(s) && budget >= FRAME_HEADER
    requires VisitStream(s, id, budget, controlsOnly).Send?
    ensures var v := VisitStream(s, id, budget, controlsOnly);
            var f, s' := v.frame, v.s;
            if s.reset then f == ResetFrame(id) && v.remove
            else
              && s'.reset == s.reset
              && (if s.open.Some? then f == s.open.value && s' == s.(open := None)
                  else if s.ack then f == OpenedFrame(id) && s' == s.(ack := false)
                  else
                    && s'.open == s.open && s'.ack == s.ack
                    && (if f.kind == CREDIT then
                          s.rx.grant > 0 && f == CreditFrame(id, s.rx.grant) && s'.rx.grant == 0
                        else
                          && (f.kind == DATA || f.kind == FIN) && s'.rx == s.rx
                          && (s.rx.grant > 0 ==> budget < FRAME_HEADER + 4)))
  {
    hide SenderOk, ReceiverOk, OfferPending, Refill, Uint32, Greets, SentNext;
    RefillKeeps(s.tx, id);
    if OfferPending(Refill(s.tx), budget, controlsOnly).Offered? {
      OfferKeeps(Refill(s.tx), id, budget, controlsOnly);
    }
  }

  lemma VisitMisses(s: Stream, id: u32, budget: nat, controlsOnly: bool)
    requires budget >= FRAME_HEADER && VisitStream(s, id, budget, controlsOnly).Miss?
    ensures var s' := VisitStream(s, id, budget, controlsOnly).s;
            s'.reset == s.reset && s'.open == s.open && s'.ack == s.ack && s'.rx == s.rx && !s.reset
  {
    hide OfferPending, Uint32;
  }

  // ---------------------------------------------------------------- shifting

  lemma BeforeShift(pre: seq<Frame>, fs: seq<Frame>, j: nat, f: Frame)
    requires Before(fs, j, f)
    ensures Before(pre + fs, |pre| + j, f)
  {
    var i :| 0 <= i < j && i < |fs| && fs[i] == f;
    assert (pre + fs)[|pre| + i] == f;
  }

  lemma SizeShift(pre: seq<Frame>, fs: seq<Frame>, j: nat)
    requires j <= |fs|
    ensures TotalSize((pre + fs)[..|pre| + j]) == TotalSize(pre) + TotalSize(fs[..j])
  {
    assert (pre + fs)[..|pre| + j] == pre + fs[..j];
    TotalSizeAppend(pre, fs[..j]);
  }

  /** Frames of other streams in front change nothing. */
  lemma AllowedShift(s: Stream, id: u32, pre: seq<Frame>, fs: seq<Frame>, j: nat, budget: int)
    requires j < |fs| && Allowed(s, id, fs, j, budget - TotalSize(pre))
    ensures Allowed(s, id, pre + fs, |pre| + j, budget)
  {
    hide Before, TotalSize, Uint32;
    assert (pre + fs)[|pre| + j] == fs[j];
    SizeShift(pre, fs, j);
    if s.open.Some? && Before(fs, j, s.open.value) {
      BeforeShift(pre, fs, j, s.open.value);
    }
    if Before(fs, j, OpenedFrame(id)) {
      BeforeShift(pre, fs, j, OpenedFrame(id));
    }
    if Before(fs, j, CreditFrame(id, s.rx.grant)) {
      BeforeShift(pre, fs, j, CreditFrame(id, s.rx.grant));
    }
  }

  lemma OthersInFront(s: Stream, id: u32, pre: seq<Frame>, fs: seq<Frame>, budget: int)
    requires InTurn(s, id, fs, budget - TotalSize(pre))
    requires forall i :: 0 <= i < |pre| ==> pre[i].stream != id
    ensures InTurn(s, id, pre + fs, budget)
  {
    hide Allowed, TotalSize;
    var all := pre + fs;
    forall j | 0 <= j < |all| && all[j].stream == id ensures Allowed(s, id, all, j, budget) {
      assert j >= |pre| && all[j] == fs[j - |pre|];
      AllowedShift(s, id, pre, fs, j - |pre|, budget);
    }
  }

  /** The stream's own frame f in front settles what it owed most urgently. */
  lemma OwnInFront(s: Stream, s': Stream, id: u32, f: Frame, fs: seq<Frame>, budget: nat)
    requires !s.reset && !s'.reset && f.stream == id && f.Size() <= budget
    requires InTurn(s', id, fs, budget - f.Size())
    requires if s.open.Some? then f == s.open.value && f.kind == OPEN && s' == s.(open := None)
             else if s.ack then f == OpenedFrame(id) && s' == s.(ack := false)
             else
               && s'.open == s.open && s'.ack == s.ack
               && (if f.kind == CREDIT then
                     s.rx.grant > 0 && f == CreditFrame(id, s.rx.grant) && s'.rx.grant == 0
                   else
                     && (f.kind == DATA || f.kind == FIN) && s'.rx == s.rx
                     && (s.rx.grant > 0 ==> budget < FRAME_HEADER + 4))
    ensures InTurn(s, id, [f] + fs, budget)
  {
    hide Before, Uint32, TotalSize;
    var all := [f] + fs;
    OneSize(f);
    assert all[0] == f;
    forall j | 0 <= j < |all| && all[j].stream == id ensures Allowed(s, id, all, j, budget) {
      if j == 0 {
        NoSize(all);
      } else {
        assert all[j] == fs[j - 1];
        AllowedShift(s', id, [f], fs, j - 1, budget);
        FrontBefore(all, j, f);
        SizeShift([f], fs, j - 1);
      }
    }
  }

  lemma OneSize(f: Frame)
    ensures TotalSize([f]) == f.Size()
  {
    assert [f][1..] == [];
  }

  lemma NoSize(fs: seq<Frame>)
    ensures TotalSize(fs[..0]) == 0
  {
  }

  lemma FrontBefore(fs: seq<Frame>, j: nat, f: Frame)
    requires 0 < j && fs != [] && fs[0] == f
    ensures Before(fs, j, f)
  {
  }

  // ---------------------------------------------------------------- one take

  /** A stream that is not in the table sends nothing and does not come back. */
  lemma {:induction false} NoFramesOf(x: Pass, controlsOnly: bool, id: u32)
    requires PeerOk(x.p) && id !in x.p.streams
    ensures id !in LastPass(x, controlsOnly).p.streams
    ensures forall j :: 0 <= j < |TakenFrames(x, controlsOnly)| ==> TakenFrames(x, controlsOnly)[j].stream != id
    decreases x.budget, |x.p.order|, |x.p.order| - x.misses
  {
    hide TurnPass, TurnFrames, PeerOk, Listed;
    OkListed(x.p);
    if Running(x) {
      TurnKeeps(x, controlsOnly);
      TurnShrinks(x, controlsOnly);
      NoFramesOf(TurnPass(x, controlsOnly), controlsOnly, id);
    }
  }

  /** Another stream's turn. */
  lemma TurnElse(x: Pass, controlsOnly: bool, id: u32)
    requires PeerOk(x.p) && Running(x) && Head(x.p) != id && id in x.p.streams
    ensures var fs, y := TurnFrames(x, controlsOnly), TurnPass(x, controlsOnly);
            && (forall i :: 0 <= i < |fs| ==> fs[i].stream != id)
            && id in y.p.streams && y.p.streams[id] == x.p.streams[id]
  {
    hide VisitStream, StreamOk, Distinct, IndexOf;
    TurnKeeps(x, controlsOnly);
    NothingToRetire(x, controlsOnly);
    TurnTable(x, controlsOnly);
    hide PeerOk, Listed, TurnPass, TurnFrames;
  }

  /** The stream's own turn. */
  lemma TurnOwn(x: Pass, controlsOnly: bool, id: u32)
    requires PeerOk(x.p) && Running(x) && Head(x.p) == id
    ensures var v := VisitStream(x.p.streams[id], id, x.budget, controlsOnly);
            var y := TurnPass(x, controlsOnly);
            && !v.Retire?
            && (v.Miss? ==> TurnFrames(x, controlsOnly) == [] && y.budget == x.budget)
            && (v.Send? ==> TurnFrames(x, controlsOnly) == [v.frame] && y.budget == x.budget - v.frame.Size())
            && if v.Send? && v.remove then id !in y.p.streams && id in y.p.retired && y.p.retired[id] == v.s
               else id in y.p.streams && y.p.streams[id] == v.s
  {
    hide VisitStream, StreamOk, Distinct, IndexOf;
    NothingToRetire(x, controlsOnly);
    TurnTable(x, controlsOnly);
    hide PeerOk, Listed;
  }

  /** A visit without a frame leaves the stream's debts as they were. */
  lemma MissedInTurn(s: Stream, s': Stream, id: u32, fs: seq<Frame>, budget: int)
    requires InTurn(s', id, fs, budget)
    requires s'.reset == s.reset && s'.open == s.open && s'.ack == s.ack && s'.rx == s.rx
    ensures InTurn(s, id, [] + fs, budget)
  {
    hide Before, TotalSize, Uint32;
    assert [] + fs == fs;
  }

  lemma SentInTurn(s: Stream, id: u32, window: u32, budget: nat, controlsOnly: bool, fs: seq<Frame>)
    requires StreamOk(s, id, window) && !Finished(s) && budget >= FRAME_HEADER
    requires VisitStream(s, id, budget, controlsOnly).Send?
    requires var v := VisitStream(s, id, budget, controlsOnly);
             if v.remove then forall j :: 0 <= j < |fs| ==> fs[j].stream != id
             else InTurn(v.s, id, fs, budget - v.frame.Size())
    ensures InTurn(s, id, [VisitStream(s, id, budget, controlsOnly).frame] + fs, budget)
  {
    hide VisitStream, StreamOk, Finished, Allowed, OpenFrame;
    var v := VisitStream(s, id, budget, controlsOnly);
    VisitKeeps(s, id, window, budget, controlsOnly);
    VisitSends(s, id, window, budget, controlsOnly);
    if s.reset {
      LoneInTurn(s, id, v.frame, fs, budget);
    } else {
      if s.open.Some? {
        OpenKind(s, id, window);
      }
      OwnInFront(s, v.s, id, v.frame, fs, budget);
    }
  }

  lemma OpenKind(s: Stream, id: u32, window: u32)
    requires StreamOk(s, id, window) && s.open.Some?
    ensures s.open.value.kind == OPEN && s.open.value.stream == id
  {
    hide SenderOk, ReceiverOk, Greets;
  }

  lemma LoneInTurn(s: Stream, id: u32, f: Frame, fs: seq<Frame>, budget: int)
    requires s.reset && f == ResetFrame(id) && forall j :: 0 <= j < |fs| ==> fs[j].stream != id
    ensures InTurn(s, id, [f] + fs, budget)
  {
    var all := [f] + fs;
    assert forall j :: 0 < j < |all| ==> all[j] == fs[j - 1];
    assert InTurn(s, id, all, budget);
  }

  /** Within one take the frames of each stream come in the order of its debts: nothing but RESET from a failed stream,
      else OPEN, OPENED, CREDIT and only then DATA and FIN. */
  lemma {:induction false} TakeInTurn(x: Pass, controlsOnly: bool, id: u32)
    requires PeerOk(x.p) && id in x.p.streams && x.budget >= 0
    ensures InTurn(x.p.streams[id], id, TakenFrames(x, controlsOnly), x.budget)
    decreases x.budget, |x.p.order|, |x.p.order| - x.misses
  {
    hide TurnPass, TurnFrames, PeerOk, Listed, InTurn, VisitStream, StreamOk, Finished;
    OkListed(x.p);
    var s := x.p.streams[id];
    if Running(x) {
      var y := TurnPass(x, controlsOnly);
      var fs := TakenFrames(y, controlsOnly);
      TurnKeeps(x, controlsOnly);
      TurnFits(x, controlsOnly);
      if Head(x.p) != id {
        TurnElse(x, controlsOnly, id);
        TakeInTurn(y, controlsOnly, id);
        OthersInFront(s, id, TurnFrames(x, controlsOnly), fs, x.budget);
      } else {
        var v := VisitStream(s, id, x.budget, controlsOnly);
        TurnOwn(x, controlsOnly, id);
        PeerStream(x.p, id);
        if v.Miss? {
          TakeInTurn(y, controlsOnly, id);
          VisitMisses(s, id, x.budget, controlsOnly);
          MissedInTurn(s, v.s, id, fs, x.budget);
        } else {
          if v.remove {
            NoFramesOf(y, controlsOnly, id);
          } else {
            TakeInTurn(y, controlsOnly, id);
          }
          SentInTurn(s, id, x.p.window, x.budget, controlsOnly, fs);
        }
      }
    } else {
      NothingInTurn(s, id, x.budget);
    }
  }

  lemma NothingInTurn(s: Stream, id: u32, budget: int)
    ensures InTurn(s, id, [], budget)
  {
  }

  // ---------------------------------------------------------------- one take after the other

  /** The budget of a take, and whether it is for controls only. */
  datatype Wish = Wish(budget: int, controlsOnly: bool)

  /** The frames that several takes in a row give. */
  function AllFrames(p: Peer, takes: seq<Wish>): seq<Frame>
    requires Listed(p)
    decreases |takes|
  {
    if takes == [] then []
    else
      var (q, fs) := Take(p, takes[0].budget, takes[0].controlsOnly);
      fs + AllFrames(q, takes[1..])
  }

  /** The streams that they visit, and the table at each visit. */
  function AllVisits(p: Peer, takes: seq<Wish>): seq<u32>
    requires Listed(p)
    decreases |takes|
  {
    if takes == [] then []
    else
      Visits(Pass(p, takes[0].budget, 0, 0), takes[0].controlsOnly)
      + AllVisits(Take(p, takes[0].budget, takes[0].controlsOnly).0, takes[1..])
  }

  function AllTables(p: Peer, takes: seq<Wish>): seq<set<u32>>
    requires Listed(p)
    decreases |takes|
  {
    if takes == [] then []
    else
      Tables(Pass(p, takes[0].budget, 0, 0), takes[0].controlsOnly)
      + AllTables(Take(p, takes[0].budget, takes[0].controlsOnly).0, takes[1..])
  }

  lemma {:induction false} FromVisitsAppend(fs: seq<Frame>, v: seq<u32>, gs: seq<Frame>, w: seq<u32>)
    requires FromVisits(fs, v) && FromVisits(gs, w)
    ensures FromVisits(fs + gs, v + w)
    decreases |v|
  {
    if v == [] {
      assert fs + gs == gs && v + w == w;
    } else {
      assert (v + w)[1..] == v[1..] + w;
      if fs != [] && fs[0].stream == v[0] && FromVisits(fs[1..], v[1..]) {
        FromVisitsAppend(fs[1..], v[1..], gs, w);
        assert (fs + gs)[1..] == fs[1..] + gs;
      } else {
        FromVisitsAppend(fs, v[1..], gs, w);
      }
    }
  }

  lemma TakeOpens(p: Peer, take: Wish)
    requires PeerOk(p) && !p.closed
    ensures Listed(p)
    ensures var x, q := Pass(p, take.budget, 0, 0), Take(p, take.budget, take.controlsOnly).0;
            && q == LastPass(x, take.controlsOnly).p && PeerOk(q) && !q.closed
            && Take(p, take.budget, take.controlsOnly).1 == TakenFrames(x, take.controlsOnly)
  {
    hide PeerOk, Listed, LastPass, TakenFrames;
    OkListed(p);
    TakeFits(Pass(p, take.budget, 0, 0), take.controlsOnly);
    TakeSettings(Pass(p, take.budget, 0, 0), take.controlsOnly);
  }

  lemma {:induction false} FairAgain(p: Peer, takes: seq<Wish>, h: seq<u32>, t: seq<set<u32>>)
    requires PeerOk(p) && !p.closed && Listed(p) && Recency(h, Round(p)) && Fair(h, t)
    ensures Fair(h + AllVisits(p, takes), t + AllTables(p, takes))
    decreases |takes|
  {
    hide PeerOk, Listed, Recency, Fair, Take, LastPass, Visits, Tables, Round;
    if takes == [] {
      assert h + [] == h && t + [] == t;
    } else {
      var x, c := Pass(p, takes[0].budget, 0, 0), takes[0].controlsOnly;
      TakeOpens(p, takes[0]);
      var q := Take(p, takes[0].budget, c).0;
      FairFrom(x, c, h, t);
      CursorInside(q);
      FairAgain(q, takes[1..], h + Visits(x, c), t + Tables(x, c));
      Assoc(h, Visits(x, c), AllVisits(q, takes[1..]));
      Assoc(t, Tables(x, c), AllTables(q, takes[1..]));
    }
  }

  lemma {:induction false} FramesFollowAll(p: Peer, takes: seq<Wish>)
    requires PeerOk(p) && !p.closed && Listed(p)
    ensures FromVisits(AllFrames(p, takes), AllVisits(p, takes))
    decreases |takes|
  {
    hide PeerOk, Listed, Take, TakenFrames, Visits, FromVisits;
    if takes != [] {
      var x, c := Pass(p, takes[0].budget, 0, 0), takes[0].controlsOnly;
      TakeOpens(p, takes[0]);
      var q := Take(p, takes[0].budget, c).0;
      FramesFollowVisits(x, c);
      FramesFollowAll(q, takes[1..]);
      FromVisitsAppend(TakenFrames(x, c), Visits(x, c), AllFrames(q, takes[1..]), AllVisits(q, takes[1..]));
    } else {
      NoFramesFollow();
    }
  }

  lemma NoFramesFollow()
    ensures FromVisits([], [])
  {
  }

  /** Fairness does not end with a take: over any number of takes in a row, of any budgets, no stream sends a second time
      before every other stream then in the table has had its turn in between. */
  lemma TakesAreFair(p: Peer, takes: seq<Wish>)
    requires PeerOk(p) && !p.closed
    ensures Listed(p)
    ensures FromVisits(AllFrames(p, takes), AllVisits(p, takes)) && Fair(AllVisits(p, takes), AllTables(p, takes))
  {
    hide PeerOk, Listed, Recency, Fair, FromVisits, AllFrames, AllVisits, AllTables;
    OkListed(p);
    CursorInside(p);
    FramesFollowAll(p, takes);
    NothingVisited(Round(p));
    FairAgain(p, takes, [], []);
    assert [] + AllVisits(p, takes) == AllVisits(p, takes) && [] + AllTables(p, takes) == AllTables(p, takes);
  }

  // ---------------------------------------------------------------- leaving the table

  lemma RemoveRemembers(p: Peer, id: u32, k: u32)
    requires p.cursor <= |p.order| && k in p.retired && k != id
    ensures k in Remove(p, id).retired && Remove(p, id).retired[k] == p.retired[k]
  {
    hide IndexOf;
  }

  lemma TurnRemembers(x: Pass, controlsOnly: bool, k: u32)
    requires PeerOk(x.p) && Running(x) && k in x.p.retired
    ensures var q := TurnPass(x, controlsOnly).p; k in q.retired && q.retired[k] == x.p.retired[k] && k !in q.streams
  {
    hide VisitStream, StreamOk, Distinct, Remove, Finished;
    var id, v := Head(x.p), HeadVisit(x, controlsOnly);
    NothingToRetire(x, controlsOnly);
    TurnShrinks(x, controlsOnly);
    CursorInside(Advance(x.p));
    RemoveRemembers(Update(Advance(x.p), id, v.s), id, k);
  }

  /** What the peer remembers of a stream that has left does not change any more. */
  lemma {:induction false} TakeRemembers(x: Pass, controlsOnly: bool, id: u32)
    requires PeerOk(x.p) && id in x.p.retired
    ensures var q := LastPass(x, controlsOnly).p; id in q.retired && q.retired[id] == x.p.retired[id]
    decreases x.budget, |x.p.order|, |x.p.order| - x.misses
  {
    hide TurnPass, PeerOk, Listed;
    OkListed(x.p);
    if Running(x) {
      TurnKeeps(x, controlsOnly);
      TurnRemembers(x, controlsOnly, id);
      TakeRemembers(TurnPass(x, controlsOnly), controlsOnly, id);
    }
  }

  /** A visit lets go of a stream only with its RESET or when it is over. */
  lemma VisitRetires(s: Stream, id: u32, budget: nat, controlsOnly: bool)
    requires !Finished(s) && budget >= FRAME_HEADER
    ensures var v := VisitStream(s, id, budget, controlsOnly);
            if v.Send? && v.remove then (if s.reset then v.frame == ResetFrame(id) else Finished(v.s))
            else !v.Retire? && !s.reset && !v.s.reset
  {
    hide Uint32;
  }

  lemma ResetElsewhere(first: seq<Frame>, rest: seq<Frame>, id: u32)
    requires forall i :: 0 <= i < |first| ==> first[i].stream != id
    ensures ResetFrame(id) in first + rest <==> ResetFrame(id) in rest
  {
  }

  /** A take retires a stream exactly when it has sent the RESET of the failed stream, or the stream is over. */
  lemma {:induction false} TakeRetires(x: Pass, controlsOnly: bool, id: u32)
    requires PeerOk(x.p) && id in x.p.streams
    ensures var s, q, fs := x.p.streams[id], LastPass(x, controlsOnly).p, TakenFrames(x, controlsOnly);
            && (id in q.streams ==> q.streams[id].reset == s.reset && !Finished(q.streams[id]))
            && (id !in q.streams ==> id in q.retired && (s.reset || Finished(q.retired[id])))
            && (s.reset ==> (id !in q.streams <==> ResetFrame(id) in fs))
    decreases x.budget, |x.p.order|, |x.p.order| - x.misses
  {
    hide TurnPass, TurnFrames, PeerOk, Listed, VisitStream, StreamOk, Finished, ResetFrame;
    OkListed(x.p);
    var s := x.p.streams[id];
    PeerStream(x.p, id);
    if Running(x) {
      var y := TurnPass(x, controlsOnly);
      TurnKeeps(x, controlsOnly);
      if Head(x.p) != id {
        TurnElse(x, controlsOnly, id);
        TakeRetires(y, controlsOnly, id);
        ResetElsewhere(TurnFrames(x, controlsOnly), TakenFrames(y, controlsOnly), id);
      } else {
        TurnOwn(x, controlsOnly, id);
        VisitRetires(s, id, x.budget, controlsOnly);
        if id in y.p.streams {
          TakeRetires(y, controlsOnly, id);
        } else {
          NoFramesOf(y, controlsOnly, id);
          TakeRemembers(y, controlsOnly, id);
        }
      }
    }
  }

  /** A stream that has failed sends its RESET and nothing else, and leaves with it; it does so in the next take, unless
      that take runs out of room. */
  lemma FailedIsReset(p: Peer, id: u32, budget: nat, controlsOnly: bool)
    requires PeerOk(p) && id in p.streams && !p.closed
    ensures var (q, fs) := Take(Fail(p, id), budget, controlsOnly);
            && (forall j :: 0 <= j < |fs| && fs[j].stream == id ==> fs[j] == ResetFrame(id))
            && (id !in q.streams <==> ResetFrame(id) in fs)
            && (budget - TotalSize(fs) >= FRAME_HEADER && |fs| < TAKE_LIMIT ==> id !in q.streams)
  {
    hide PeerOk, Listed, LastPass, TakenFrames, TotalSize, ResetFrame, Finished;
    FailKeeps(p, id);
    var f := Fail(p, id);
    OkListed(f);
    var x := Pass(f, budget, 0, 0);
    TakeInTurn(x, controlsOnly, id);
    TakeRetires(x, controlsOnly, id);
    TakeIsWorkConserving(f, budget, controlsOnly);
  }

  /** An OPENED that is owed is sent or still owed. */
  lemma VisitOwes(s: Stream, id: u32, budget: nat, controlsOnly: bool)
    requires s.ack && !s.reset && !Finished(s) && budget >= FRAME_HEADER
    ensures var v := VisitStream(s, id, budget, controlsOnly);
            if v.Send? && v.frame == OpenedFrame(id) then !v.remove
            else !v.Retire? && (v.Send? ==> !v.remove) && v.s.ack && !v.s.reset
  {
  }

  lemma OpenedElsewhere(first: seq<Frame>, rest: seq<Frame>, id: u32)
    ensures OpenedFrame(id) in first + rest <==> OpenedFrame(id) in first || OpenedFrame(id) in rest
  {
  }

  lemma {:induction false} TakeOwes(x: Pass, controlsOnly: bool, id: u32)
    requires PeerOk(x.p) && id in x.p.streams && x.p.streams[id].ack && !x.p.streams[id].reset
    ensures var q := LastPass(x, controlsOnly).p;
            OpenedFrame(id) in TakenFrames(x, controlsOnly) || (id in q.streams && q.streams[id].ack)
    decreases x.budget, |x.p.order|, |x.p.order| - x.misses
  {
    hide TurnPass, TurnFrames, PeerOk, Listed, VisitStream, StreamOk, Finished, OpenedFrame;
    OkListed(x.p);
    PeerStream(x.p, id);
    if Running(x) {
      var y := TurnPass(x, controlsOnly);
      TurnKeeps(x, controlsOnly);
      OpenedElsewhere(TurnFrames(x, controlsOnly), TakenFrames(y, controlsOnly), id);
      if Head(x.p) != id {
        TurnElse(x, controlsOnly, id);
        TakeOwes(y, controlsOnly, id);
      } else {
        var v := VisitStream(x.p.streams[id], id, x.budget, controlsOnly);
        TurnOwn(x, controlsOnly, id);
        VisitOwes(x.p.streams[id], id, x.budget, controlsOnly);
        if !v.Send? || v.frame != OpenedFrame(id) {
          TakeOwes(y, controlsOnly, id);
        }
      }
    }
  }

  /** A stream that has just been dialed is confirmed by OPENED in the next take, unless that take runs out of room. */
  lemma DialedIsOpened(p: Peer, id: u32, budget: nat, controlsOnly: bool)
    requires PeerOk(p) && id in p.streams && !p.streams[id].attached && !p.closed
    requires !p.streams[id].reset && p.streams[id].open.None?
    ensures var (q, fs) := Take(Dialed(p, id), budget, controlsOnly);
            budget - TotalSize(fs) >= FRAME_HEADER && |fs| < TAKE_LIMIT ==> OpenedFrame(id) in fs
  {
    hide PeerOk, Listed, LastPass, TakenFrames, TotalSize, OpenedFrame, Finished;
    DialedKeeps(p, id);
    var d := Dialed(p, id);
    OkListed(d);
    var x := Pass(d, budget, 0, 0);
    TakeOwes(x, controlsOnly, id);
    OpenStays(x, controlsOnly, id);
    TakeIsWorkConserving(d, budget, controlsOnly);
  }

  /** No take brings an OPEN to a stream that has none to send. */
  lemma {:induction false} OpenStays(x: Pass, controlsOnly: bool, id: u32)
    requires PeerOk(x.p) && id in x.p.streams && x.p.streams[id].open.None?
    ensures var q := LastPass(x, controlsOnly).p; id in q.streams ==> q.streams[id].open.None?
    decreases x.budget, |x.p.order|, |x.p.order| - x.misses
  {
    hide TurnPass, TurnFrames, PeerOk, Listed, VisitStream, StreamOk, Finished;
    OkListed(x.p);
    if Running(x) {
      var y := TurnPass(x, controlsOnly);
      TurnKeeps(x, controlsOnly);
      if Head(x.p) != id {
        TurnElse(x, controlsOnly, id);
      } else {
        TurnOwn(x, controlsOnly, id);
        NoOpenComes(x.p.streams[id], id, x.budget, controlsOnly);
      }
      if id in y.p.streams {
        OpenStays(y, controlsOnly, id);
      } else {
        NoFramesOf(y, controlsOnly, id);
      }
    }
  }

  lemma NoOpenComes(s: Stream, id: u32, budget: nat, controlsOnly: bool)
    requires s.open.None? && budget >= FRAME_HEADER
    ensures var v := VisitStream(s, id, budget, controlsOnly); !v.Retire? ==> v.s.open.None?
  {
    hide Uint32;
  }

  predicate ResetFor(fs: seq<Frame>, id: u32) {
    exists j :: 0 <= j < |fs| && fs[j].stream == id && fs[j].kind == RESET
  }

  /** What is known of a stream that has left the table. */
  predicate Left(p: Peer, id: u32) {
    id !in p.streams && id in p.retired
  }

  lemma ReceiveOneRetires(p: Peer, f: Frame, valid: seq<byte> -> bool, id: u32)
    requires PeerOk(p) && ReceiveOne(p, f, valid).Some?
    ensures var q := ReceiveOne(p, f, valid).value;
            && (Left(p, id) ==> Left(q, id))
            && (id in p.streams ==> if f.stream == id && f.kind == RESET then Left(q, id) else id in q.streams)
  {
    hide Accept, StreamOk, Distinct, Finished;
    AcceptCloses(if f.stream in p.streams then p.streams[f.stream] else Fresh(p.send, p.window), f, p.dial, p.send);
    if f.stream in p.streams {
      RemoveElse(p, f.stream);
      RemoveShrinks(p, f.stream);
    }
    hide Remove;
  }

  lemma AcceptCloses(s: Stream, f: Frame, dial: bool, send: u32)
    ensures Accept(s, f, dial, send).Kept? ==> f.kind != RESET
    ensures Accept(s, f, dial, send).Closed? ==> f.kind == RESET
  {
  }

  /** A received cell retires exactly the streams that it resets. */
  lemma {:induction false} ReceiveRetires(p: Peer, frames: seq<Frame>, valid: seq<byte> -> bool, id: u32)
    requires PeerOk(p) && p.cursor <= |p.order| && ReceiveAll(p, frames, valid).1
    ensures Left(p, id) ==> Left(ReceiveAll(p, frames, valid).0, id)
    ensures id in p.streams ==>
              if ResetFor(frames, id) then Left(ReceiveAll(p, frames, valid).0, id)
              else id in ReceiveAll(p, frames, valid).0.streams
    decreases |frames|
  {
    hide PeerOk, ReceiveOne, Left;
    if frames != [] {
      var q := ReceiveOne(p, frames[0], valid).value;
      ReceiveOneRetires(p, frames[0], valid, id);
      ReceiveOneKeeps(p, frames[0], valid);
      ReceiveRetires(q, frames[1..], valid, id);
      ResetForTail(frames, id);
    }
  }

  lemma ResetForTail(fs: seq<Frame>, id: u32)
    requires fs != []
    ensures ResetFor(fs, id) <==> (fs[0].stream == id && fs[0].kind == RESET) || ResetFor(fs[1..], id)
  {
    assert forall j :: 0 < j < |fs| ==> fs[j] == fs[1..][j - 1];
  }

  /** The half-close retires the stream exactly when its own FIN is out and no CREDIT is owed. */
  lemma WriterFinRetires(p: Peer, id: u32, k: u32)
    requires PeerOk(p) && id in p.streams && k in p.streams && CanFinishFin(p.streams[id].rx)
    ensures var s, q := p.streams[id], WriterFin(p, id);
            if k == id && s.tx.localFinSent && s.rx.grant == 0 then
              Left(q, k) && q.retired[k] == s.(rx := FinishFin(s.rx)) && Finished(q.retired[k])
            else k in q.streams
  {
    hide StreamOk, Listed, Remove;
    var s := p.streams[id].(rx := FinishFin(p.streams[id].rx));
    var q := Update(p, id, s);
    assert StreamOk(p.streams[id], id, p.window) && Listed(p);
    UpdateListed(p, id, s);
    RemoveElse(q, id);
    RemoveShrinks(q, id);
  }

  /** Why a stream that was in the table is not in it after an event: it is over, its RESET has been sent, or the peer's
      RESET has come. As long as it stays, it is not over. */
  lemma LeavesWhenOver(n: Net, ev: Event, valid: seq<byte> -> bool, id: u32)
    requires Inv(n, valid) && Listed(n.a) && id in n.a.streams
    ensures var m := ActA(n, ev, valid);
            && (id in m.a.streams ==> !Finished(m.a.streams[id]))
            && (id !in m.a.streams ==>
                  && id in m.a.retired
                  && (|| Finished(m.a.retired[id])
                      || (ev.TakeCell? && |m.ab| == |n.ab| + 1 && ResetFrame(id) in m.ab[|n.ab|])
                      || (ev.ReceiveCell? && n.ba != [] && ResetFor(n.ba[0], id))))
  {
    hide Listed, Local, Enabled, TakenFrames, LastPass, ReceiveAll, Refusal, Finished, ResetFrame, ResetFor, PeerOk, Link;
    InvStreams(n, valid, id);
    if n.refused.None? && Enabled(n.a, n.ba, ev) {
      match ev
      case TakeCell(budget, controlsOnly) =>
        TakeOpen(n.a, n.ba, ev);
        TakeRetires(Pass(n.a, budget, 0, 0), controlsOnly, id);
      case ReceiveCell =>
        FlatHead(n.ba, n.a, ev);
        CursorInside(n.a);
        ReceiveKeeps(n.a, n.ba[0], valid);
        if ReceiveAll(n.a, n.ba[0], valid).1 {
          ReceiveRetires(n.a, n.ba[0], valid, id);
          StillRuns(ReceiveAll(n.a, n.ba[0], valid).0, id);
        }
      case _ =>
        LocalEnabled(n.a, n.ba, ev);
        CursorInside(n.a);
        LocalRetires(n.a, ev, id);
        JointLocal(n.a, n.b, Flat(n.ab), Flat(n.ba), ev);
        StillRuns(Local(n.a, ev), id);
    }
  }

  lemma InvStreams(n: Net, valid: seq<byte> -> bool, id: u32)
    requires Inv(n, valid) && id in n.a.streams
    ensures PeerOk(n.a) && !Finished(n.a.streams[id])
  {
    hide StreamOk, Listed, Link, Excused;
  }

  lemma StillRuns(p: Peer, id: u32)
    requires PeerOk(p)
    ensures id in p.streams ==> !Finished(p.streams[id])
  {
    hide StreamOk, Listed, Finished;
  }

  lemma LocalRetires(p: Peer, ev: Event, id: u32)
    requires PeerOk(p) && p.cursor <= |p.order| && Enabled(p, [], ev) && id in p.streams
    ensures var q := Local(p, ev); id !in q.streams ==> id in q.retired && Finished(q.retired[id])
  {
    hide PeerOk, CanOpen, WriterFin, ReadData, ReadEof, PopInput, WriteSome, FinishChunk, Finished;
    if ev.FinDone? {
      WriterFinRetires(p, ev.id, id);
    }
  }

  // ---------------------------------------------------------------- OPENED in a run

  /** Without progress no bytes and no end of stream are under way. */
  lemma {:induction false} SilentScan(c: Progress, fs: seq<Frame>)
    requires !c.fin && Scan(c, fs) == Some(c)
    ensures forall i :: 0 <= i < |fs| ==> fs[i].kind != DATA && fs[i].kind != FIN
    decreases |fs|
  {
    if fs != [] {
      var d := ScanOne(c, fs[0]).value;
      ScanGrows(d, fs[1..]);
      SilentScan(d, fs[1..]);
      assert forall i :: 0 < i < |fs| ==> fs[i] == fs[1..][i - 1];
    }
  }

  lemma NothingSent(x: Side, y: Side, f: seq<Frame>, g: seq<Frame>, w: int, toServer: bool, id: u32, window: u32)
    requires Flow(x, y, f, g, w, toServer) && x.live && y.live && ReceiverOk(y.s.rx, id, window)
    requires x.s.tx.sent == [] && !x.s.tx.localFinSent
    ensures y.s.rx.written == [] && !y.s.rx.remoteFinWritten
    ensures forall i :: 0 <= i < |f| ==> f[i].kind != DATA && f[i].kind != FIN
  {
    hide ReceiverOk;
    ScanGrows(Reached(y.s.rx), f);
    SilentScan(Reached(y.s.rx), f);
    WrittenBelongs(y.s.rx, id, window);
  }

  /** In every run: as long as the server has not dialed a stream, or still owes its OPENED, it has sent none of the
      bytes of that stream, nothing of it is under way, and the client has passed none to its socket. */
  lemma NothingBeforeOpened(clientWindow: u32, serverWindow: u32, events: seq<(bool, Event)>,
                            valid: seq<byte> -> bool, n: Net, id: u32)
    requires Reaches(Start(clientWindow, serverWindow), events, valid, n)
    requires id in n.b.streams && (!n.b.streams[id].attached || n.b.streams[id].ack)
    ensures n.b.streams[id].tx.sent == [] && !n.b.streams[id].tx.localFinSent
    ensures id in n.a.streams ==>
              && SocketOut(n.a, id) == [] && !HalfClosed(n.a, id)
              && forall i :: 0 <= i < |Sel(Flat(n.ba), id)| ==>
                   Sel(Flat(n.ba), id)[i].kind != DATA && Sel(Flat(n.ba), id)[i].kind != FIN
  {
    hide PeerOk, Flow, Openings, ReceiverOk, SenderOk, Sel, Flat, Reaches;
    StartInv(clientWindow, serverWindow, valid);
    RunInv(Start(clientWindow, serverWindow), events, valid, n);
    PeerStream(n.b, id);
    Silence(n.b.streams[id], id, n.b.window);
    if id in n.a.streams {
      assert Link(n.a, n.b, Flat(n.ab), Flat(n.ba), id);
      PeerStream(n.a, id);
      NothingSent(View(n.b, id), View(n.a, id), Sel(Flat(n.ba), id), Sel(Flat(n.ab), id), n.b.send, n.a.dial, id,
                  n.a.window);
    }
  }

  // ---------------------------------------------------------------- what a receiver accepts

  /** The frame follows the protocol at this point of the stream: offsets are exact and nothing follows FIN, DATA stays
      within the window, CREDIT does not lift the sender above its own, only the server sends OPENED. */
  predicate Obeys(s: Stream, f: Frame, dial: bool, send: u32, window: u32) {
    && f.kind in {DATA, FIN, RESET, CREDIT, OPENED}
    && ScanOne(Reached(s.rx), f).Some?
    && (f.kind == DATA ==> |s.rx.arrived| + |f.body| - Delivered(s.rx) <= window)
    && (f.kind == CREDIT ==> FromBE32(f.body) <= Wrap32(send - s.tx.credit))
    && (f.kind == OPENED ==> !dial)
  }

  /** What an accepted frame does to the stream. */
  predicate Takes(s: Stream, f: Frame, s': Stream) {
    && Some(Reached(s'.rx)) == ScanOne(Reached(s.rx), f)
    && s'.rx.written == s.rx.written && s'.rx.writing == s.rx.writing && s'.rx.grant == s.rx.grant
    && s'.rx.remoteFinWritten == s.rx.remoteFinWritten
    && s'.tx == s.tx.(credit := s'.tx.credit)
    && s'.tx.credit == (if f.kind == CREDIT then Wrap32(s.tx.credit + FromBE32(f.body)) else s.tx.credit)
    && s' == s.(rx := s'.rx, tx := s'.tx)
  }

  lemma BudgetLeft(s: Stream, id: u32, window: u32)
    requires StreamOk(s, id, window)
    ensures s.rx.nextIn == Wrap32(|s.rx.arrived|) && s.rx.budget == window - |s.rx.arrived| + Delivered(s.rx)
  {
    hide SenderOk, Scan, DataOrFin, Coalesced, Greets, WriterOk, Delivered;
  }

  lemma DataExactly(r: Incoming, f: Frame, window: u32)
    requires f.kind == DATA && r.nextIn == Wrap32(|r.arrived|) && r.budget == window - |r.arrived| + Delivered(r)
    ensures AcceptData(r, f).Some? <==>
              ScanOne(Reached(r), f).Some? && |r.arrived| + |f.body| - Delivered(r) <= window
    ensures AcceptData(r, f).Some? ==>
              var q := AcceptData(r, f).value;
              && Some(Reached(q)) == ScanOne(Reached(r), f) && q.budget == r.budget - |f.body|
              && q == r.(input := q.input, nextIn := q.nextIn, budget := q.budget, arrived := q.arrived)
  {
    hide Coalesce, Delivered;
  }

  lemma FinExactly(r: Incoming, f: Frame)
    requires f.kind == FIN && r.nextIn == Wrap32(|r.arrived|)
    ensures AcceptFin(r, f).Some? <==> ScanOne(Reached(r), f).Some?
    ensures AcceptFin(r, f).Some? ==>
              var q := AcceptFin(r, f).value;
              && Some(Reached(q)) == ScanOne(Reached(r), f)
              && q == r.(input := q.input, remoteFin := true)
  {
  }

  lemma CreditExactly(t: Outgoing, r: Incoming, f: Frame, send: u32)
    requires f.kind == CREDIT
    ensures AcceptCredit(t, f, send).Some? <==>
              ScanOne(Reached(r), f).Some? && FromBE32(f.body) <= Wrap32(send - t.credit)
    ensures AcceptCredit(t, f, send).Some? ==>
              && AcceptCredit(t, f, send).value == t.(credit := Wrap32(t.credit + FromBE32(f.body)))
              && ScanOne(Reached(r), f) == Some(Reached(r))
  {
    hide FromBE32;
  }

  /** A stream accepts exactly the frames that follow the protocol. */
  lemma AcceptExactly(s: Stream, f: Frame, id: u32, window: u32, dial: bool, send: u32)
    requires StreamOk(s, id, window)
    ensures var a := Accept(s, f, dial, send);
            && (!a.Refused? <==> Obeys(s, f, dial, send, window))
            && (a.Closed? <==> Obeys(s, f, dial, send, window) && f.kind == RESET)
            && (a.Kept? ==> Takes(s, f, a.s))
  {
    hide StreamOk, AcceptData, AcceptFin, AcceptCredit, FromBE32, Delivered;
    BudgetLeft(s, id, window);
    if f.kind == DATA {
      DataExactly(s.rx, f, window);
    } else if f.kind == FIN {
      FinExactly(s.rx, f);
    } else if f.kind == CREDIT {
      CreditExactly(s.tx, s.rx, f, send);
    }
  }

  /** What an accepted frame does to the peer: its stream's part, and nothing else. */
  ghost predicate TakesOne(p: Peer, f: Frame, q: Peer) {
    && SameElse(p, q, f.stream) && q.closed == p.closed
    && q.highest == (if f.kind == OPEN then f.stream else p.highest)
    && if f.kind == OPEN then
         q.order == p.order + [f.stream] && f.stream in q.streams && q.streams[f.stream] == Fresh(p.send, p.window)
       else if f.stream !in p.streams then q == p
       else if f.kind == RESET then Left(q, f.stream)
       else
         && f.stream in q.streams && q.order == p.order && q.cursor == p.cursor
         && Takes(p.streams[f.stream], f, q.streams[f.stream])
  }

  lemma OpenTakes(p: Peer, f: Frame)
    requires f.kind == OPEN
    ensures TakesOne(p, f, NewStream(p.(highest := f.stream), f.stream))
  {
    hide Fresh, Takes, ScanOne;
  }

  lemma KeptTakes(p: Peer, f: Frame, s: Stream)
    requires f.stream in p.streams && f.kind != OPEN && f.kind != RESET
    requires Takes(p.streams[f.stream], f, s)
    ensures TakesOne(p, f, Update(p, f.stream, s))
  {
    hide Takes, ScanOne;
  }

  lemma ClosedTakes(p: Peer, f: Frame)
    requires Listed(p) && f.stream in p.streams && f.kind == RESET
    ensures TakesOne(p, f, Remove(p, f.stream))
  {
    RemoveElse(p, f.stream);
    RemoveShrinks(p, f.stream);
    hide Listed, SameElse, Takes, ScanOne, IndexOf;
  }

  lemma NothingTaken(p: Peer, f: Frame)
    requires f.stream !in p.streams && f.kind != OPEN
    ensures TakesOne(p, f, p)
  {
    hide Takes, ScanOne;
  }

  /** One frame is accepted exactly when it opens a new stream where one may be opened, is left over from a stream that
      is gone, or follows the protocol of its stream; it changes that stream and no other. */
  lemma ReceiveOneExactly(p: Peer, f: Frame, valid: seq<byte> -> bool)
    requires PeerOk(p) && p.cursor <= |p.order|
    ensures ReceiveOne(p, f, valid).Some? <==>
              && f.stream != 0 && f.kind != ACK
              && if f.kind == OPEN then
                   && p.dial && f.stream > p.highest && |p.streams| < MAX_STREAMS
                   && f.sequence == 0 && 0 < |f.body| <= MAX_AUTHORITY && valid(f.body)
                 else if f.stream in p.streams then Obeys(p.streams[f.stream], f, p.dial, p.send, p.window)
                 else f.stream <= p.highest && f.kind != AUTH
    ensures ReceiveOne(p, f, valid).Some? ==> TakesOne(p, f, ReceiveOne(p, f, valid).value)
  {
    hide PeerOk, Listed, StreamOk, Accept, Obeys, Takes, ScanOne, TakesOne, Remove, NewStream, Update;
    if f.kind == OPEN {
      OpenTakes(p, f);
    } else if f.stream !in p.streams {
      NothingTaken(p, f);
    } else {
      var s := p.streams[f.stream];
      PeerStream(p, f.stream);
      AcceptExactly(s, f, f.stream, p.window, p.dial, p.send);
      AcceptCloses(s, f, p.dial, p.send);
      var a := Accept(s, f, p.dial, p.send);
      if a.Kept? {
        KeptTakes(p, f, a.s);
      } else if a.Closed? {
        ClosedTakes(p, f);
      }
    }
  }
}
