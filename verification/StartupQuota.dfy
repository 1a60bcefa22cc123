/** The process-wide quota of the startup journals (startup.go): results with reference counts, a byte counter shared by
    all sessions, and the handler that commits, replays and releases. A result is known by the order in which results
    were made. A request is one step while it holds its session's lock, except that a download reserves its bytes in one
    step and commits or gives them back in another: requests of other sessions may come in between. */
module StartupQuota {
  import opened Bytes
  import opened Cell
  import opened MuxPeer
  import opened MuxScheduler
  import opened CellWriter
  import opened Startup

  /** Who keeps a result in a journal: the session and the step. */
  datatype Place = Place(session: nat, step: nat)

  /** Bytes of the first n results that somebody still refers to. */
  function HeldTotal(refs: seq<nat>, sizes: seq<nat>, n: nat): nat
    requires n <= |refs| == |sizes|
  {
    if n == 0 then 0 else HeldTotal(refs, sizes, n - 1) + if refs[n - 1] > 0 then sizes[n - 1] else 0
  }

  /** The books: every reference is accounted for by one journal place or by a writer in flight, and the counter is the
      total size of the results that are referred to. */
  ghost predicate Balanced(refs: seq<nat>, sizes: seq<nat>, owner: seq<Option<Place>>, writers: multiset<nat>,
                           counter: int) {
    && |refs| == |sizes| == |owner|
    && counter == HeldTotal(refs, sizes, |refs|) <= JOURNAL_LIMIT
    && (forall i :: 0 <= i < |refs| ==> refs[i] == (if owner[i].Some? then 1 else 0) + writers[i])
    && (forall i :: i in writers ==> i < |refs|)
  }

  /** The journals: each entry is the one that its place owns. */
  ghost predicate Filed(sessions: map<nat, Session>, sizes: seq<nat>, owner: seq<Option<Place>>) {
    && |sizes| == |owner|
    && (forall i :: 0 <= i < |owner| && owner[i].Some? ==> OwnedBy(sessions, i, owner[i].value))
    && (forall s, k :: s in sessions && k in sessions[s].journal ==>
          var e := sessions[s].journal[k];
          e.id < |owner| && owner[e.id] == Some(Place(s, k)) && sizes[e.id] == |e.body|)
  }

  ghost predicate OwnedBy(sessions: map<nat, Session>, i: nat, at: Place) {
    at.session in sessions && at.step in sessions[at.session].journal
    && sessions[at.session].journal[at.step].id == i
  }

  lemma {:induction false} HeldUpdate(refs: seq<nat>, sizes: seq<nat>, n: nat, i: nat, v: nat)
    requires n <= |refs| == |sizes| && i < |refs|
    ensures HeldTotal(refs[i := v], sizes, n) + (if i < n && refs[i] > 0 then sizes[i] else 0)
            == HeldTotal(refs, sizes, n) + (if i < n && v > 0 then sizes[i] else 0)
  {
    if n > 0 {
      HeldUpdate(refs, sizes, n - 1, i, v);
    }
  }

  lemma {:induction false} HeldPrefix(refs: seq<nat>, sizes: seq<nat>, more: seq<nat>, wider: seq<nat>, n: nat)
    requires n <= |refs| == |sizes| && |more| == |wider|
    ensures HeldTotal(refs + more, sizes + wider, n) == HeldTotal(refs, sizes, n)
  {
    if n > 0 {
      HeldPrefix(refs, sizes, more, wider, n - 1);
    }
  }

  lemma {:induction false} NothingHeld(refs: seq<nat>, sizes: seq<nat>, n: nat)
    requires n <= |refs| == |sizes| && forall i :: 0 <= i < n ==> refs[i] == 0
    ensures HeldTotal(refs, sizes, n) == 0
  {
    if n > 0 {
      NothingHeld(refs, sizes, n - 1);
    }
  }

  /** The counter after a reference is dropped. */
  function Less(refs: seq<nat>, sizes: seq<nat>, counter: int, i: nat): int
    requires i < |refs| == |sizes|
  {
    if refs[i] == 1 then counter - sizes[i] else counter
  }

  lemma JournalLetsGo(refs: seq<nat>, sizes: seq<nat>, owner: seq<Option<Place>>, writers: multiset<nat>,
                      counter: int, i: nat)
    requires Balanced(refs, sizes, owner, writers, counter) && i < |refs| && owner[i].Some?
    ensures refs[i] > 0
    ensures Balanced(refs[i := refs[i] - 1], sizes, owner[i := None], writers, Less(refs, sizes, counter, i))
  {
    HeldUpdate(refs, sizes, |refs|, i, refs[i] - 1);
  }

  lemma WriterLetsGo(refs: seq<nat>, sizes: seq<nat>, owner: seq<Option<Place>>, writers: multiset<nat>,
                     counter: int, i: nat)
    requires Balanced(refs, sizes, owner, writers, counter) && i in writers
    ensures i < |refs| && refs[i] > 0
    ensures Balanced(refs[i := refs[i] - 1], sizes, owner, writers - multiset{i}, Less(refs, sizes, counter, i))
  {
    HeldUpdate(refs, sizes, |refs|, i, refs[i] - 1);
  }

  lemma WriterTakes(refs: seq<nat>, sizes: seq<nat>, owner: seq<Option<Place>>, writers: multiset<nat>, counter: int,
                    i: nat)
    requires Balanced(refs, sizes, owner, writers, counter) && i < |refs| && refs[i] > 0
    ensures Balanced(refs[i := refs[i] + 1], sizes, owner, writers + multiset{i}, counter)
  {
    HeldUpdate(refs, sizes, |refs|, i, refs[i] + 1);
  }

  /** A new result starts with two references: its journal's and its writer's. */
  lemma ResultComes(refs: seq<nat>, sizes: seq<nat>, owner: seq<Option<Place>>, writers: multiset<nat>, counter: int,
                    size: nat, at: Place)
    requires Balanced(refs, sizes, owner, writers, counter) && size <= JOURNAL_LIMIT - counter
    ensures Balanced(refs + [2], sizes + [size], owner + [Some(at)], writers + multiset{|refs|}, counter + size)
  {
    HeldPrefix(refs, sizes, [2], [size], |refs|);
    assert |refs| !in writers;
  }

  /** The session keeps its journal. */
  lemma SameJournal(sessions: map<nat, Session>, sizes: seq<nat>, owner: seq<Option<Place>>, sid: nat, s: Session)
    requires Filed(sessions, sizes, owner) && sid in sessions && s.journal == sessions[sid].journal
    ensures Filed(sessions[sid := s], sizes, owner)
  {
    forall i | 0 <= i < |owner| && owner[i].Some? ensures OwnedBy(sessions[sid := s], i, owner[i].value) {
      assert OwnedBy(sessions, i, owner[i].value);
    }
  }

  lemma PlaceTaken(sessions: map<nat, Session>, sizes: seq<nat>, owner: seq<Option<Place>>, sid: nat, s: Session,
                   step: nat,
                   e: Entry)
    requires Filed(sessions, sizes, owner) && sid in sessions && step !in sessions[sid].journal
    requires s.journal == sessions[sid].journal[step := e] && e.id == |owner|
    ensures Filed(sessions[sid := s], sizes + [|e.body|], owner + [Some(Place(sid, step))])
  {
    var owner' := owner + [Some(Place(sid, step))];
    forall i | 0 <= i < |owner'| && owner'[i].Some? ensures OwnedBy(sessions[sid := s], i, owner'[i].value) {
      if i < |owner| {
        assert OwnedBy(sessions, i, owner[i].value);
      }
    }
  }

  /** The bytes that are reserved and not yet committed, by session. */
  ghost function Promised(promised: map<nat, nat>): nat
    decreases |promised|
  {
    if promised == map[] then 0
    else
      var k :| k in promised;
      LessPromised(promised, k);
      promised[k] + Promised(promised - {k})
  }

  lemma LessPromised(promised: map<nat, nat>, k: nat)
    requires k in promised
    ensures |promised - {k}| < |promised|
  {
    assert (promised - {k}).Keys == promised.Keys - {k};
  }

  /** Any session's part may be taken out of the sum. */
  lemma {:induction false} PromisedPart(promised: map<nat, nat>, k: nat)
    requires k in promised
    ensures Promised(promised) == promised[k] + Promised(promised - {k})
    decreases |promised|
  {
    var j :| j in promised && Promised(promised) == promised[j] + Promised(promised - {j});
    if j != k {
      LessPromised(promised, j);
      LessPromised(promised, k);
      PromisedPart(promised - {j}, k);
      PromisedPart(promised - {k}, j);
      assert promised - {j} - {k} == promised - {k} - {j};
    }
  }

  lemma PromisedMore(promised: map<nat, nat>, k: nat, size: nat)
    requires k !in promised
    ensures Promised(promised[k := size]) == Promised(promised) + size
  {
    PromisedPart(promised[k := size], k);
    assert promised[k := size] - {k} == promised;
  }

  /** The session waits for just this download. */
  predicate Due(s: Session, q: Request) {
    && q.Download? && q.round < ROUNDS && !s.realtime && !s.invalid
    && q.round == s.down && Index(q) == s.steps
  }

  /** The handler gets as far as the reservation. */
  predicate Passes(s: Session, q: Request, now: int, cancelled: bool) {
    Due(s, q) && !cancelled && !s.peer.closed && !Expired(s, now) && Index(q) !in s.journal
  }

  lemma PassesAnswer(s: Session, q: Request, c: Setup, w: Outside)
    requires Listed(s.peer) && Passes(s, q, w.now, w.cancelled)
    ensures Answer(s, q, c, w) == Startup.CommitDownload(s, q, c, w)
  {
    hide Listed, Startup.CommitDownload, Startup.CommitUpload, Kill;
  }

  lemma DueKeeps(s: Session, q: Request, c: Setup, w: Outside)
    requires SessionOk(s) && Due(s, q) && Listed(s.peer) && Encoded(s, q, c, w)
    ensures Index(q) !in s.journal && s.down < ROUNDS && SessionOk(Startup.CommitDownload(s, q, c, w).0)
  {
    DownloadKeeps(s, q, c, w);
    hide PeerOk, KeptBytes, EntryOk;
  }

  lemma DueIsNew(s: Session, q: Request)
    requires SessionOk(s) && Due(s, q)
    ensures Index(q) !in s.journal && s.down < ROUNDS
  {
    hide PeerOk, KeptBytes, EntryOk;
  }

  /** The frames of the next response and their cell. */
  method BuildResponse(s: Session, capacity: nat, c: Setup, entropy: bool)
    returns (t: Session, encoded: Option<seq<byte>>)
    requires Listed(s.peer)
    ensures t == s.(peer := Harvest(s, capacity, c).0)
    ensures Harvest(s, capacity, c) ==
              if s.down == 0 then (s.peer, [Frame(HELLO, 0, 0, c.hello)]) else Take(s.peer, capacity - HEADER, false)
    ensures encoded.Some? ==>
              |encoded.value| == capacity && Carries(encoded.value, s.down, None, Harvest(s, capacity, c).1)
    ensures encoded.None? ==> !entropy || !Encodable(capacity, Harvest(s, capacity, c).1)
  {
    hide Listed, Take, IsCell, Payload, Encodable;
    var frames: seq<Frame>, peer := [Frame(HELLO, 0, 0, c.hello)], s.peer;
    if s.down != 0 {
      var taken := Take(s.peer, capacity - HEADER, false);
      peer, frames := taken.0, taken.1;
    }
    t := s.(peer := peer);
    var r := Encode(s.down, capacity, frames, entropy);
    if r.Bad? {
      return t, None;
    }
    assert frames == WithAck(None, frames);
    EncodedFits(capacity, frames);
    return t, Some(r.value[..]);
  }

  class StartupServer {
    const setup: Setup
    var counter: int
    var refs: seq<nat>
    var sizes: seq<nat>
    var sessions: map<nat, Session>
    ghost var owner: seq<Option<Place>>
    ghost var writers: multiset<nat>
    ghost var promised: map<nat, nat>   // what the handlers of these sessions have reserved

    /** The counter without the reservations in flight. */
    ghost function Booked(): int
      reads this
    {
      counter - Promised(promised)
    }

    ghost predicate Accounted()
      reads this
    {
      Balanced(refs, sizes, owner, writers, Booked()) && counter <= JOURNAL_LIMIT
    }

    ghost predicate Valid()
      reads this
    {
      && Accounted() && Filed(sessions, sizes, owner)
      && forall s :: s in sessions ==> SessionOk(sessions[s])
    }

    constructor (setup: Setup)
      ensures Valid() && counter == 0 && sessions == map[] && promised == map[] && this.setup == setup
    {
      this.setup := setup;
      counter, refs, sizes, sessions, owner, writers, promised := 0, [], [], map[], [], multiset{}, map[];
    }

    /** A session with a name of its own. */
    method NewSession(sid: nat, window: u32, send: u32)
      requires Valid() && sid !in sessions
      modifies `sessions
      ensures Valid() && sessions == old(sessions)[sid := Startup.NewSession(window, send)]
    {
      NewSessionOk(window, send);
      ghost var s := Startup.NewSession(window, send);
      assert s.journal == map[];
      hide SessionOk, Startup.NewSession, Balanced, Promised;
      sessions := sessions[sid := Startup.NewSession(window, send)];
      forall i | 0 <= i < |owner| && owner[i].Some? ensures OwnedBy(sessions, i, owner[i].value) {
        assert OwnedBy(old(sessions), i, owner[i].value);
      }
    }

    // -------------------------------------------------------------- reservations and references

    /** A session's handler asks for room. */
    method Reserve(sid: nat, size: nat) returns (ok: bool)
      requires sid !in promised
      modifies `counter, `promised
      ensures ok <==> old(counter) + size <= JOURNAL_LIMIT
      ensures counter == old(counter) + if ok then size else 0
      ensures promised == if ok then old(promised)[sid := size] else old(promised)
      ensures Booked() == old(Booked())
    {
      hide Promised;
      if size > JOURNAL_LIMIT - counter {
        return false;
      }
      PromisedMore(promised, sid, size);
      counter, promised := counter + size, promised[sid := size];
      return true;
    }

    /** It gives the room back. */
    method GiveBack(sid: nat, size: nat)
      requires sid in promised && promised[sid] == size
      modifies `counter, `promised
      ensures counter == old(counter) - size && promised == old(promised) - {sid}
      ensures Booked() == old(Booked())
    {
      hide Promised;
      PromisedPart(promised, sid);
      counter, promised := counter - size, promised - {sid};
    }

    /** It keeps what it reserved for a result that is about to be made. */
    ghost method Use(sid: nat)
      requires sid in promised
      modifies `promised
      ensures promised == old(promised) - {sid} && Booked() == old(Booked()) + old(promised)[sid]
    {
      hide Promised;
      PromisedPart(promised, sid);
      promised := promised - {sid};
    }

    method Release(id: nat)
      requires id < |refs| == |sizes| && refs[id] > 0
      modifies `refs, `counter
      ensures refs == old(refs)[id := old(refs)[id] - 1]
      ensures counter == Less(old(refs), sizes, old(counter), id)
    {
      refs := refs[id := refs[id] - 1];
      if refs[id] == 0 {
        counter := counter - sizes[id];
      }
    }

    /** clearStartupLocked: the journal lets go of its results. */
    method ClearJournal(sid: nat)
      requires Accounted() && Filed(sessions, sizes, owner) && sid in sessions
      requires forall k :: k in sessions[sid].journal ==> k < STEPS
      modifies `refs, `counter, `owner, `sessions
      ensures Accounted() && Filed(sessions, sizes, owner)
      ensures sessions == old(sessions)[sid := Clear(old(sessions)[sid])]
    {
      hide Balanced, Promised;
      var s := sessions[sid];
      ghost var before := owner;
      assert |refs| == |sizes| == |owner| by { BooksMatch(refs, sizes, owner, writers, Booked()); }
      var k := 0;
      while k < STEPS
        invariant k <= STEPS && sessions == old(sessions)
        invariant |refs| == |sizes| == |owner| == |before| && Accounted()
        invariant forall i :: 0 <= i < |owner| ==>
                    owner[i] == if before[i].Some? && before[i].value.session == sid && before[i].value.step < k
                                then None else before[i]
      {
        if k in s.journal {
          var id := s.journal[k].id;
          assert before[id] == Some(Place(sid, k));
          JournalLetsGo(refs, sizes, owner, writers, Booked(), id);
          Release(id);
          owner := owner[id := None];
        }
        OnlyOne(sessions, sizes, before, sid, k);
        k := k + 1;
      }
      forall i | 0 <= i < |owner| && before[i].Some? && before[i].value.session == sid ensures before[i].value.step < STEPS {
        assert OwnedBy(sessions, i, before[i].value);
      }
      sessions := sessions[sid := Clear(s)];
      ClearedFile(old(sessions), sizes, before, owner, sid);
    }

    /** The session is spoilt: its journal goes and its multiplexer is closed. */
    method Spoil(sid: nat)
      requires Accounted() && Filed(sessions, sizes, owner) && sid in sessions
      requires forall k :: k in sessions[sid].journal ==> k < STEPS
      modifies `refs, `counter, `owner, `sessions
      ensures Accounted() && Filed(sessions, sizes, owner)
      ensures sessions == old(sessions)[sid := Kill(old(sessions)[sid])]
    {
      hide Balanced, Filed, Promised;
      ClearJournal(sid);
      var s := sessions[sid];
      var spoilt := s.(invalid := true, peer := s.peer.(closed := true));
      SameJournal(sessions, sizes, owner, sid, spoilt);
      sessions := sessions[sid := spoilt];
    }

    /** The session has come to be t, with the same journal, and is spoilt. */
    method SpoilAs(sid: nat, t: Session)
      requires Accounted() && Filed(sessions, sizes, owner) && sid in sessions && t.journal == sessions[sid].journal
      requires forall k :: k in t.journal ==> k < STEPS
      modifies `refs, `counter, `owner, `sessions
      ensures Accounted() && Filed(sessions, sizes, owner)
      ensures sessions == old(sessions)[sid := Kill(t)]
    {
      hide Balanced, Filed, Kill, Promised;
      SameJournal(sessions, sizes, owner, sid, t);
      sessions := sessions[sid := t];
      Spoil(sid);
    }

    // -------------------------------------------------------------- the handler

    /** A reply from the journal gets a reference of its own. */
    method Replay(sid: nat, index: nat) returns (entry: Entry)
      requires Accounted() && Filed(sessions, sizes, owner) && sid in sessions && index in sessions[sid].journal
      modifies `refs, `writers
      ensures Accounted() && entry == sessions[sid].journal[index] && writers == old(writers) + multiset{entry.id}
    {
      entry := sessions[sid].journal[index];
      assert owner[entry.id].Some?;
      WriterTakes(refs, sizes, owner, writers, Booked(), entry.id);
      refs := refs[entry.id := refs[entry.id] + 1];
      writers := writers + multiset{entry.id};
    }

    /** The end of a commit: the new result, whose bytes have been reserved, is kept in the journal and written out. */
    method Commit(sid: nat, t: Session, index: nat, entry: Entry, now: int)
      requires Balanced(refs, sizes, owner, writers, Booked() - |entry.body|) && counter <= JOURNAL_LIMIT
      requires Filed(sessions, sizes, owner) && sid in sessions && index !in sessions[sid].journal
      requires t.journal == sessions[sid].journal && entry.id == |refs|
      modifies `refs, `sizes, `owner, `sessions, `writers
      ensures Accounted() && Filed(sessions, sizes, owner)
      ensures sessions == old(sessions)[sid := Keep(t, index, entry, now)]
      ensures writers == old(writers) + multiset{entry.id}
    {
      hide Balanced, Filed, Promised;
      BooksMatch(refs, sizes, owner, writers, Booked() - |entry.body|);
      ResultComes(refs, sizes, owner, writers, Booked() - |entry.body|, |entry.body|, Place(sid, index));
      var kept := Keep(t, index, entry, now);
      PlaceTaken(sessions, sizes, owner, sid, kept, index, entry);
      refs, sizes, owner := refs + [2], sizes + [|entry.body|], owner + [Some(Place(sid, index))];
      sessions, writers := sessions[sid := kept], writers + multiset{entry.id};
    }

    /** The upload branch. */
    method CommitUpload(sid: nat, q: Request, w: Outside) returns (reply: Reply)
      requires Accounted() && Filed(sessions, sizes, owner) && sid in sessions && Listed(sessions[sid].peer)
      requires forall k :: k in sessions[sid].journal ==> k < STEPS
      requires q.Upload? && sessions[sid].up < ROUNDS && Index(q) !in sessions[sid].journal && w.id == |refs|
      modifies this
      ensures Accounted() && Filed(sessions, sizes, owner)
      ensures old(sessions[sid].peer.cursor) <= |old(sessions[sid].peer.order)|
      ensures reply == Startup.CommitUpload(old(sessions)[sid], q, setup, w).1 && !reply.Busy?
      ensures sessions == old(sessions)[sid := Startup.CommitUpload(old(sessions)[sid], q, setup, w).0]
      ensures writers == old(writers) + if reply.Sent? then multiset{reply.entry.id} else multiset{}
      ensures promised == old(promised)
    {
      hide Balanced, Filed, ReceiveAll, Listed, Kill, Keep, Promised;
      CursorInside(sessions[sid].peer);
      var s, frames := sessions[sid], q.frames;
      if |frames| > 0 && frames[0].kind == AUTH {
        var f := frames[0];
        if s.authed || |frames| != 1 || f.stream != 0 || f.sequence != 0 || !setup.auth(f.body) {
          assert sessions == sessions[sid := s];
          return Rejected;
        }
        s := s.(authed := true);
        frames := [];
      }
      if !s.authed || (|frames| > 0 && s.steps < 2) {
        assert sessions == sessions[sid := sessions[sid]];
        return Rejected;
      }
      var (peer, ok) := ReceiveAll(s.peer, frames, setup.valid);
      s := s.(authed := true, peer := peer);
      if !ok {
        SpoilAs(sid, s);
        return Rejected;
      }
      s := s.(up := s.up + 1);
      var entry := Entry(|refs|, DigestOf(q, setup), 204, []);
      Commit(sid, s, Index(q), entry, w.now);
      return Sent(entry);
    }

    /** The download branch behind the reservation. */
    method CommitDownload(sid: nat, q: Request, now: int, entropy: bool) returns (reply: Reply, ghost w: Outside)
      requires Accounted() && Filed(sessions, sizes, owner) && sid in sessions && Listed(sessions[sid].peer)
      requires forall k :: k in sessions[sid].journal ==> k < STEPS
      requires q.Download? && q.round < ROUNDS && sessions[sid].down < ROUNDS && Index(q) !in sessions[sid].journal
      requires sid in promised && promised[sid] == SlotSize(q.round)
      modifies this
      ensures Accounted() && Filed(sessions, sizes, owner)
      ensures promised == old(promised) - {sid}
      ensures w.now == now && !w.cancelled && w.granted && w.id == |old(refs)|
      ensures Encoded(old(sessions)[sid], q, setup, w)
      ensures w.encoded.None? ==>
                !entropy || !Encodable(SlotSize(q.round), Harvest(old(sessions)[sid], SlotSize(q.round), setup).1)
      ensures reply == Startup.CommitDownload(old(sessions)[sid], q, setup, w).1
      ensures sessions == old(sessions)[sid := Startup.CommitDownload(old(sessions)[sid], q, setup, w).0]
      ensures writers == old(writers) + if reply.Sent? then multiset{reply.entry.id} else multiset{}
    {
      hide Balanced, Filed, Listed, Harvest, Carries, Encodable, Kill, Keep, SlotSize, Promised;
      SlotRange(q.round);
      var s := sessions[sid];
      var capacity := SlotSize(q.round);
      var t, encoded := BuildResponse(s, capacity, setup, entropy);
      w := Outside(now, false, true, encoded, |refs|);
      if encoded.None? {
        CounterFits(refs, sizes, owner, writers, Booked());
        GiveBack(sid, capacity);
        SpoilAs(sid, t);
        return Broken, w;
      }
      t := t.(bytes := s.bytes + capacity, down := s.down + 1);
      var entry := Entry(|refs|, DigestOf(q, setup), 200, encoded.value);
      Use(sid);
      Commit(sid, t, Index(q), entry, now);
      return Sent(entry), w;
    }

    /** The handler's decisions, in their order, up to the reservation of a download. */
    method Decide(sid: nat, q: Request, now: int, cancelled: bool) returns (early: Option<Reply>, ghost w: Outside)
      requires Accounted() && Filed(sessions, sizes, owner) && sid in sessions && Listed(sessions[sid].peer)
      requires forall k :: k in sessions[sid].journal ==> k < STEPS
      requires sessions[sid].steps <= STEPS && sid !in promised
      requires !sessions[sid].realtime ==>
                 sessions[sid].up == (sessions[sid].steps + 1) / 2 && sessions[sid].down == sessions[sid].steps / 2
      modifies this
      ensures Accounted() && Filed(sessions, sizes, owner)
      ensures w.now == now && w.cancelled == cancelled && w.id == |old(refs)| && w.encoded.None?
      ensures q.Download? && q.round < ROUNDS ==> (w.granted <==> old(counter) + SlotSize(q.round) <= JOURNAL_LIMIT)
      ensures early.Some? ==> Settled(old(sessions), old(writers), sid, q, w, early.value) && promised == old(promised)
      ensures early == Some(Busy) ==> counter == old(counter) && refs == old(refs)
      ensures early.None? ==>
                && Passes(old(sessions)[sid], q, now, cancelled) && w.granted
                && promised == old(promised)[sid := SlotSize(q.round)]
                && sessions == old(sessions) && writers == old(writers) && refs == old(refs)
    {
      hide Balanced, Filed, Listed, Startup.CommitUpload, Kill, Promised, SlotSize;
      var s := sessions[sid];
      var room := Startup.Round(q) < ROUNDS && counter + SlotSize(Startup.Round(q)) <= JOURNAL_LIMIT;
      w := Outside(now, cancelled, room, None, |refs|);
      assert sessions == sessions[sid := s];
      if Startup.Round(q) >= ROUNDS {
        return Some(Rejected), w;
      }
      if s.realtime || s.invalid || cancelled || s.peer.closed {
        return Some(Rejected), w;
      }
      if s.deadline.Some? && now >= s.deadline.value {
        Spoil(sid);
        return Some(Rejected), w;
      }
      if Index(q) in s.journal {
        if q.Upload? && s.journal[Index(q)].digest != DigestOf(q, setup) {
          return Some(Rejected), w;
        }
        var entry := Replay(sid, Index(q));
        return Some(Sent(entry)), w;
      }
      if Index(q) != s.steps || (q.Upload? && q.sequence != s.up) || (q.Download? && q.round != s.down) {
        return Some(Rejected), w;
      }
      if q.Upload? {
        var reply := CommitUpload(sid, q, Outside(now, cancelled, room, None, |refs|));
        return Some(reply), w;
      }
      var granted := Reserve(sid, SlotSize(q.round));
      return if granted then None else Some(Busy), w;
    }

    /** The request has been answered as specified and its writer, if any, holds its result. */
    ghost predicate Settled(before: map<nat, Session>, writing: multiset<nat>, sid: nat, q: Request, w: Outside,
                            reply: Reply)
      requires sid in before && Listed(before[sid].peer)
      reads this
    {
      && reply == Answer(before[sid], q, setup, w).1
      && sessions == before[sid := Answer(before[sid], q, setup, w).0]
      && writers == writing + if reply.Sent? then multiset{reply.entry.id} else multiset{}
    }

    /** The startup handler of transport.go and startup.go, after the cell of an upload has been decoded: either it ends
        here, or it has reserved the bytes of the download that is due. */
    method Begin(sid: nat, q: Request, now: int, cancelled: bool) returns (early: Option<Reply>, ghost w: Outside)
      requires Valid() && sid in sessions && sid !in promised
      modifies this
      ensures Valid() && Listed(old(sessions)[sid].peer)
      ensures w.now == now && w.cancelled == cancelled && w.id == |old(refs)| && w.encoded.None?
      ensures q.Download? && q.round < ROUNDS ==> (w.granted <==> old(counter) + SlotSize(q.round) <= JOURNAL_LIMIT)
      ensures early.Some? ==> Settled(old(sessions), old(writers), sid, q, w, early.value) && promised == old(promised)
      ensures early == Some(Busy) ==> counter == old(counter) && refs == old(refs)
      ensures early.None? ==>
                && Passes(old(sessions)[sid], q, now, cancelled) && w.granted
                && promised == old(promised)[sid := SlotSize(q.round)]
                && sessions == old(sessions) && writers == old(writers) && refs == old(refs)
    {
      hide Balanced, Filed, Listed, SessionOk, Encoded, Answer, Promised, SlotSize, Passes;
      ghost var s := sessions[sid];
      Usable(s);
      early, w := Decide(sid, q, now, cancelled);
      NotEncoded(s, q, setup, w);
      AnswerKeeps(s, q, setup, w);
    }

    /** The rest of a download, whatever other sessions have done since. */
    method Finish(sid: nat, q: Request, now: int, entropy: bool) returns (reply: Reply, ghost w: Outside)
      requires Valid() && sid in sessions && Due(sessions[sid], q)
      requires sid in promised && promised[sid] == SlotSize(q.round)
      modifies this
      ensures Valid() && Listed(old(sessions)[sid].peer) && old(sessions)[sid].down < ROUNDS
      ensures promised == old(promised) - {sid}
      ensures w.now == now && !w.cancelled && w.granted && w.id == |old(refs)|
      ensures Encoded(old(sessions)[sid], q, setup, w)
      ensures w.encoded.None? ==>
                !entropy || !Encodable(SlotSize(q.round), Harvest(old(sessions)[sid], SlotSize(q.round), setup).1)
      ensures reply == Startup.CommitDownload(old(sessions)[sid], q, setup, w).1 && !reply.Busy?
      ensures sessions == old(sessions)[sid := Startup.CommitDownload(old(sessions)[sid], q, setup, w).0]
      ensures writers == old(writers) + if reply.Sent? then multiset{reply.entry.id} else multiset{}
    {
      hide Balanced, Filed, Listed, SessionOk, Encoded, Promised, SlotSize, Harvest, Encodable, Kill, Keep;
      ghost var s := sessions[sid];
      Usable(s);
      DueIsNew(s, q);
      reply, w := CommitDownload(sid, q, now, entropy);
      DueKeeps(s, q, setup, w);
    }

    /** A request that nobody interrupts. */
    method Handle(sid: nat, q: Request, now: int, cancelled: bool, entropy: bool)
      returns (reply: Reply, ghost w: Outside)
      requires Valid() && sid in sessions && sid !in promised
      modifies this
      ensures Valid() && Listed(old(sessions)[sid].peer) && promised == old(promised)
      ensures w.now == now && w.cancelled == cancelled && w.id == |old(refs)|
      ensures q.Download? && q.round < ROUNDS ==> (w.granted <==> old(counter) + SlotSize(q.round) <= JOURNAL_LIMIT)
      ensures Encoded(old(sessions)[sid], q, setup, w)
      ensures Settled(old(sessions), old(writers), sid, q, w, reply)
      ensures reply.Busy? ==> counter == old(counter) && refs == old(refs)
    {
      hide Balanced, Filed, Listed, SessionOk, Encoded, Promised, SlotSize, Harvest, Encodable, Answer, Passes,
           Startup.CommitDownload;
      ghost var s := sessions[sid];
      var early;
      early, w := Begin(sid, q, now, cancelled);
      if early.Some? {
        NotEncoded(s, q, setup, w);
        return early.value, w;
      }
      PassesDue(s, q, now, cancelled);
      reply, w := Finish(sid, q, now, entropy);
      PassesAnswer(s, q, setup, w);
      assert old(promised)[sid := SlotSize(q.round)] - {sid} == old(promised);
    }

    /** writeStartup has finished with its result. */
    method FinishWrite(id: nat)
      requires Valid() && id in writers
      modifies `refs, `counter, `writers
      ensures Valid() && writers == old(writers) - multiset{id}
    {
      hide Balanced, Filed, SessionOk, Promised;
      BooksMatch(refs, sizes, owner, writers, Booked());
      WriterLetsGo(refs, sizes, owner, writers, Booked(), id);
      Release(id);
      writers := writers - multiset{id};
    }

    /** Expiry, eviction or shutdown of a session; the record of it stays, spoilt. */
    method Close(sid: nat)
      requires Valid() && sid in sessions && sid !in promised
      modifies `refs, `counter, `owner, `sessions
      ensures Valid() && sessions == old(sessions)[sid := Kill(old(sessions)[sid])]
    {
      hide Balanced, Filed, Listed, SessionOk, Kill, Promised;
      ghost var s := sessions[sid];
      Usable(s);
      DropOk(s);
      Spoil(sid);
    }

    /** A sustained carrier takes the session over, and its journal is dropped. `suited` tells that method, protocol and
        kind of session are right for the carrier. */
    method Upgrade(sid: nat, now: int, suited: bool) returns (ok: bool)
      requires Valid() && sid in sessions && sid !in promised
      modifies `refs, `counter, `owner, `sessions
      ensures Valid()
      ensures ok <==> suited && CanUpgrade(old(sessions)[sid], now)
      ensures var s := old(sessions)[sid];
              ok <==>
                && suited && !s.realtime && !s.invalid && !s.peer.closed && s.steps == STEPS
                && s.deadline.Some? && now < s.deadline.value
      ensures sessions == if ok then old(sessions)[sid := Clear(old(sessions)[sid]).(realtime := true)] else old(sessions)
    {
      hide Balanced, Filed, Listed, SessionOk, Clear, Promised;
      var s := sessions[sid];
      Usable(s);
      if !suited || s.realtime || s.invalid || s.deadline.None? || now >= s.deadline.value || s.steps != STEPS || s.peer.closed {
        return false;
      }
      UpgradeOk(s, now);
      ClearJournal(sid);
      var upgraded := sessions[sid].(realtime := true);
      SameJournal(sessions, sizes, owner, sid, upgraded);
      sessions := sessions[sid := upgraded];
      return true;
    }

    /** Conservation: when no journal and no writer refers to any result, the counter is what the handlers at work have
        reserved, and without any it is back at zero. */
    lemma AllReturned()
      requires Valid() && writers == multiset{} && forall s :: s in sessions ==> sessions[s].journal == map[]
      ensures counter == Promised(promised) && (promised == map[] ==> counter == 0)
    {
      forall i | 0 <= i < |refs| ensures refs[i] == 0 {
        Unowned(sessions, sizes, owner, i);
      }
      NothingHeld(refs, sizes, |refs|);
    }

    /** The counter covers what the journal of one session keeps, beside what is reserved: no result in a journal has been
        given back. */
    lemma JournalIsCounted(sid: nat, k: nat)
      requires Valid() && sid in sessions && k in sessions[sid].journal
      ensures var e := sessions[sid].journal[k];
              e.id < |refs| && refs[e.id] == 1 + writers[e.id] && sizes[e.id] == |e.body|
              && |e.body| + Promised(promised) <= counter <= JOURNAL_LIMIT
    {
      var e := sessions[sid].journal[k];
      HeldUpdate(refs, sizes, |refs|, e.id, 0);
    }
  }

  lemma PassesDue(s: Session, q: Request, now: int, cancelled: bool)
    requires Passes(s, q, now, cancelled)
    ensures Due(s, q) && !cancelled
  {
  }

  lemma DropOk(s: Session)
    requires SessionOk(s)
    ensures SessionOk(Kill(s))
  {
    hide PeerOk, JournalOk;
    KillOk(s);
  }

  lemma UpgradeOk(s: Session, now: int)
    requires SessionOk(s) && CanUpgrade(s, now)
    ensures SessionOk(Clear(s).(realtime := true))
  {
    hide PeerOk, JournalOk;
  }

  lemma Unowned(sessions: map<nat, Session>, sizes: seq<nat>, owner: seq<Option<Place>>, i: nat)
    requires Filed(sessions, sizes, owner) && i < |owner| && forall s :: s in sessions ==> sessions[s].journal == map[]
    ensures owner[i].None?
  {
  }

  /** Without an encoded cell there is nothing to say about it. */
  lemma NotEncoded(s: Session, q: Request, c: Setup, w: Outside)
    requires Listed(s.peer) && w.encoded.None?
    ensures Encoded(s, q, c, w)
  {
  }

  lemma Usable(s: Session)
    requires SessionOk(s)
    ensures Listed(s.peer) && s.steps <= STEPS && forall k :: k in s.journal ==> k < STEPS
    ensures !s.realtime ==> s.up == (s.steps + 1) / 2 && s.down == s.steps / 2
  {
    OkListed(s.peer);
  }

  lemma CounterFits(refs: seq<nat>, sizes: seq<nat>, owner: seq<Option<Place>>, writers: multiset<nat>, counter: int)
    requires Balanced(refs, sizes, owner, writers, counter)
    ensures 0 <= counter <= JOURNAL_LIMIT
  {
  }

  lemma BooksMatch(refs: seq<nat>, sizes: seq<nat>, owner: seq<Option<Place>>, writers: multiset<nat>, counter: int)
    requires Balanced(refs, sizes, owner, writers, counter)
    ensures |refs| == |sizes| == |owner|
  {
  }

  /** A place owns the result of its journal entry and no other. */
  lemma OnlyOne(sessions: map<nat, Session>, sizes: seq<nat>, owner: seq<Option<Place>>, sid: nat, k: nat)
    requires Filed(sessions, sizes, owner) && sid in sessions
    ensures forall i :: 0 <= i < |owner| && owner[i] == Some(Place(sid, k)) ==>
              k in sessions[sid].journal && sessions[sid].journal[k].id == i
  {
    forall i | 0 <= i < |owner| && owner[i] == Some(Place(sid, k))
      ensures k in sessions[sid].journal && sessions[sid].journal[k].id == i
    {
      assert OwnedBy(sessions, i, owner[i].value);
    }
  }

  lemma ClearedFile(sessions: map<nat, Session>, sizes: seq<nat>, before: seq<Option<Place>>,
                    owner: seq<Option<Place>>, sid: nat)
    requires Filed(sessions, sizes, before) && sid in sessions && |owner| == |before|
    requires forall i :: 0 <= i < |owner| ==>
               owner[i] == if before[i].Some? && before[i].value.session == sid then None else before[i]
    ensures Filed(sessions[sid := Clear(sessions[sid])], sizes, owner)
  {
    forall i | 0 <= i < |owner| && owner[i].Some?
      ensures OwnedBy(sessions[sid := Clear(sessions[sid])], i, owner[i].value)
    {
      assert OwnedBy(sessions, i, before[i].value);
    }
  }
}
