/** One session's startup (startup.go): forty alternating requests, POST 0, GET 0, POST 1, GET 1, ..., each committed
    once and kept in a journal, so that a repeated request is answered from there. */
module Startup {
  import opened Bytes
  import opened Cell
  import opened MuxPeer
  import opened MuxScheduler
  import opened MuxRun
  import opened Multiplexers
  import opened CellWriter

  const ROUNDS := 20
  const STEPS := 40
  const JOURNAL_LIMIT := 64 * 1024 * 1024
  const SESSION_LIMIT := 880 * 1024
  const STARTUP_TIME := 120

  const STARTUP_SLOTS: seq<nat> := [
    8192, 8192, 8192, 8192, 32768, 32768,
    65536, 65536, 65536, 65536, 65536, 65536,
    65536, 65536, 65536, 65536, 65536, 65536,
    8192, 8192]

  /** A startupResult; `id` is its identity as an object. */
  datatype Entry = Entry(id: nat, digest: seq<byte>, status: nat, body: seq<byte>)

  datatype Session = Session(
    authed: bool, realtime: bool, invalid: bool, deadline: Option<int>,
    steps: nat, up: u32, down: u32, bytes: int, journal: map<nat, Entry>, peer: Peer)

  /** A POST /api/sync with the cell it carries, or a GET of one round. */
  datatype Request = Upload(sequence: u32, body: seq<byte>, frames: seq<Frame>) | Download(round: nat)

  /** What the outside decides: the clock, whether the request was cancelled, whether the journal's bytes could be
      reserved, the cell that Encode produced, and the new object's identity. */
  datatype Outside = Outside(now: int, cancelled: bool, granted: bool, encoded: Option<seq<byte>>, id: nat)

  /** SHA-256, the proxy password check, the host:port syntax check and the HELLO text. */
  datatype Setup = Setup(digest: seq<byte> -> seq<byte>, auth: seq<byte> -> bool, valid: seq<byte> -> bool, hello: seq<byte>)

  datatype Reply = Rejected | Busy | Broken | Sent(entry: Entry)

  function NewSession(window: u32, send: u32): Session {
    Session(false, false, false, None, 0, 0, 0, 0, map[], NewPeer(true, window, send))
  }

  /** The journal is dropped. */
  function Clear(s: Session): Session {
    s.(bytes := 0, journal := map[])
  }

  /** The session is beyond use. */
  function Kill(s: Session): Session {
    Clear(s).(invalid := true, peer := s.peer.(closed := true))
  }

  function Round(q: Request): nat {
    match q case Upload(sequence, _, _) => sequence case Download(round) => round
  }

  function Index(q: Request): nat {
    2 * Round(q) + if q.Upload? then 0 else 1
  }

  function DigestOf(q: Request, c: Setup): seq<byte> {
    c.digest(if q.Upload? then q.body else [])
  }

  function SlotSize(round: nat): nat
    requires round < ROUNDS
  {
    STARTUP_SLOTS[round]
  }

  /** A new step is done: the entry is kept under its index. */
  function Keep(s: Session, index: nat, entry: Entry, now: int): Session {
    s.(deadline := if s.deadline.None? then Some(now + STARTUP_TIME) else s.deadline,
       journal := s.journal[index := entry], steps := s.steps + 1)
  }

  predicate LoginFrame(s: Session, frames: seq<Frame>, c: Setup) {
    !s.authed && |frames| == 1 && frames[0].stream == 0 && frames[0].sequence == 0 && c.auth(frames[0].body)
  }

  function CommitUpload(s: Session, q: Request, c: Setup, w: Outside): (Session, Reply)
    requires q.Upload? && s.up < ROUNDS && s.peer.cursor <= |s.peer.order|
  {
    var login := q.frames != [] && q.frames[0].kind == AUTH;
    if login && !LoginFrame(s, q.frames, c) then (s, Rejected)
    else
      var frames := if login then [] else q.frames;
      if !(s.authed || login) || (frames != [] && s.steps < 2) then (s, Rejected)
      else
        var (peer, ok) := ReceiveAll(s.peer, frames, c.valid);
        var t := s.(authed := true, peer := peer);
        if !ok then (Kill(t), Rejected)
        else
          var entry := Entry(w.id, DigestOf(q, c), 204, []);
          (Keep(t.(up := s.up + 1), Index(q), entry, w.now), Sent(entry))
  }

  /** The frames of the next startup response, and the peer after giving them. */
  function Harvest(s: Session, capacity: nat, c: Setup): (Peer, seq<Frame>)
    requires Listed(s.peer)
  {
    if s.down == 0 then (s.peer, [Frame(HELLO, 0, 0, c.hello)]) else Take(s.peer, capacity - HEADER, false)
  }

  function CommitDownload(s: Session, q: Request, c: Setup, w: Outside): (Session, Reply)
    requires q.Download? && q.round < ROUNDS && s.down < ROUNDS && Listed(s.peer)
  {
    var capacity := SlotSize(q.round);
    if !w.granted then (s, Busy)
    else
      var t := s.(peer := Harvest(s, capacity, c).0);
      if w.encoded.None? then (Kill(t), Broken)
      else
        var entry := Entry(w.id, DigestOf(q, c), 200, w.encoded.value);
        (Keep(t.(bytes := s.bytes + capacity, down := s.down + 1), Index(q), entry, w.now), Sent(entry))
  }

  /** The request finds its reply in the journal. */
  predicate Replays(s: Session, q: Request, c: Setup) {
    Index(q) in s.journal && (q.Upload? ==> s.journal[Index(q)].digest == DigestOf(q, c))
  }

  predicate Expired(s: Session, now: int) {
    s.deadline.Some? && now >= s.deadline.value
  }

  /** The startup handler. */
  function Answer(s: Session, q: Request, c: Setup, w: Outside): (Session, Reply)
    requires Listed(s.peer)
  {
    if Round(q) >= ROUNDS || s.realtime || s.invalid || w.cancelled || s.peer.closed then (s, Rejected)
    else if Expired(s, w.now) then (Kill(s), Rejected)
    else if Index(q) in s.journal then (s, if Replays(s, q, c) then Sent(s.journal[Index(q)]) else Rejected)
    else if Index(q) != s.steps || Round(q) != (if q.Upload? then s.up else s.down) then (s, Rejected)
    else if q.Upload? then CommitUpload(s, q, c, w) else CommitDownload(s, q, c, w)
  }

  // ---------------------------------------------------------------- the invariant

  /** Bytes of the responses that are kept once `steps` steps are done. */
  function KeptBytes(steps: nat): nat
    requires steps <= STEPS
  {
    if steps == 0 then 0
    else KeptBytes(steps - 1) + if steps % 2 == 0 then SlotSize(steps / 2 - 1) else 0
  }

  predicate EntryOk(index: nat, e: Entry)
    requires index < STEPS
  {
    if index % 2 == 0 then e.status == 204 && e.body == []
    else e.status == 200 && |e.body| == SlotSize(index / 2)
  }

  /** Where a session stands: the counters follow the steps, the journal holds exactly the steps done, and nothing has
      reached the multiplexer before HELLO is committed as the second step. */
  ghost predicate SessionOk(s: Session) {
    && s.steps <= STEPS && PeerOk(s.peer)
    && (s.steps > 0 ==> s.authed && s.deadline.Some?)
    && (!s.invalid && s.authed ==> s.steps > 0) && (s.invalid ==> s.peer.closed)
    && (!s.realtime ==> s.up == (s.steps + 1) / 2 && s.down == s.steps / 2)
    && (s.realtime || s.invalid ==> s.journal == map[] && s.bytes == 0)
    && (!s.realtime && !s.invalid ==> JournalOk(s))
    && (s.realtime ==> s.steps == STEPS)
    && (s.steps < 2 ==> s.peer.streams == map[] && s.peer.highest == 0 && s.peer.order == [])
  }

  ghost predicate JournalOk(s: Session) {
    && s.steps <= STEPS
    && (forall k: nat :: k in s.journal <==> k < s.steps)
    && (forall k :: k in s.journal && k < STEPS ==> EntryOk(k, s.journal[k]))
    && s.bytes == KeptBytes(s.steps)
  }

  /** The cell is the one that Encode makes of the next frames. */
  ghost predicate Encoded(s: Session, q: Request, c: Setup, w: Outside)
    requires Listed(s.peer)
  {
    q.Download? && q.round < ROUNDS && w.encoded.Some? ==>
      var fs := Harvest(s, SlotSize(q.round), c).1;
      |w.encoded.value| == SlotSize(q.round) && Carries(w.encoded.value, s.down, None, fs)
  }

  /** The bytes of the first responses. */
  function RoundBytes(rounds: nat): nat
    requires rounds <= ROUNDS
  {
    if rounds == 0 then 0 else RoundBytes(rounds - 1) + SlotSize(rounds - 1)
  }

  lemma {:induction false} KeptIsRounds(steps: nat)
    requires steps <= STEPS
    ensures KeptBytes(steps) == RoundBytes(steps / 2)
  {
    hide SlotSize;
    if steps > 0 {
      KeptIsRounds(steps - 1);
    }
  }

  lemma {:induction false} RoundsGrow(a: nat, b: nat)
    requires a <= b <= ROUNDS
    ensures RoundBytes(a) <= RoundBytes(b)
  {
    if a < b {
      RoundsGrow(a, b - 1);
    }
  }

  /** The table has four stretches of equal slots. */
  lemma Stretches()
    ensures forall k :: 0 <= k < 4 ==> SlotSize(k) == 8192
    ensures forall k :: 4 <= k < 6 ==> SlotSize(k) == 32768
    ensures forall k :: 6 <= k < 18 ==> SlotSize(k) == 65536
    ensures forall k :: 18 <= k < 20 ==> SlotSize(k) == 8192
  {
  }

  lemma {:induction false} EqualRounds(a: nat, n: nat, size: nat)
    requires a + n <= ROUNDS && forall k :: a <= k < a + n ==> SlotSize(k) == size
    ensures RoundBytes(a + n) == RoundBytes(a) + n * size
  {
    hide SlotSize;
    if n > 0 {
      EqualRounds(a, n - 1, size);
      assert RoundBytes(a + n) == RoundBytes(a + (n - 1)) + size;
      OneMoreTimes(n - 1, size);
    }
  }

  lemma OneMoreTimes(n: nat, size: nat)
    ensures (n + 1) * size == n * size + size
  {
  }

  lemma AllRounds()
    ensures RoundBytes(ROUNDS) == SESSION_LIMIT
  {
    hide SlotSize, RoundBytes;
    Stretches();
    NoRounds();
    EqualRounds(0, 4, 8192);
    EqualRounds(4, 2, 32768);
    EqualRounds(6, 12, 65536);
    EqualRounds(18, 2, 8192);
  }

  lemma NoRounds()
    ensures RoundBytes(0) == 0
  {
  }

  /** One session never keeps more than 880 KiB, and keeps exactly that much at the end. */
  lemma SessionBudget(steps: nat)
    requires steps <= STEPS
    ensures KeptBytes(steps) <= KeptBytes(STEPS) == SESSION_LIMIT
  {
    hide SlotSize, RoundBytes, KeptBytes;
    KeptIsRounds(steps);
    KeptIsRounds(STEPS);
    RoundsGrow(steps / 2, ROUNDS);
    AllRounds();
  }

  lemma KillOk(s: Session)
    requires PeerOk(s.peer) && s.steps <= STEPS && (s.steps > 0 ==> s.authed && s.deadline.Some?)
    requires !s.realtime ==> s.up == (s.steps + 1) / 2 && s.down == s.steps / 2
    requires s.realtime ==> s.steps == STEPS
    requires s.steps < 2 ==> s.peer.streams == map[] && s.peer.highest == 0 && s.peer.order == []
    ensures SessionOk(Kill(s))
  {
    ClosedOk(s.peer);
    hide PeerOk;
  }

  lemma KeepOk(s: Session, q: Request, t: Session, index: nat, e: Entry, now: int)
    requires SessionOk(s) && !s.realtime && !s.invalid && index == s.steps < STEPS && EntryOk(index, e)
    requires t == s.(authed := true, peer := t.peer, up := t.up, down := t.down, bytes := t.bytes) && PeerOk(t.peer)
    requires if index % 2 == 0 then t.up == s.up + 1 && t.down == s.down && t.bytes == s.bytes
             else t.up == s.up && t.down == s.down + 1 && t.bytes == s.bytes + SlotSize(index / 2)
    requires index == 0 ==> t.peer.streams == map[] && t.peer.highest == 0 && t.peer.order == []
    ensures SessionOk(Keep(t, index, e, now))
  {
    hide PeerOk, EntryOk, JournalOk, SlotSize;
    JournalGrows(s, t, index, e, now);
  }

  lemma JournalGrows(s: Session, t: Session, index: nat, e: Entry, now: int)
    requires JournalOk(s) && index == s.steps < STEPS && EntryOk(index, e)
    requires t.journal == s.journal && t.steps == s.steps
    requires t.bytes == s.bytes + if index % 2 == 0 then 0 else SlotSize(index / 2)
    ensures JournalOk(Keep(t, index, e, now))
  {
    hide EntryOk, SlotSize, KeptBytes;
    KeptNext(index);
  }

  lemma KeptNext(steps: nat)
    requires steps < STEPS
    ensures KeptBytes(steps + 1) == KeptBytes(steps) + if steps % 2 == 0 then 0 else SlotSize(steps / 2)
  {
    hide SlotSize;
  }

  lemma ReceiveNothing(p: Peer, valid: seq<byte> -> bool)
    requires p.cursor <= |p.order|
    ensures ReceiveAll(p, [], valid) == (p, true)
  {
  }

  lemma UploadKeeps(s: Session, q: Request, c: Setup, w: Outside)
    requires SessionOk(s) && !s.realtime && !s.invalid && q.Upload? && Index(q) == s.steps < STEPS && q.sequence == s.up
    ensures s.up < ROUNDS && s.peer.cursor <= |s.peer.order|
    ensures SessionOk(CommitUpload(s, q, c, w).0)
  {
    hide PeerOk, ReceiveAll, KeptBytes;
    assert s.peer.cursor <= |s.peer.order| by { OkListed(s.peer); }
    var login := q.frames != [] && q.frames[0].kind == AUTH;
    var frames := if login then [] else q.frames;
    var peer := ReceiveAll(s.peer, frames, c.valid).0;
    ReceiveKeeps(s.peer, frames, c.valid);
    ReceiveNothing(s.peer, c.valid);
    if CommitUpload(s, q, c, w).0 != s {
      var t := s.(authed := true, peer := peer);
      KillOk(t);
      KeepOk(s, q, t.(up := s.up + 1), Index(q), Entry(w.id, DigestOf(q, c), 204, []), w.now);
    }
  }

  lemma HarvestKeeps(s: Session, capacity: nat, c: Setup)
    requires PeerOk(s.peer) && 512 <= capacity
    ensures Listed(s.peer) && PeerOk(Harvest(s, capacity, c).0)
    ensures s.down == 0 ==> Harvest(s, capacity, c).0 == s.peer
  {
    hide PeerOk, Listed, Take;
    OkListed(s.peer);
    var fs := TakeGives(s.peer, capacity - HEADER, false);
  }

  lemma DownloadKeeps(s: Session, q: Request, c: Setup, w: Outside)
    requires SessionOk(s) && !s.realtime && !s.invalid && q.Download? && Index(q) == s.steps < STEPS && q.round == s.down
    requires Listed(s.peer) && Encoded(s, q, c, w)
    ensures s.down < ROUNDS && SessionOk(CommitDownload(s, q, c, w).0)
  {
    hide PeerOk, Take, KeptBytes, Carries, Listed;
    HarvestKeeps(s, SlotSize(q.round), c);
    if w.granted {
      var t := s.(peer := Harvest(s, SlotSize(q.round), c).0);
      if w.encoded.None? {
        KillOk(t);
      } else {
        KeepOk(s, q, t.(bytes := s.bytes + SlotSize(q.round), down := s.down + 1), Index(q),
               Entry(w.id, DigestOf(q, c), 200, w.encoded.value), w.now);
      }
    }
  }

  lemma AnswerKeeps(s: Session, q: Request, c: Setup, w: Outside)
    requires SessionOk(s) && Listed(s.peer) && Encoded(s, q, c, w)
    ensures SessionOk(Answer(s, q, c, w).0)
  {
    hide PeerOk, Listed, CommitUpload, CommitDownload, Encoded, JournalOk;
    if Round(q) >= ROUNDS || s.realtime || s.invalid || w.cancelled || s.peer.closed {
    } else if Expired(s, w.now) {
      KillOk(s);
    } else if Index(q) !in s.journal && Index(q) == s.steps && Round(q) == (if q.Upload? then s.up else s.down) {
      if q.Upload? {
        UploadKeeps(s, q, c, w);
      } else {
        DownloadKeeps(s, q, c, w);
      }
    }
  }

  // ---------------------------------------------------------------- runs of one session

  datatype Happening =
    | Asked(q: Request, w: Outside)
    | PeerMoves(ev: Event)          // the multiplexer's own readers, writers and dials
    | Dropped                       // expiry, eviction, shutdown
    | Upgraded(now: int)            // the sustained carrier takes over

  predicate Background(ev: Event) {
    !ev.Open? && !ev.TakeCell? && !ev.ReceiveCell?
  }

  predicate CanUpgrade(s: Session, now: int) {
    !s.realtime && !s.invalid && s.deadline.Some? && now < s.deadline.value && s.steps == STEPS && !s.peer.closed
  }

  ghost predicate Possible(s: Session, h: Happening, c: Setup)
    requires Listed(s.peer)
  {
    match h
    case Asked(q, w) => Encoded(s, q, c, w)
    case PeerMoves(ev) => Background(ev) && Enabled(s.peer, [], ev)
    case Dropped => true
    case Upgraded(now) => CanUpgrade(s, now)
  }

  ghost function Step(s: Session, h: Happening, c: Setup): Session
    requires Listed(s.peer)
  {
    if !Possible(s, h, c) then s
    else match h
      case Asked(q, w) => Answer(s, q, c, w).0
      case PeerMoves(ev) => s.(peer := Local(s.peer, ev))
      case Dropped => Kill(s)
      case Upgraded(_) => Clear(s).(realtime := true)
  }

  lemma MoveKeeps(s: Session, ev: Event)
    requires SessionOk(s) && Enabled(s.peer, [], ev) && Background(ev)
    ensures s.peer.cursor <= |s.peer.order| && SessionOk(s.(peer := Local(s.peer, ev)))
  {
    hide KeptBytes, EntryOk, PeerOk, Local;
    LocalKeeps(s.peer, ev);
    OkListed(s.peer);
    LocalElse(s.peer, ev);
  }

  lemma StepKeeps(s: Session, h: Happening, c: Setup)
    requires SessionOk(s)
    ensures Listed(s.peer) && SessionOk(Step(s, h, c))
  {
    hide JournalOk, PeerOk, Listed, Local, Answer, Encoded, Enabled;
    OkListed(s.peer);
    if Possible(s, h, c) {
      match h
      case Asked(q, w) => AnswerKeeps(s, q, c, w);
      case PeerMoves(ev) => MoveKeeps(s, ev);
      case Dropped => KillOk(s);
      case Upgraded(_) =>
    }
  }

  ghost function Run(s: Session, hs: seq<Happening>, c: Setup): Session
    requires SessionOk(s)
    decreases |hs|
  {
    if hs == [] then s
    else
      StepKeeps(s, hs[0], c);
      Run(Step(s, hs[0], c), hs[1..], c)
  }

  lemma {:induction false} RunKeeps(s: Session, hs: seq<Happening>, c: Setup)
    requires SessionOk(s)
    ensures SessionOk(Run(s, hs, c))
    decreases |hs|
  {
    hide SessionOk, Step;
    if hs != [] {
      StepKeeps(s, hs[0], c);
      RunKeeps(Step(s, hs[0], c), hs[1..], c);
    }
  }

  lemma NewSessionOk(window: u32, send: u32)
    ensures SessionOk(NewSession(window, send))
  {
  }

  /** In every run: the uploads run ahead of the downloads by at most one, the journal of a live session holds exactly
      the steps done and at most 880 KiB, and before HELLO is committed no frame has reached the multiplexer. */
  lemma StartupStaysInOrder(window: u32, send: u32, hs: seq<Happening>, c: Setup)
    ensures SessionOk(NewSession(window, send))
    ensures var s := Run(NewSession(window, send), hs, c);
            && s.steps <= STEPS && s.bytes <= SESSION_LIMIT
            && (!s.realtime ==> s.up == (s.steps + 1) / 2 && s.down == s.steps / 2)
            && (!s.realtime && !s.invalid ==> forall k: nat :: k in s.journal <==> k < s.steps)
            && (s.steps < 2 ==> s.peer.streams == map[] && s.peer.highest == 0 && s.peer.order == [])
  {
    NewSessionOk(window, send);
    RunKeeps(NewSession(window, send), hs, c);
    var s := Run(NewSession(window, send), hs, c);
    SessionBudget(s.steps);
    hide PeerOk, Run, NewSession, KeptBytes;
  }

  // ---------------------------------------------------------------- exactly once

  /** The request repeats one that is in the journal, or was turned away because the journal's quota was used up. */
  ghost predicate Needless(s: Session, h: Happening, c: Setup)
    requires Listed(s.peer)
  {
    h.Asked? && Possible(s, h, c) &&
      var r := Answer(s, h.q, c, h.w).1;
      r.Busy? || (r.Sent? && Index(h.q) in s.journal)
  }

  /** The run without its repeated and its quota-refused requests. */
  ghost function Essential(s: Session, hs: seq<Happening>, c: Setup): seq<Happening>
    requires SessionOk(s)
    decreases |hs|
  {
    if hs == [] then []
    else
      StepKeeps(s, hs[0], c);
      (if Needless(s, hs[0], c) then [] else [hs[0]]) + Essential(Step(s, hs[0], c), hs[1..], c)
  }

  lemma NeedlessChangesNothing(s: Session, h: Happening, c: Setup)
    requires Listed(s.peer) && Needless(s, h, c)
    ensures Step(s, h, c) == s
  {
    hide ReceiveAll, Harvest, Encoded;
  }

  /** Repeating requests, any number of times and at any moment, changes nothing: counters, journal and multiplexer end
      as in the run without the repetitions, and a refusal for want of quota is as if the request had not been made. */
  lemma {:induction false} RepetitionsDoNotMatter(s: Session, hs: seq<Happening>, c: Setup)
    requires SessionOk(s)
    ensures Run(s, Essential(s, hs, c), c) == Run(s, hs, c)
    decreases |hs|
  {
    hide SessionOk, Step, Needless, Listed;
    if hs != [] {
      StepKeeps(s, hs[0], c);
      var t := Step(s, hs[0], c);
      RepetitionsDoNotMatter(t, hs[1..], c);
      var rest := Essential(t, hs[1..], c);
      if Needless(s, hs[0], c) {
        NeedlessChangesNothing(s, hs[0], c);
        assert [] + rest == rest;
      } else {
        assert ([hs[0]] + rest)[1..] == rest;
      }
    }
  }

  /** The steps that a run commits. */
  ghost function Commits(s: Session, hs: seq<Happening>, c: Setup): seq<nat>
    requires SessionOk(s)
    decreases |hs|
  {
    if hs == [] then []
    else
      StepKeeps(s, hs[0], c);
      var t := Step(s, hs[0], c);
      (if t.steps != s.steps then [Index(hs[0].q)] else []) + Commits(t, hs[1..], c)
  }

  lemma CommitIsNext(s: Session, h: Happening, c: Setup)
    requires SessionOk(s) && Listed(s.peer)
    ensures var t := Step(s, h, c);
            t.steps == s.steps || (t.steps == s.steps + 1 && h.Asked? && Index(h.q) == s.steps)
  {
    hide SessionOk, Encoded, Local, ReceiveAll, Harvest;
  }

  /** Every step is committed once, in order. */
  lemma {:induction false} CommitsInOrder(s: Session, hs: seq<Happening>, c: Setup)
    requires SessionOk(s)
    ensures var done := Commits(s, hs, c);
            |done| == Run(s, hs, c).steps - s.steps && forall i :: 0 <= i < |done| ==> done[i] == s.steps + i
    decreases |hs|
  {
    hide SessionOk, Step, Listed;
    if hs != [] {
      StepKeeps(s, hs[0], c);
      CommitIsNext(s, hs[0], c);
      CommitsInOrder(Step(s, hs[0], c), hs[1..], c);
    }
  }

  /** An entry stays as it is until the whole journal is dropped, after which no request is answered. */
  ghost predicate KeptOrOver(s: Session, index: nat, e: Entry) {
    (index in s.journal && s.journal[index] == e) || s.invalid || s.realtime
  }

  lemma StepKeepsEntry(s: Session, h: Happening, c: Setup, index: nat, e: Entry)
    requires Listed(s.peer) && KeptOrOver(s, index, e)
    ensures KeptOrOver(Step(s, h, c), index, e)
  {
    hide Encoded, Local, ReceiveAll, Harvest;
  }

  lemma {:induction false} RunKeepsEntry(s: Session, hs: seq<Happening>, c: Setup, index: nat, e: Entry)
    requires SessionOk(s) && KeptOrOver(s, index, e)
    ensures KeptOrOver(Run(s, hs, c), index, e)
    decreases |hs|
  {
    hide SessionOk, Step, Listed, KeptOrOver;
    if hs != [] {
      StepKeeps(s, hs[0], c);
      StepKeepsEntry(s, hs[0], c, index, e);
      RunKeepsEntry(Step(s, hs[0], c), hs[1..], c, index, e);
    }
  }

  lemma SentIsKept(s: Session, q: Request, c: Setup, w: Outside)
    requires Listed(s.peer) && Answer(s, q, c, w).1.Sent?
    ensures KeptOrOver(Answer(s, q, c, w).0, Index(q), Answer(s, q, c, w).1.entry)
    ensures Answer(s, q, c, w).1.entry.digest == DigestOf(q, c) || q.Download?
  {
    hide ReceiveAll, Harvest;
  }

  lemma SessionListed(s: Session)
    requires SessionOk(s)
    ensures Listed(s.peer)
  {
    hide PeerOk, Listed, JournalOk;
    OkListed(s.peer);
  }

  /** The session still answers, and does so in time. */
  predicate Serves(s: Session, q: Request, w: Outside) {
    && Round(q) < ROUNDS && !s.realtime && !s.invalid && !w.cancelled && !s.peer.closed
    && (s.deadline.Some? ==> w.now < s.deadline.value)
  }

  /** A cell that logs in: one AUTH frame, stream and sequence 0, with the right password. */
  predicate LogsIn(frames: seq<Frame>, c: Setup) {
    |frames| == 1 && frames[0].kind == AUTH && frames[0].stream == 0 && frames[0].sequence == 0 && c.auth(frames[0].body)
  }

  /** What the next step needs: a login first, only then frames, no earlier than HELLO, that the multiplexer takes;
      room for a response and a cell that can be encoded. */
  predicate NextFits(s: Session, q: Request, c: Setup, w: Outside)
    requires s.peer.cursor <= |s.peer.order|
  {
    if q.Download? then w.granted && w.encoded.Some?
    else if !s.authed then LogsIn(q.frames, c)
    else q.frames == [] || (q.frames[0].kind != AUTH && s.steps >= 2 && ReceiveAll(s.peer, q.frames, c.valid).1)
  }

  /** A request is answered exactly when the session serves it and its step is done, with the same body if it is an
      upload, or is the next one and meets its conditions. */
  lemma AnsweredExactly(s: Session, q: Request, c: Setup, w: Outside)
    requires SessionOk(s) && Listed(s.peer)
    ensures Answer(s, q, c, w).1.Sent? <==>
              && Serves(s, q, w)
              && if Index(q) < s.steps then q.Upload? ==> s.journal[Index(q)].digest == c.digest(q.body)
                 else Index(q) == s.steps && NextFits(s, q, c, w)
    ensures Answer(s, q, c, w).1.Sent? && Index(q) < s.steps ==>
              Answer(s, q, c, w) == (s, Sent(s.journal[Index(q)]))
  {
    hide PeerOk, ReceiveAll, Harvest, Keep, Kill, EntryOk, KeptBytes, Listed;
    CursorInside(s.peer);
    ReceiveNothing(s.peer, c.valid);
  }

  /** What a commit does: an upload's frames reach the multiplexer, in full and once, and a login reaches nothing; a
      response carries HELLO first and from then on what one take gives, which the multiplexer has then given. */
  lemma CommitDoes(s: Session, q: Request, c: Setup, w: Outside)
    requires SessionOk(s) && Listed(s.peer) && Encoded(s, q, c, w)
    requires Answer(s, q, c, w).1.Sent? && Index(q) == s.steps
    ensures s.peer.cursor <= |s.peer.order| && Round(q) < ROUNDS
    ensures var (t, r) := Answer(s, q, c, w);
            && t.authed && t.steps == s.steps + 1 && t.journal == s.journal[s.steps := r.entry]
            && r.entry.digest == c.digest(if q.Upload? then q.body else [])
            && if q.Upload? then
                 && t.up == s.up + 1 && t.down == s.down && t.bytes == s.bytes
                 && r.entry.status == 204 && r.entry.body == []
                 && t.peer == if s.authed then ReceiveAll(s.peer, q.frames, c.valid).0 else s.peer
               else
                 && t.up == s.up && t.down == s.down + 1 && t.bytes == s.bytes + SlotSize(q.round)
                 && r.entry.status == 200 && |r.entry.body| == SlotSize(q.round)
                 && var taken := if s.steps == 1 then (s.peer, [Frame(HELLO, 0, 0, c.hello)])
                                 else Take(s.peer, SlotSize(q.round) - HEADER, false);
                    t.peer == taken.0 && Carries(r.entry.body, s.down, None, taken.1)
  {
    hide PeerOk, ReceiveAll, Take, EntryOk, KeptBytes, Listed, Carries, SlotSize, Kill;
    CursorInside(s.peer);
    ReceiveNothing(s.peer, c.valid);
  }

  /** Requests that end the session: one that comes late, an upload whose frames the multiplexer refuses, a response that
      cannot be encoded. */
  predicate Ends(s: Session, q: Request, c: Setup, w: Outside)
    requires s.peer.cursor <= |s.peer.order|
  {
    && Serves(s.(deadline := None), q, w)
    && (|| (s.deadline.Some? && w.now >= s.deadline.value)
        || (Index(q) == s.steps
            && if q.Upload? then
                 s.authed && s.steps >= 2 && q.frames != [] && q.frames[0].kind != AUTH
                 && !ReceiveAll(s.peer, q.frames, c.valid).1
               else w.granted && w.encoded.None?))
  }

  /** A request that is not answered changes nothing, or ends the session. */
  lemma RefusedChangesNothing(s: Session, q: Request, c: Setup, w: Outside)
    requires SessionOk(s) && Listed(s.peer) && !Answer(s, q, c, w).1.Sent?
    ensures s.peer.cursor <= |s.peer.order|
    ensures var t := Answer(s, q, c, w).0;
            if Ends(s, q, c, w) then
              t.invalid && t.peer.closed && t.journal == map[] && t.bytes == 0 && t.steps == s.steps
            else t == s
  {
    hide PeerOk, ReceiveAll, Harvest, Keep, EntryOk, KeptBytes, Listed;
    CursorInside(s.peer);
    ReceiveNothing(s.peer, c.valid);
  }

  /** Whatever happens between two requests for the same step, the second is given the reply of the first, byte for
      byte, exactly as long as the session serves it and, for an upload, the body has the same digest. */
  lemma SameReply(s: Session, q: Request, w: Outside, hs: seq<Happening>, q2: Request, w2: Outside, c: Setup)
    requires SessionOk(s) && Listed(s.peer) && Encoded(s, q, c, w) && Answer(s, q, c, w).1.Sent?
    requires Index(q2) == Index(q)
    ensures SessionOk(Answer(s, q, c, w).0)
    ensures var t := Run(Answer(s, q, c, w).0, hs, c);
            && Listed(t.peer)
            && Answer(t, q2, c, w2) ==
                 if Serves(t, q2, w2) && (q.Upload? ==> q2.Upload? && c.digest(q2.body) == c.digest(q.body))
                 then (t, Answer(s, q, c, w).1) else (Answer(t, q2, c, w2).0, Rejected)
  {
    hide SessionOk, Encoded, Run, CommitUpload, CommitDownload, Listed, Kill;
    AnswerKeeps(s, q, c, w);
    SentIsKept(s, q, c, w);
    var s1, e := Answer(s, q, c, w).0, Answer(s, q, c, w).1.entry;
    RunKeepsEntry(s1, hs, c, Index(q), e);
    RunKeeps(s1, hs, c);
    SessionListed(Run(s1, hs, c));
  }

  // ---------------------------------------------------------------- the login

  /** Nobody has logged in: no step is done, nothing is kept, and the multiplexer is as it was made, unless closed. */
  predicate Anonymous(s: Session, window: u32, send: u32) {
    && !s.authed && !s.realtime && s.steps == 0 && s.up == 0 && s.down == 0 && s.bytes == 0 && s.journal == map[]
    && s.deadline.None?
    && (s.peer == NewPeer(true, window, send) || s.peer == NewPeer(true, window, send).(closed := true))
  }

  /** The first upload, with the login. */
  predicate LogsInFirst(h: Happening, c: Setup) {
    h.Asked? && h.q.Upload? && h.q.sequence == 0 && LogsIn(h.q.frames, c)
  }

  lemma AnonymousAnswer(s: Session, q: Request, c: Setup, w: Outside, window: u32, send: u32)
    requires Anonymous(s, window, send) && Listed(s.peer)
    ensures LogsInFirst(Asked(q, w), c) || Answer(s, q, c, w) == (s, Rejected)
  {
    hide ReceiveAll, Harvest, Keep, Kill, NewPeer;
  }

  lemma AnonymousStep(s: Session, h: Happening, c: Setup, window: u32, send: u32)
    requires Anonymous(s, window, send) && SessionOk(s) && Listed(s.peer)
    ensures LogsInFirst(h, c) || Anonymous(Step(s, h, c), window, send)
  {
    hide SessionOk, Listed, Answer, Local, Encoded, Enabled;
    if Possible(s, h, c) && h.Asked? {
      AnonymousAnswer(s, h.q, c, h.w, window, send);
    } else if Possible(s, h, c) && h.PeerMoves? {
      LocalElse(s.peer, h.ev);
    }
  }

  lemma {:induction false} AnonymousRun(s: Session, hs: seq<Happening>, c: Setup, window: u32, send: u32)
    requires SessionOk(s) && Anonymous(s, window, send)
    requires forall i :: 0 <= i < |hs| ==> !LogsInFirst(hs[i], c)
    ensures Anonymous(Run(s, hs, c), window, send)
    decreases |hs|
  {
    hide SessionOk, Anonymous, Step, LogsInFirst;
    if hs != [] {
      StepKeeps(s, hs[0], c);
      AnonymousStep(s, hs[0], c, window, send);
      AnonymousRun(Step(s, hs[0], c), hs[1..], c, window, send);
    }
  }

  /** Nothing happens before a login: in every run without a first upload that carries the right password, no step is
      done, nothing has reached the multiplexer, and any other request is turned away. */
  lemma LoginNeeded(window: u32, send: u32, hs: seq<Happening>, c: Setup, q: Request, w: Outside)
    requires forall i :: 0 <= i < |hs| ==> !LogsInFirst(hs[i], c)
    ensures SessionOk(NewSession(window, send))
    ensures var s := Run(NewSession(window, send), hs, c);
            && Anonymous(s, window, send) && Listed(s.peer)
            && (!LogsInFirst(Asked(q, w), c) ==> Answer(s, q, c, w) == (s, Rejected))
  {
    hide SessionOk, Run, LogsInFirst, Listed, Answer;
    NewSessionOk(window, send);
    AnonymousRun(NewSession(window, send), hs, c, window, send);
    RunKeeps(NewSession(window, send), hs, c);
    var s := Run(NewSession(window, send), hs, c);
    SessionListed(s);
    AnonymousAnswer(s, q, c, w, window, send);
  }

  /** In every run: a session in which anybody is logged in has been asked for a login, and with a password check that
      accepts nothing no session ever gets anywhere. */
  lemma AuthedByPassword(window: u32, send: u32, hs: seq<Happening>, c: Setup)
    ensures SessionOk(NewSession(window, send))
    ensures var s := Run(NewSession(window, send), hs, c);
            s.authed || s.steps > 0 || s.peer.highest > 0 ==>
              exists i :: 0 <= i < |hs| && LogsInFirst(hs[i], c) && c.auth(hs[i].q.frames[0].body)
  {
    NewSessionOk(window, send);
    if forall i :: 0 <= i < |hs| ==> !LogsInFirst(hs[i], c) {
      AnonymousRun(NewSession(window, send), hs, c, window, send);
    }
    hide SessionOk, Run;
  }

  // ---------------------------------------------------------------- two minutes

  lemma StepKeepsDeadline(s: Session, h: Happening, c: Setup)
    requires Listed(s.peer) && s.deadline.Some?
    ensures Step(s, h, c).deadline == s.deadline
  {
    hide Encoded, Local, ReceiveAll, Harvest;
  }

  lemma {:induction false} RunKeepsDeadline(s: Session, hs: seq<Happening>, c: Setup)
    requires SessionOk(s) && s.deadline.Some?
    ensures Run(s, hs, c).deadline == s.deadline
    decreases |hs|
  {
    hide SessionOk, Step, Listed;
    if hs != [] {
      StepKeeps(s, hs[0], c);
      StepKeepsDeadline(s, hs[0], c);
      RunKeepsDeadline(Step(s, hs[0], c), hs[1..], c);
    }
  }

  lemma FirstSetsDeadline(s: Session, q: Request, w: Outside, c: Setup)
    requires SessionOk(s) && Listed(s.peer) && s.steps == 0 && s.deadline.None? && Answer(s, q, c, w).1.Sent?
    ensures Answer(s, q, c, w).0.deadline == Some(w.now + 120)
  {
    hide Listed, ReceiveAll, Harvest, Kill, PeerOk, EntryOk, KeptBytes;
  }

  lemma LateIsOver(s: Session, q: Request, w: Outside, c: Setup)
    requires Listed(s.peer) && s.deadline.Some? && w.now >= s.deadline.value
    ensures Answer(s, q, c, w).1 == Rejected
    ensures Serves(s, q, w.(now := s.deadline.value - 1)) ==>
              var t := Answer(s, q, c, w).0; t.invalid && t.peer.closed && t.journal == map[]
  {
    hide Listed, CommitUpload, CommitDownload;
  }

  /** The startup ends two minutes after its first step, whatever happens: from then on no request is answered and no
      carrier takes over, and the first request that comes late ends the session. */
  lemma TwoMinutes(s: Session, q: Request, w: Outside, hs: seq<Happening>, q2: Request, w2: Outside, c: Setup)
    requires SessionOk(s) && Listed(s.peer) && s.steps == 0 && s.deadline.None?
    requires Encoded(s, q, c, w) && Answer(s, q, c, w).1.Sent?
    ensures SessionOk(Answer(s, q, c, w).0)
    ensures var t := Run(Answer(s, q, c, w).0, hs, c);
            && t.deadline == Some(w.now + 120) && Listed(t.peer)
            && (w2.now >= w.now + 120 ==>
                  && Answer(t, q2, c, w2).1 == Rejected && !CanUpgrade(t, w2.now)
                  && (Serves(t, q2, w2.(now := w.now)) ==> Answer(t, q2, c, w2).0.invalid))
  {
    hide SessionOk, Encoded, Run, CommitUpload, CommitDownload, Listed, Answer;
    AnswerKeeps(s, q, c, w);
    FirstSetsDeadline(s, q, w, c);
    var s1 := Answer(s, q, c, w).0;
    RunKeepsDeadline(s1, hs, c);
    RunKeeps(s1, hs, c);
    var t := Run(s1, hs, c);
    SessionListed(t);
    if w2.now >= w.now + 120 {
      LateIsOver(t, q2, w2, c);
    }
  }

  /** When the next response can be built: always, except that a HELLO longer than its first cell cannot. */
  lemma ResponseFits(s: Session, c: Setup)
    requires SessionOk(s) && s.down < ROUNDS
    ensures Listed(s.peer)
    ensures Encodable(SlotSize(s.down), Harvest(s, SlotSize(s.down), c).1)
            <==> s.down > 0 || |c.hello| <= SlotSize(0) - HEADER - FRAME_HEADER
  {
    hide SessionOk, SlotSize, Listed, Encodable, Take;
    SessionListed(s);
    SlotRange(s.down);
    if s.down == 0 {
      HelloFits(SlotSize(0), c.hello);
    } else {
      TakeHarvest(s, SlotSize(s.down));
    }
  }

  lemma SlotRange(round: nat)
    requires round < ROUNDS
    ensures 512 <= SlotSize(round) <= MAX_CELL
  {
  }

  lemma HelloFits(capacity: nat, hello: seq<byte>)
    requires 512 <= capacity <= MAX_CELL
    ensures Encodable(capacity, [Frame(HELLO, 0, 0, hello)]) <==> |hello| <= capacity - HEADER - FRAME_HEADER
  {
    var f := Frame(HELLO, 0, 0, hello);
    hide Wire;
    PayloadNothing();
    PayloadSnoc([], f);
    assert [] + [f] == [f];
  }

  lemma TakeHarvest(s: Session, capacity: nat)
    requires SessionOk(s) && 512 <= capacity <= MAX_CELL
    ensures Listed(s.peer) && Encodable(capacity, Take(s.peer, capacity - HEADER, false).1)
  {
    hide PeerOk, Listed, Encodable, Take, JournalOk;
    TakeIsEncodable(s.peer, None, capacity, false);
    var taken := Take(s.peer, capacity - HEADER, false).1;
    assert WithAck(None, taken) == taken;
  }
}
