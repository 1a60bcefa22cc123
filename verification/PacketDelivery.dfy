/** Uploads over a network that loses, repeats and reorders requests. The sender's blocks are numbered as packet.go
    numbers them: everything written before the first request is merged into block 0, everything until the second into
    block 1, and from then on every block has its own number. */
module PacketDelivery {
  import opened Bytes
  import opened PacketUpload
  import opened PacketDownload

  const SETUP_LIMIT := 64 * 1024

  function BodiesOf(blocks: seq<Block>): seq<seq<byte>> {
    if blocks == [] then [] else [blocks[0].body] + BodiesOf(blocks[1..])
  }

  lemma {:induction false} BodiesOfAppend(a: seq<Block>, b: seq<Block>)
    ensures BodiesOf(a + b) == BodiesOf(a) + BodiesOf(b)
  {
    if a == [] {
      assert a + b == b;
    } else {
      assert (a + b)[1..] == a[1..] + b;
      BodiesOfAppend(a[1..], b);
    }
  }

  lemma FlightGrows(blocks: seq<Block>, k: nat)
    requires k < |blocks|
    ensures Concat(BodiesOf(blocks[..k + 1])) == Concat(BodiesOf(blocks[..k])) + blocks[k].body
    ensures |Concat(BodiesOf(blocks[..k + 1]))| <= |Concat(BodiesOf(blocks))|
  {
    assert blocks[..k + 1] == blocks[..k] + [blocks[k]];
    BodiesOfAppend(blocks[..k], [blocks[k]]);
    assert BodiesOf([blocks[k]]) == [blocks[k].body];
    ConcatSnoc(BodiesOf(blocks[..k]), blocks[k].body);
    assert blocks == blocks[..k + 1] + blocks[k + 1..];
    BodiesOfAppend(blocks[..k + 1], blocks[k + 1..]);
    ConcatAppend(BodiesOf(blocks[..k + 1]), BodiesOf(blocks[k + 1..]));
  }

  datatype Flight = Flight(next: nat, body: seq<byte>)

  /** packetFlight: the blocks of a handshake flight merged into one body, with the cursor after the last of them. */
  method PacketFlight(blocks: seq<Block>) returns (flight: Option<Flight>)
    ensures flight.Some? <==> 0 < |Concat(BodiesOf(blocks))| <= SETUP_LIMIT
    ensures flight.Some? ==>
              && flight.value.body == Concat(BodiesOf(blocks))
              && blocks != [] && flight.value.next == blocks[|blocks| - 1].sequence + 1
  {
    var body: seq<byte>, next := [], 0;
    var i := 0;
    while i < |blocks|
      invariant i <= |blocks| && body == Concat(BodiesOf(blocks[..i])) && |body| <= SETUP_LIMIT
      invariant i > 0 ==> next == blocks[i - 1].sequence + 1
    {
      FlightGrows(blocks, i);
      if |blocks[i].body| > SETUP_LIMIT - |body| {
        return None;
      }
      body := body + blocks[i].body;
      next := blocks[i].sequence + 1;
      i := i + 1;
    }
    assert blocks[..i] == blocks;
    if |body| == 0 {
      return None;
    }
    return Some(Flight(next, body));
  }

  // ---------------------------------------------------------------- runs

  /** `raw` is everything the writing side cut into blocks, `used` how many of them have been numbered, `wire` the
      numbered bodies, `log` the receiving connection. */
  datatype Uplink = Uplink(raw: seq<seq<byte>>, used: nat, wire: seq<seq<byte>>, log: Log)

  datatype Event =
    | Written(body: seq<byte>)
    | FlightSent                // the first or the second request merges everything written so far
    | Numbered                  // after the handshake every block is a request of its own
    | Delivered(k: u64)         // a copy of request k reaches the connection
    | ReadBytes(n: nat)

  function Unsent(u: Uplink): seq<byte>
    requires u.used <= |u.raw|
  {
    Concat(u.raw[u.used..])
  }

  predicate Enabled(u: Uplink, e: Event)
    requires u.used <= |u.raw|
  {
    match e
    case Written(body) => LegalBody(body)
    case FlightSent => |u.wire| < 2 && 0 < |Unsent(u)| <= SETUP_LIMIT
    case Numbered => |u.wire| >= 2 && u.used < |u.raw|
    case Delivered(k) => k < |u.wire|
    case ReadBytes(n) => n <= Unread(u.log)
  }

  function Step(u: Uplink, e: Event, digest: seq<byte> -> seq<byte>): Uplink
    requires u.used <= |u.raw|
  {
    if !Enabled(u, e) then u
    else match e
      case Written(body) => u.(raw := u.raw + [body])
      case FlightSent => u.(used := |u.raw|, wire := u.wire + [Unsent(u)])
      case Numbered => u.(used := u.used + 1, wire := u.wire + [u.raw[u.used]])
      case Delivered(k) => u.(log := Answer(u.log, k, u.wire[k], digest).0)
      case ReadBytes(n) => u.(log := Consume(u.log, n))
  }

  function Run(u: Uplink, events: seq<Event>, digest: seq<byte> -> seq<byte>): (v: Uplink)
    requires u.used <= |u.raw|
    ensures v.used <= |v.raw|
    decreases |events|
  {
    if events == [] then u else Run(Step(u, events[0], digest), events[1..], digest)
  }

  function Idle(): Uplink {
    Uplink([], 0, [], Log([], map[], 0))
  }

  /** The receiver holds true copies: the applied blocks are the first ones sent, the held ones are the ones sent under
      their numbers. */
  ghost predicate Truthful(log: Log, wire: seq<seq<byte>>) {
    && log.applied <= wire
    && forall k: u64 :: k in log.held ==> k < |wire| && log.held[k] == wire[k]
  }

  ghost predicate Good(u: Uplink) {
    && u.used <= |u.raw|
    && Concat(u.wire) == Concat(u.raw[..u.used])
    && (forall i :: 0 <= i < |u.raw| ==> LegalBody(u.raw[i]))
    && (forall i :: 0 <= i < |u.wire| ==> LegalBody(u.wire[i]))
    && LogOk(u.log)
    && Truthful(u.log, u.wire)
  }

  lemma RanAt(m: Log, q: Log, wire: seq<seq<byte>>, i: nat)
    requires Ran(m, q) && Truthful(m, wire) && i < |q.applied|
    ensures i < |wire| && q.applied[i] == wire[i]
  {
    if i >= |m.applied| {
      var key: u64 := i;
      assert key in m.held;
    } else {
      assert q.applied[i] == m.applied[i];
    }
  }

  lemma RanTruthful(m: Log, q: Log, wire: seq<seq<byte>>)
    requires Ran(m, q) && Truthful(m, wire)
    ensures q.applied <= wire
  {
    hide Ran, Truthful;
    if q.applied != [] {
      RanAt(m, q, wire, |q.applied| - 1);
    }
    forall i | 0 <= i < |q.applied| ensures q.applied[i] == wire[i] {
      RanAt(m, q, wire, i);
    }
  }

  lemma SettleTruthful(m: Log, wire: seq<seq<byte>>)
    requires Settling(m) && Truthful(m, wire)
    ensures Truthful(Settle(m), wire)
  {
    hide Settle, Settling, Ran;
    SettleRun(m);
    SettleHeld(m);
    RanTruthful(m, Settle(m), wire);
  }

  /** A true copy keeps the receiver truthful, whenever and however often it comes. */
  lemma AnswerTruthful(l: Log, wire: seq<seq<byte>>, k: u64, digest: seq<byte> -> seq<byte>)
    requires LogOk(l) && Truthful(l, wire) && k < |wire|
    ensures Truthful(Answer(l, k, wire[k], digest).0, wire)
  {
    hide Settle, Settling, LogOk, Retained, LegalBody;
    var m := l.(held := l.held[k := wire[k]]);
    if Answer(l, k, wire[k], digest).0 != l {
      InsertSettling(l, k, wire[k]);
      SettleTruthful(m, wire);
    }
  }

  lemma StillTruthful(l: Log, wire: seq<seq<byte>>, more: seq<seq<byte>>)
    requires Truthful(l, wire) && wire <= more
    ensures Truthful(l, more)
  {
  }

  lemma UnsentLegal(u: Uplink)
    requires u.used <= |u.raw| && Enabled(u, FlightSent)
    ensures LegalBody(Unsent(u))
  {
  }

  lemma SendKeeps(u: Uplink, e: Event, digest: seq<byte> -> seq<byte>)
    requires Good(u) && Enabled(u, e) && (e.Written? || e.FlightSent? || e.Numbered?)
    ensures Good(Step(u, e, digest))
  {
    hide LogOk, Truthful, Concat, LegalBody;
    var v := Step(u, e, digest);
    StillTruthful(u.log, u.wire, v.wire);
    match e
    case Written(body) =>
      assert v.raw[..v.used] == u.raw[..u.used];
    case FlightSent =>
      UnsentLegal(u);
      assert u.raw[..u.used] + u.raw[u.used..] == u.raw && u.raw[..|u.raw|] == u.raw;
      ConcatAppend(u.raw[..u.used], u.raw[u.used..]);
      ConcatSnoc(u.wire, Unsent(u));
    case Numbered =>
      assert u.raw[..u.used + 1] == u.raw[..u.used] + [u.raw[u.used]];
      ConcatSnoc(u.raw[..u.used], u.raw[u.used]);
      ConcatSnoc(u.wire, u.raw[u.used]);
  }

  lemma StepKeeps(u: Uplink, e: Event, digest: seq<byte> -> seq<byte>)
    requires Good(u)
    ensures Good(Step(u, e, digest))
  {
    if Enabled(u, e) {
      match e
      case Delivered(k) =>
        AnswerTruthful(u.log, u.wire, k, digest);
        AnswerKeeps(u.log, k, u.wire[k], digest);
      case ReadBytes(n) => ConsumeKeeps(u.log, n);
      case _ => SendKeeps(u, e, digest);
    }
  }

  lemma {:induction false} RunKeeps(u: Uplink, events: seq<Event>, digest: seq<byte> -> seq<byte>)
    requires Good(u)
    ensures Good(Run(u, events, digest))
    decreases |events|
  {
    if events != [] {
      StepKeeps(u, events[0], digest);
      RunKeeps(Step(u, events[0], digest), events[1..], digest);
    }
  }

  lemma IdleGood()
    ensures Good(Idle())
  {
    HeldAbsent(map[], 0, UPLOAD_SLOTS);
  }

  /** What the reader has been given so far. */
  function BytesRead(l: Log): seq<byte>
    requires 0 <= Unread(l)
  {
    Concat(l.applied)[..l.consumed]
  }

  /** In every run the bytes read are a prefix of the bytes written, and block k is applied once, as the k-th. */
  lemma ReadsArePrefix(events: seq<Event>, digest: seq<byte> -> seq<byte>)
    ensures var u := Run(Idle(), events, digest);
            && 0 <= Unread(u.log)
            && BytesRead(u.log) <= Concat(u.raw)
            && u.log.applied <= u.wire
            && Retained(u.log) <= UPLOAD_LIMIT
  {
    IdleGood();
    RunKeeps(Idle(), events, digest);
    var u := Run(Idle(), events, digest);
    ConcatPrefix(u.log.applied, u.wire);
    ConcatPrefix(u.raw[..u.used], u.raw);
  }

  /** What a copy of block k is answered: a block far below the next one is gone, one too far above it is out of the
      window, a new one may find no room; anything else is accepted. No copy is ever a conflict. */
  ghost predicate CopyAnswer(l: Log, k: u64, body: seq<byte>, digest: seq<byte> -> seq<byte>) {
    var next := |l.applied|;
    var (q, fault) := Answer(l, k, body, digest);
    && (fault == Some(Gone) <==> k + RECEIPT_COUNT < next)
    && (fault == Some(OutOfWindow) <==> k == MAX_U64 || k >= next + UPLOAD_SLOTS)
    && (fault == Some(Full)
        <==> next <= k < next + UPLOAD_SLOTS && k != MAX_U64 && k !in l.held && |body| > UPLOAD_LIMIT - Retained(l))
    && (fault.None? || fault.value in {Gone, OutOfWindow, Full})
    && (Stored(l, k) || fault.Some? ==> q == l)
    && (fault.None? ==> Stored(q, k))
  }

  lemma TrueCopy(l: Log, wire: seq<seq<byte>>, k: u64, digest: seq<byte> -> seq<byte>)
    requires LogOk(l) && Truthful(l, wire) && k < |wire| && LegalBody(wire[k])
    ensures CopyAnswer(l, k, wire[k], digest)
  {
    hide Settle, Retained, Unread;
    AnswerKeeps(l, k, wire[k], digest);
    AnswerStores(l, k, wire[k], digest, k);
    if k < |l.applied| {
      assert l.applied[k] == wire[k];
    }
  }

  /** In every run, whatever copy of whatever request arrives, however late or often, is answered exactly so. */
  lemma CopyAnswered(events: seq<Event>, digest: seq<byte> -> seq<byte>, k: u64)
    ensures var u := Run(Idle(), events, digest);
            k < |u.wire| ==> CopyAnswer(u.log, k, u.wire[k], digest)
  {
    hide Run, CopyAnswer, LogOk, Truthful;
    IdleGood();
    RunKeeps(Idle(), events, digest);
    var u := Run(Idle(), events, digest);
    if k < |u.wire| {
      TrueCopy(u.log, u.wire, k, digest);
    }
  }

  lemma {:induction false} RunStores(u: Uplink, events: seq<Event>, digest: seq<byte> -> seq<byte>, k: u64)
    requires Good(u)
    ensures var v := Run(u, events, digest);
            && Good(v) && u.wire <= v.wire && |u.log.applied| <= |v.log.applied|
            && (Stored(u.log, k) ==> Stored(v.log, k))
    decreases |events|
  {
    hide Good, Step, Stored;
    GoodRange(u);
    if events != [] {
      StepKeeps(u, events[0], digest);
      StepStores(u, events[0], digest, k);
      RunStores(Step(u, events[0], digest), events[1..], digest, k);
    }
  }

  lemma GoodRange(u: Uplink)
    requires Good(u)
    ensures u.used <= |u.raw|
  {
    hide LogOk, Truthful;
  }

  lemma StepStores(u: Uplink, e: Event, digest: seq<byte> -> seq<byte>, k: u64)
    requires Good(u)
    ensures u.used <= |u.raw|
    ensures var v := Step(u, e, digest);
            && u.wire <= v.wire && |u.log.applied| <= |v.log.applied|
            && (Stored(u.log, k) ==> Stored(v.log, k))
  {
    hide LogOk, Truthful, Answer, Concat, Unread;
    if Enabled(u, e) && e.Delivered? {
      AnswerKeeps(u.log, e.k, u.wire[e.k], digest);
      AnswerStores(u.log, e.k, u.wire[e.k], digest, k);
    }
  }

  /** Between two moments of a run: a block stored at the first one is answered without change at the second, as accepted
      while it is among the last 32 applied or still waits, and as gone afterwards; and a block that was inside the window
      at the first is never out of it later, so that no copy of it closes the session. */
  lemma LaterCopy(first: seq<Event>, later: seq<Event>, digest: seq<byte> -> seq<byte>, k: u64)
    ensures var u := Run(Idle(), first, digest);
            var v := Run(u, later, digest);
            k < |u.wire| ==>
              && k < |v.wire| && v.wire[k] == u.wire[k]
              && var (q, fault) := Answer(v.log, k, v.wire[k], digest);
                 && (Stored(u.log, k) ==>
                       q == v.log && fault == if k + RECEIPT_COUNT < |v.log.applied| then Some(Gone) else None)
                 && (k < |u.log.applied| + UPLOAD_SLOTS && k != MAX_U64 ==>
                       fault.None? || fault == Some(Gone) || fault == Some(Full))
  {
    hide Run, LogOk, Truthful, Retained, Answer;
    IdleGood();
    RunKeeps(Idle(), first, digest);
    var u := Run(Idle(), first, digest);
    RunStores(u, later, digest, k);
    var v := Run(u, later, digest);
    if k < |u.wire| {
      TrueCopy(v.log, v.wire, k, digest);
      StoredInWindow(v.log, k);
    }
  }

  lemma StoredInWindow(l: Log, k: u64)
    requires LogOk(l)
    ensures Stored(l, k) ==> k != MAX_U64 && k < |l.applied| + UPLOAD_SLOTS
  {
    hide Unread, Retained, LegalBody;
  }

  /** In every run the block that the reader waits for is accepted whenever a copy of it comes, and what was written
      before it can then be read. */
  lemma HeadMakesProgress(events: seq<Event>, digest: seq<byte> -> seq<byte>)
    ensures var u := Run(Idle(), events, digest);
            var k := |u.log.applied|;
            Unread(u.log) == 0 && k < |u.wire| && k < MAX_U64 ==>
              && Answer(u.log, k, u.wire[k], digest).1.None?
              && Unread(Answer(u.log, k, u.wire[k], digest).0) > 0
  {
    hide Good, Run, Answer, Unread;
    IdleGood();
    RunKeeps(Idle(), events, digest);
    var u := Run(Idle(), events, digest);
    if Unread(u.log) == 0 && |u.log.applied| < |u.wire| && |u.log.applied| < MAX_U64 {
      HeadGives(u, digest);
    }
  }

  lemma HeadGives(u: Uplink, digest: seq<byte> -> seq<byte>)
    requires Good(u) && Unread(u.log) == 0 && |u.log.applied| < |u.wire| && |u.log.applied| < MAX_U64
    ensures var (q, fault) := Answer(u.log, |u.log.applied|, u.wire[|u.log.applied|], digest);
            fault.None? && Unread(q) > 0
  {
    hide Answer, LogOk, Truthful, Unread;
    var k: u64 := |u.log.applied|;
    HeadAccepted(u.log, k, u.wire[k], digest);
    AnswerKeeps(u.log, k, u.wire[k], digest);
    var q := Answer(u.log, k, u.wire[k], digest).0;
    MoreApplied(u.log, q);
  }

  lemma MoreApplied(l: Log, q: Log)
    requires l.applied <= q.applied && q.consumed == l.consumed && Unread(l) == 0
    requires |l.applied| < |q.applied| && LegalBody(q.applied[|l.applied|])
    ensures Unread(q) > 0
  {
    var n := |l.applied|;
    assert q.applied == l.applied + q.applied[n..];
    ConcatAppend(l.applied, q.applied[n..]);
    assert Concat(q.applied[n..]) == q.applied[n] + Concat(q.applied[n..][1..]);
  }
}
