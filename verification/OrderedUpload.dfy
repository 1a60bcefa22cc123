/** HTTP/3 uploads (orderedUpload in h3.go): cells arrive on independent requests in any order; each request holds its
    place until every earlier cell has been given to the multiplexer. */
module OrderedUpload {
  import opened Bytes
  import opened Cell
  import opened MuxPeer
  import opened Multiplexers
  import opened CellWriter
  import MuxRun

  const MAX_PENDING := HTTP3_WINDOW / 131072

  /** A pendingUpload: the request and its cell. */
  datatype Waiting = Waiting(id: nat, body: seq<byte>)

  ghost predicate Numbered(body: seq<byte>, sequence: u32) {
    exists fs, filler :: IsCell(body, sequence, fs, filler)
  }

  lemma CellNumber(body: seq<byte>, sequence: u32, frames: seq<Frame>, filler: nat)
    requires IsCell(body, sequence, frames, filler)
    ensures Numbered(body, sequence)
  {
  }

  predicate UploadSize(size: nat) {
    size in {512, 4096, 16384, 131072}
  }

  /** Whether a cell may wait: its number lies in the window of eight, nobody holds it, and there is a place. */
  predicate Admits(pending: map<u32, Waiting>, up: u32, sequence: u32) {
    up <= sequence < up + MAX_PENDING && |pending| < MAX_PENDING && sequence !in pending
  }

  /** What a request brought when it entered. */
  datatype Ticket = Ticket(sequence: u32, body: seq<byte>)

  /** The state of the queue: `applied[i]` is the request whose cell, number `first + i`, the multiplexer has accepted,
      and `given[i]` are the frames it was given; `finished` tells which requests have been woken, and whether without
      an error; `entered` remembers every request. */
  datatype Queue = Queue(pending: map<u32, Waiting>, finished: map<nat, bool>, applied: seq<nat>, given: seq<seq<Frame>>,
                         entered: map<nat, Ticket>, nextId: nat, first: u32)

  /** The frames are those of the request's own cell, and that cell has this number. */
  ghost predicate GivenBy(t: Ticket, sequence: u32, frames: seq<Frame>) {
    t.sequence == sequence && exists filler :: IsCell(t.body, sequence, frames, filler)
  }

  ghost predicate Handed(q: Queue, i: nat)
    requires i < |q.applied| == |q.given|
  {
    var id := q.applied[i];
    && id in q.finished && q.finished[id]
    && q.first + i <= MAX_U32 && id in q.entered && GivenBy(q.entered[id], q.first + i, q.given[i])
  }

  ghost predicate Waits(q: Queue, k: u32, up: u32)
    requires k in q.pending
  {
    var w := q.pending[k];
    && up <= k < up + MAX_PENDING && w.id !in q.finished
    && w.id in q.entered && q.entered[w.id] == Ticket(k, w.body) && Numbered(w.body, k)
  }

  ghost predicate QueueOk(q: Queue, up: u32) {
    && up == q.first + |q.applied| && |q.given| == |q.applied|
    && (forall id :: id in q.entered <==> 0 <= id < q.nextId)
    && (forall i :: 0 <= i < |q.applied| ==> Handed(q, i))
    && (forall id :: id in q.finished ==> id in q.entered && (q.finished[id] ==> id in q.applied))
    && (forall k :: k in q.pending ==> Waits(q, k, up))
  }

  /** The queue after its head was dealt with. */
  function HeadDone(q: Queue, up: u32, ok: bool, frames: seq<Frame>): Queue
    requires up in q.pending
  {
    var id := q.pending[up].id;
    q.(pending := q.pending - {up}, finished := q.finished[id := ok],
       applied := if ok then q.applied + [id] else q.applied,
       given := if ok then q.given + [frames] else q.given)
  }

  lemma HeadStep(q: Queue, up: u32, ok: bool, frames: seq<Frame>, filler: nat)
    requires QueueOk(q, up) && up in q.pending && (ok ==> up < MAX_U32)
    requires ok ==> IsCell(q.pending[up].body, up, frames, filler)
    ensures QueueOk(HeadDone(q, up, ok, frames), if ok then up + 1 else up)
    ensures |HeadDone(q, up, ok, frames).pending| < |q.pending|
  {
    hide Numbered, GivenBy, IsCell, Handed, Waits;
    HeadHanded(q, up, ok, frames, filler);
    HeadWaits(q, up, ok, frames);
    HeadFinished(q, up, ok, frames);
  }

  lemma HeadHanded(q: Queue, up: u32, ok: bool, frames: seq<Frame>, filler: nat)
    requires QueueOk(q, up) && up in q.pending && (ok ==> up < MAX_U32)
    requires ok ==> IsCell(q.pending[up].body, up, frames, filler)
    ensures var r := HeadDone(q, up, ok, frames);
            |r.given| == |r.applied| && forall i :: 0 <= i < |r.applied| ==> Handed(r, i)
  {
    hide Numbered, IsCell;
    var r, id := HeadDone(q, up, ok, frames), q.pending[up].id;
    assert Waits(q, up, up);
    assert ok ==> GivenBy(q.entered[id], up, frames);
    hide Waits, GivenBy;
    forall i | 0 <= i < |r.applied| ensures Handed(r, i) {
      if i < |q.applied| {
        assert Handed(q, i);
        SameHanded(q, r, i);
      }
    }
  }

  lemma HeadWaits(q: Queue, up: u32, ok: bool, frames: seq<Frame>)
    requires QueueOk(q, up) && up in q.pending && (ok ==> up < MAX_U32)
    ensures var r := HeadDone(q, up, ok, frames);
            && |r.pending| < |q.pending|
            && forall k :: k in r.pending ==> Waits(r, k, if ok then up + 1 else up)
  {
    hide Numbered, Handed;
    var r := HeadDone(q, up, ok, frames);
    assert q.pending == r.pending[up := q.pending[up]];
    assert r.pending.Keys == q.pending.Keys - {up};
    assert Waits(q, up, up);
    forall k | k in r.pending ensures Waits(r, k, if ok then up + 1 else up) {
      assert Waits(q, k, up);
    }
  }

  lemma HeadFinished(q: Queue, up: u32, ok: bool, frames: seq<Frame>)
    requires QueueOk(q, up) && up in q.pending
    ensures var r := HeadDone(q, up, ok, frames);
            forall id :: id in r.finished ==> id in r.entered && (r.finished[id] ==> id in r.applied)
  {
    hide Numbered, Handed;
    var r := HeadDone(q, up, ok, frames);
    assert Waits(q, up, up);
    hide Waits;
    assert forall x :: x in q.applied ==> x in r.applied;
    assert ok ==> r.applied[|q.applied|] == q.pending[up].id;
  }

  /** What was handed over stays so when requests come and go. */
  lemma SameHanded(q: Queue, r: Queue, i: nat)
    requires i < |q.applied| == |q.given| && Handed(q, i) && |r.applied| == |r.given|
    requires q.applied <= r.applied && q.given <= r.given && q.first == r.first
    requires forall id :: id in q.entered ==> id in r.entered && r.entered[id] == q.entered[id]
    requires forall id :: id in q.finished && q.finished[id] ==> id in r.finished && r.finished[id]
    ensures i < |r.applied| && Handed(r, i)
  {
    hide GivenBy;
  }

  lemma EnterStep(q: Queue, up: u32, k: u32, body: seq<byte>)
    requires QueueOk(q, up) && Admits(q.pending, up, k) && Numbered(body, k)
    ensures QueueOk(Admitted(q, k, body), up)
  {
    hide Numbered, GivenBy, Handed, Waits, Admits;
    AllHanded(q, Admitted(q, k, body), up);
    EnterWaits(q, up, k, body);
  }

  lemma AllHanded(q: Queue, r: Queue, up: u32)
    requires QueueOk(q, up) && q.applied == r.applied && q.given == r.given && q.first == r.first
    requires q.finished == r.finished
    requires forall id :: id in q.entered ==> id in r.entered && r.entered[id] == q.entered[id]
    ensures |r.applied| == |r.given| && forall i :: 0 <= i < |r.applied| ==> Handed(r, i)
  {
    hide Numbered, GivenBy, Handed, Waits;
    forall i | 0 <= i < |r.applied| ensures Handed(r, i) {
      assert Handed(q, i);
      SameHanded(q, r, i);
    }
  }

  lemma EnterWaits(q: Queue, up: u32, k: u32, body: seq<byte>)
    requires QueueOk(q, up) && Admits(q.pending, up, k) && Numbered(body, k)
    ensures var r := Admitted(q, k, body); forall m :: m in r.pending ==> Waits(r, m, up)
  {
    hide Numbered, GivenBy, Handed;
    var r := Admitted(q, k, body);
    assert q.nextId !in q.entered && q.nextId !in q.finished;
    forall m | m in r.pending ensures Waits(r, m, up) {
      assert m != k ==> Waits(q, m, up);
    }
  }

  function Admitted(q: Queue, k: u32, body: seq<byte>): Queue {
    q.(pending := q.pending[k := Waiting(q.nextId, body)], entered := q.entered[q.nextId := Ticket(k, body)],
       nextId := q.nextId + 1)
  }

  lemma LeaveStep(q: Queue, up: u32, k: u32)
    requires QueueOk(q, up)
    ensures QueueOk(q.(pending := q.pending - {k}), up)
  {
    hide Numbered, GivenBy, Handed;
    var r := q.(pending := q.pending - {k});
    AllHanded(q, r, up);
    forall m | m in r.pending ensures Waits(r, m, up) {
      assert Waits(q, m, up);
    }
  }

  /** The request's cell has been applied, and so has every cell with a smaller number, by the request that held it. */
  ghost predicate AppliedInTurn(q: Queue, id: nat, up: u32) {
    && id in q.entered && |q.given| == |q.applied|
    && q.first <= q.entered[id].sequence < up == q.first + |q.applied|
    && q.applied[q.entered[id].sequence - q.first] == id
    && forall i :: 0 <= i <= q.entered[id].sequence - q.first ==>
         q.applied[i] in q.entered && GivenBy(q.entered[q.applied[i]], q.first + i, q.given[i])
  }

  lemma FinishedInTurn(q: Queue, up: u32, id: nat)
    requires QueueOk(q, up) && id in q.finished && q.finished[id]
    ensures AppliedInTurn(q, id, up)
  {
    hide IsCell, Numbered;
    var n :| 0 <= n < |q.applied| && q.applied[n] == id;
    assert Handed(q, n);
    forall i | 0 <= i <= q.entered[id].sequence - q.first
      ensures q.applied[i] in q.entered && GivenBy(q.entered[q.applied[i]], q.first + i, q.given[i])
    {
      assert Handed(q, i);
    }
  }

  lemma TurnBounds(q: Queue, id: nat, up: u32)
    requires AppliedInTurn(q, id, up)
    ensures id in q.entered && q.first <= q.entered[id].sequence < up
  {
  }

  /** A request gives at most one cell. */
  lemma GivenOnce(q: Queue, up: u32, i: nat, j: nat)
    requires QueueOk(q, up) && i < |q.applied| && j < |q.applied| && q.applied[i] == q.applied[j]
    ensures i == j
  {
    assert Handed(q, i) && Handed(q, j);
  }

  /** How far the loop has come: who waits, who has been served, the next number, and whether the session is closed. */
  datatype Place = Place(pending: map<u32, Waiting>, applied: seq<nat>, up: u32, closed: bool)

  /** What the loop does to the queue: the cells that leave it are the ones next in number, each handed over once and in
      order; a head that fails leaves too, and then the session is closed; a closed session hands nothing over. */
  ghost predicate Draining(x: Place, y: Place) {
    && x.applied <= y.applied && y.up == x.up + (|y.applied| - |x.applied|)
    && (forall k: u32 :: x.up <= k < y.up ==> k in x.pending && y.applied[|x.applied| + (k - x.up)] == x.pending[k].id)
    && (x.closed ==> y.closed && y.applied == x.applied)
    && (y.closed && !x.closed ==> y.up in x.pending && y.up !in y.pending)
    && (forall k :: k in y.pending ==> k in x.pending && y.pending[k] == x.pending[k])
    && (forall k :: k in x.pending && k !in y.pending ==> x.up <= k <= y.up && (k == y.up ==> y.closed))
  }

  lemma DrainingNothing(x: Place)
    ensures Draining(x, x)
  {
  }

  lemma DrainingFailure(x: Place, y: Place)
    requires Draining(x, y) && y.up in y.pending
    ensures Draining(x, y.(pending := y.pending - {y.up}, closed := true))
  {
  }

  lemma DrainingMore(x: Place, y: Place)
    requires Draining(x, y) && !y.closed && y.up in y.pending && y.up < MAX_U32
    ensures Draining(x, Place(y.pending - {y.up}, y.applied + [y.pending[y.up].id], y.up + 1, false))
  {
    var more := y.applied + [y.pending[y.up].id];
    forall k: u32 | x.up <= k < y.up + 1 ensures k in x.pending && more[|x.applied| + (k - x.up)] == x.pending[k].id {
      if k == y.up {
        assert more[|y.applied|] == y.pending[y.up].id;
      }
    }
  }

  /** Receiving closes nothing. */
  lemma StaysOpen(p: Peer, frames: seq<Frame>, valid: seq<byte> -> bool)
    requires p.cursor <= |p.order|
    ensures ReceiveAll(p, frames, valid).0.closed == p.closed
  {
    MuxRun.ReceiveSettings(p, frames, valid);
  }

  datatype Entry = Turned | Entered(id: nat)

  class UploadQueue {
    const carrier: Carrier
    var pending: map<u32, Waiting>
    var cancelled: set<nat>          // requests whose context has ended
    var finished: map<nat, bool>     // requests whose `done` is closed, and whether without an error
    var nextId: nat
    ghost const firstUp: u32
    ghost var applied: seq<nat>
    ghost var given: seq<seq<Frame>>
    ghost var entered: map<nat, Ticket>

    ghost function View(): Queue
      reads this
    {
      Queue(pending, finished, applied, given, entered, nextId, firstUp)
    }

    ghost function Now(): Place
      reads this, carrier, carrier.peer
    {
      Place(pending, applied, carrier.up, carrier.peer.closed)
    }

    ghost predicate Ordered()
      reads this, carrier
    {
      QueueOk(View(), carrier.up)
    }

    ghost predicate Valid()
      reads this, carrier, carrier.peer, carrier.peer.streams.Values
    {
      Ordered() && carrier.up !in pending && carrier.Valid()
    }

    constructor (carrier: Carrier)
      requires carrier.Valid()
      ensures Valid() && this.carrier == carrier && View() == Queue(map[], map[], [], [], map[], 0, carrier.up)
    {
      hide Carrier.Valid;
      this.carrier, firstUp := carrier, carrier.up;
      pending, cancelled, finished, nextId := map[], {}, map[], 0;
      applied, given, entered := [], [], map[];
    }

    lemma CursorKept()
      requires carrier.Valid()
      ensures carrier.peer.State().cursor <= |carrier.peer.State().order|
    {
      hide PeerOk;
    }

    /** The body is a cell with this number and content that the carrier applies. */
    ghost predicate Carried(body: seq<byte>, up: u32, fs: seq<Frame>, filler: nat, before: Peer, valid: seq<byte> -> bool)
      requires before.cursor <= |before.order|
      reads carrier`authed
    {
      IsCell(body, up, fs, filler) && Applies(carrier.kind, carrier.authed, up, |body|, fs, before, valid)
    }

    /** The context of a request ends. */
    method Cancel(id: nat)
      modifies `cancelled
      ensures cancelled == old(cancelled) + {id}
    {
      cancelled := cancelled + {id};
    }

    /** The cell goes to the carrier, unless its request is cancelled; a failure closes the session. */
    method GiveCell(head: Waiting, valid: seq<byte> -> bool) returns (ok: bool, frames: seq<Frame>, ghost filler: nat)
      requires carrier.Valid()
      modifies carrier`up, carrier`ackPending, carrier`ackSequence, carrier.peer, carrier.peer.streams.Values
      ensures carrier.Valid() && fresh(carrier.peer.streams.Values - old(carrier.peer.streams.Values))
      ensures old(carrier.peer.State()).cursor <= |old(carrier.peer.State()).order|
      ensures ok ==>
                && head.id !in cancelled && carrier.up == old(carrier.up) + 1
                && Carried(head.body, old(carrier.up), frames, filler, old(carrier.peer.State()), valid)
                && carrier.peer.State() == ReceiveAll(old(carrier.peer.State()), frames, valid).0
                && !old(carrier.peer.closed) && !carrier.peer.closed
      ensures !ok ==>
                && carrier.up == old(carrier.up) && carrier.peer.closed
                && (head.id in cancelled
                    || forall fs, n :: !Carried(head.body, carrier.up, fs, n, old(carrier.peer.State()), valid))
    {
      hide IsCell, Ordinary, ReceiveAll, Listed, PeerOk, Multiplexer.Valid, Multiplexer.State, Carrier.Valid;
      carrier.peer.Shows();
      CursorKept();
      ok, frames, filler := head.id !in cancelled, [], 0;
      if ok {
        ghost var before := carrier.peer.State();
        ok, frames, filler := carrier.Receive(head.body, valid);
        carrier.peer.Shows();
        StaysOpen(before, frames, valid);
      }
      if !ok {
        carrier.Shut();
      }
    }

    /** The head of the queue is given to the multiplexer, all its frames in one piece; a cancelled or refused head closes
        the session. */
    method ApplyHead(valid: seq<byte> -> bool) returns (ok: bool, frames: seq<Frame>, ghost filler: nat)
      requires Ordered() && carrier.Valid() && carrier.up in pending
      modifies `pending, `finished, `applied, `given
      modifies carrier`up, carrier`ackPending, carrier`ackSequence, carrier.peer, carrier.peer.streams.Values
      ensures Ordered() && carrier.Valid() && fresh(carrier.peer.streams.Values - old(carrier.peer.streams.Values))
      ensures View() == HeadDone(old(View()), old(carrier.up), ok, frames) && |pending| < |old(pending)|
      ensures old(carrier.peer.State()).cursor <= |old(carrier.peer.State()).order|
      ensures ok ==>
                && old(pending[carrier.up]).id !in cancelled && carrier.up == old(carrier.up) + 1
                && Carried(old(pending[carrier.up]).body, old(carrier.up), frames, filler, old(carrier.peer.State()),
                           valid)
                && carrier.peer.State() == ReceiveAll(old(carrier.peer.State()), frames, valid).0
                && !old(carrier.peer.closed) && !carrier.peer.closed
      ensures !ok ==>
                && carrier.up == old(carrier.up) && carrier.peer.closed
                && (|| old(pending[carrier.up]).id in cancelled
                    || forall fs, n ::
                         !Carried(old(pending[carrier.up]).body, carrier.up, fs, n, old(carrier.peer.State()), valid))
    {
      hide QueueOk, IsCell, Applies, ReceiveAll, Listed, PeerOk, Multiplexer.Valid, Multiplexer.State, Carrier.Valid,
           HeadDone;
      var up, head := carrier.up, pending[carrier.up];
      ghost var q := View();
      ok, frames, filler := GiveCell(head, valid);
      HeadStep(q, up, ok, frames, filler);
      Finish(up, ok, frames);
    }

    /** The head leaves the queue and its request is woken. */
    method Finish(up: u32, ok: bool, ghost frames: seq<Frame>)
      requires up in pending
      modifies `pending, `finished, `applied, `given
      ensures View() == HeadDone(old(View()), up, ok, frames)
    {
      var id := pending[up].id;
      pending, finished := pending - {up}, finished[id := ok];
      if ok {
        applied, given := applied + [id], given + [frames];
      }
    }

    /** A turn of the loop, seen from where the loop started. */
    method DrainOne(valid: seq<byte> -> bool, ghost start: Place) returns (ok: bool)
      requires Ordered() && carrier.Valid() && carrier.up in pending && Draining(start, Now())
      modifies `pending, `finished, `applied, `given
      modifies carrier`up, carrier`ackPending, carrier`ackSequence, carrier.peer, carrier.peer.streams.Values
      ensures Ordered() && carrier.Valid() && fresh(carrier.peer.streams.Values - old(carrier.peer.streams.Values))
      ensures Draining(start, Now()) && old(given) <= given && |pending| < |old(pending)|
      ensures !ok ==> carrier.up !in pending
    {
      hide QueueOk, Multiplexer.Valid, Multiplexer.State, Draining, Carrier.Valid, Ordered, Carried, Listed, ReceiveAll;
      ghost var here := Now();
      var frames;
      ghost var filler;
      ok, frames, filler := ApplyHead(valid);
      if ok {
        DrainingMore(start, here);
      } else {
        DrainingFailure(start, here);
      }
    }

    /** The loop of orderedUpload: as long as the next cell is there, it is given to the multiplexer. */
    method Drain(valid: seq<byte> -> bool)
      requires Ordered() && carrier.Valid()
      modifies `pending, `finished, `applied, `given
      modifies carrier`up, carrier`ackPending, carrier`ackSequence, carrier.peer, carrier.peer.streams.Values
      ensures Ordered() && carrier.Valid() && fresh(carrier.peer.streams.Values - old(carrier.peer.streams.Values))
      ensures carrier.up !in pending && old(given) <= given && Draining(old(Now()), Now())
    {
      hide QueueOk, Multiplexer.Valid, Multiplexer.State, Draining, Carrier.Valid, Ordered, Now;
      var ok := true;
      DrainingNothing(Now());
      while ok && carrier.up in pending
        invariant Ordered() && carrier.Valid() && fresh(carrier.peer.streams.Values - old(carrier.peer.streams.Values))
        invariant (!ok ==> carrier.up !in pending) && old(given) <= given && Draining(old(Now()), Now())
        decreases |pending|
      {
        ok := DrainOne(valid, old(Now()));
      }
    }

    /** The request takes its place in the queue. */
    method Join(body: seq<byte>, sequence: u32) returns (id: nat)
      requires Ordered() && Admits(pending, carrier.up, sequence) && Numbered(body, sequence)
      modifies `pending, `entered, `nextId
      ensures Ordered() && id == old(nextId) && View() == Admitted(old(View()), sequence, body)
    {
      hide QueueOk, Admits, Numbered;
      EnterStep(View(), carrier.up, sequence, body);
      id, nextId := nextId, nextId + 1;
      entered, pending := entered[id := Ticket(sequence, body)], pending[sequence := Waiting(id, body)];
    }

    /** orderedUpload up to the point where it waits. `late` tells that the request's context has ended already. */
    method Enter(body: seq<byte>, late: bool, valid: seq<byte> -> bool) returns (r: Entry, ghost sequence: u32)
      requires Valid()
      modifies `pending, `finished, `applied, `given, `entered, `nextId
      modifies carrier`up, carrier`ackPending, carrier`ackSequence, carrier.peer, carrier.peer.streams.Values
      ensures Valid() && fresh(carrier.peer.streams.Values - old(carrier.peer.streams.Values))
      ensures r.Turned? ==>
                && View() == old(View())
                && carrier.up == old(carrier.up) && carrier.peer.State() == old(carrier.peer.State())
                && (|| late || |body| !in {512, 4096, 16384, 131072} || NoCell(body)
                    || (Numbered(body, sequence)
                        && (|| sequence < carrier.up || sequence >= carrier.up + MAX_PENDING
                            || |pending| >= MAX_PENDING || sequence in pending)))
      ensures r.Entered? ==>
                && !late && |body| in {512, 4096, 16384, 131072} && Numbered(body, sequence)
                && old(carrier.up) <= sequence < old(carrier.up) + MAX_PENDING
                && |old(pending)| < MAX_PENDING && sequence !in old(pending)
                && r.id == old(nextId) && entered == old(entered)[r.id := Ticket(sequence, body)]
                && Draining(old(Now()).(pending := old(pending)[sequence := Waiting(r.id, body)]), Now())
    {
      hide QueueOk, IsCell, NoCell, Multiplexer.Valid, Multiplexer.State, Draining, Carrier.Valid, Numbered;
      r, sequence := Turned, 0;
      if late || !UploadSize(|body|) {
        return;
      }
      var d := Decode(body);
      if d.Bad? {
        return;
      }
      sequence := d.value.sequence;
      CellNumber(body, sequence, d.value.frames, d.value.filler);
      var next := carrier.up;
      if d.value.sequence < next || d.value.sequence - next >= MAX_PENDING
         || |pending| >= MAX_PENDING || d.value.sequence in pending {
        return;
      }
      var id := Join(body, d.value.sequence);
      Drain(valid);
      return Entered(id), sequence;
    }

    /** The end of the wait. `impatient` tells that the context, the carrier or the timer has ended it; when the cell has
        been dealt with as well, either may be noticed. An error closes the session. Success is reported only when the
        request's own cell and every cell before it have been applied. */
    method Leave(id: nat, sequence: u32, impatient: bool) returns (ok: bool)
      requires Valid() && id in entered && entered[id].sequence == sequence
      requires (sequence in pending && pending[sequence].id == id) || id in finished
      requires impatient || id in finished
      modifies `pending, carrier.peer`closed
      ensures Valid()
      ensures ok ==> firstUp <= sequence < carrier.up && AppliedInTurn(View(), id, carrier.up)
      ensures ok ==> carrier.peer.closed == old(carrier.peer.closed)
      ensures !ok ==> carrier.peer.closed
      ensures ok <==> !impatient && finished[id]
      ensures pending == if sequence in old(pending) && old(pending)[sequence].id == id
                         then old(pending) - {sequence} else old(pending)
    {
      hide QueueOk, Multiplexer.Valid, Multiplexer.State, AppliedInTurn;
      LeaveStep(View(), carrier.up, sequence);
      ok := !impatient && finished[id];
      if sequence in pending && pending[sequence].id == id {
        pending := pending - {sequence};
      }
      if ok {
        FinishedInTurn(View(), carrier.up, id);
        TurnBounds(View(), id, carrier.up);
      } else {
        carrier.peer.Close();
      }
    }

    /** A request told of success gave its own cell to the multiplexer, once, after every cell with a smaller number. */
    lemma SuccessMeansApplied(id: nat, i: nat)
      requires Valid() && id in finished && finished[id]
      ensures AppliedInTurn(View(), id, carrier.up)
      ensures i < |applied| && applied[i] == id ==> firstUp + i == entered[id].sequence
    {
      FinishedInTurn(View(), carrier.up, id);
      if i < |applied| && applied[i] == id {
        GivenOnce(View(), carrier.up, i, entered[id].sequence - firstUp);
      }
    }

    /** At most eight cells wait, all inside the window above the next one. */
    lemma WindowBound()
      requires Valid()
      ensures |pending| < MAX_PENDING
      ensures forall k :: k in pending ==> carrier.up < k < carrier.up + MAX_PENDING
    {
      hide Numbered;
      WindowSize(pending, carrier.up, MAX_PENDING - 1);
    }
  }

  lemma {:induction false} WindowSize(m: map<u32, Waiting>, up: u32, n: nat)
    requires forall k :: k in m ==> up < k <= up + n
    ensures |m| <= n
  {
    if n == 0 {
      assert m == map[];
    } else if up + n in m {
      assert m == (m - {up + n})[up + n := m[up + n]];
      assert (m - {up + n}).Keys == m.Keys - {up + n};
      WindowSize(m - {up + n}, up, n - 1);
    } else {
      WindowSize(m, up, n - 1);
    }
  }
}
