/** Downloads that break and resume (downloadPacket in packet.go, Attach/Next/Ack in internal/packet/conn.go). A client
    keeps a cursor and a generation. Each download request it makes may arrive late, twice or never; each response is
    a stream of blocks that may break anywhere; acknowledgements may arrive at any later time. */
module PacketResume {
  import opened Bytes
  import opened PacketUpload
  import opened PacketDownload

  /** A download request, and the response that serves it: the handler's cursor and the blocks not yet received. */
  datatype Request = Request(generation: u64, cursor: u64)
  datatype Response = Response(cursor: nat, queue: seq<Block>)

  datatype Link = Link(
    server: Replay, responses: map<u64, Response>,              // the origin
    generation: u64, cursor: nat, got: seq<byte>,               // the client
    requests: seq<Request>, acks: seq<nat>)                     // everything the client ever sent

  datatype Event =
    | Written(body: seq<byte>)
    | Reconnect
    | RequestArrives(i: nat)
    | BlockServed(generation: u64)
    | BlockReceived
    | AckSent
    | AckArrives(i: nat)

  function Start(): Link {
    Link(Replay([], 0, 0, false), map[], 0, 0, [], [], [])
  }

  predicate Enabled(n: Link, e: Event)
    requires n.server.floor <= |n.server.history|
  {
    match e
    case Written(body) => LegalBody(body) && !NoRoom(n.server, |body|) && |n.server.history| < MAX_U64
    case Reconnect => n.generation < MAX_U64 && n.cursor <= MAX_U64
    case RequestArrives(i) => i < |n.requests|
    case BlockServed(g) =>
      g in n.responses && n.responses[g].cursor <= MAX_U64 && Fetch(n.server, g, n.responses[g].cursor).Got?
    case BlockReceived =>
      && n.generation in n.responses && n.responses[n.generation].queue != []
      && n.responses[n.generation].queue[0].sequence == n.cursor
    case AckSent => true
    case AckArrives(i) => i < |n.acks| && n.acks[i] <= MAX_U64
  }

  function Arrive(n: Link, q: Request): Link {
    var (server, fault) := AttachTo(n.server, q.generation, q.cursor);
    if fault.Some? then n
    else n.(server := server, responses := n.responses[q.generation := Response(q.cursor, [])])
  }

  function Serve(n: Link, g: u64): Link
    requires g in n.responses && n.responses[g].cursor <= MAX_U64 && Fetch(n.server, g, n.responses[g].cursor).Got?
  {
    var r := n.responses[g];
    var block := Fetch(n.server, g, r.cursor).block;
    n.(responses := n.responses[g := Response(r.cursor + 1, r.queue + [block])])
  }

  function Receive(n: Link): Link
    requires n.generation in n.responses && n.responses[n.generation].queue != []
  {
    var r := n.responses[n.generation];
    n.(responses := n.responses[n.generation := r.(queue := r.queue[1..])],
       cursor := n.cursor + 1, got := n.got + r.queue[0].body)
  }

  function Step(n: Link, e: Event): (m: Link)
    requires n.server.floor <= |n.server.history|
    ensures m.server.floor <= |m.server.history|
  {
    if !Enabled(n, e) then n
    else match e
      case Written(body) => n.(server := Append(n.server, body))
      case Reconnect =>
        n.(generation := n.generation + 1, requests := n.requests + [Request(n.generation + 1, n.cursor)])
      case RequestArrives(i) => Arrive(n, n.requests[i])
      case BlockServed(g) => Serve(n, g)
      case BlockReceived => Receive(n)
      case AckSent => n.(acks := n.acks + [n.cursor])
      case AckArrives(i) => n.(server := Acknowledge(n.server, n.acks[i]).0)
  }

  // ---------------------------------------------------------------- the invariant

  /** The client has every block below its cursor, once and in order, and the origin keeps the others. */
  ghost predicate ClientOk(n: Link) {
    && ReplayOk(n.server)
    && n.server.floor <= n.cursor <= |n.server.history|
    && n.got == Concat(n.server.history[..n.cursor])
  }

  /** Nothing the client sent is ahead of its cursor; request i carries generation i + 1. */
  ghost predicate SentOk(n: Link) {
    && |n.requests| == n.generation
    && (forall i :: 0 <= i < |n.requests| ==> n.requests[i].generation == i + 1 && n.requests[i].cursor <= n.cursor)
    && (forall i :: 0 <= i < |n.acks| ==> n.acks[i] <= n.cursor)
  }

  /** The request is newer than all that the origin has granted. */
  predicate Newer(n: Link, i: nat)
    requires i < |n.requests|
  {
    !n.server.attached || n.requests[i].generation > n.server.generation
  }

  /** Blocks of the response, from the client's cursor on. */
  ghost predicate Continues(n: Link, r: Response) {
    && r.cursor == n.cursor + |r.queue| <= |n.server.history| <= MAX_U64
    && forall k :: 0 <= k < |r.queue| ==> r.queue[k] == Block(n.cursor + k, n.server.history[n.cursor + k])
  }

  /** The origin serves the newest generation that arrived; the client's own response continues at its cursor, and every
      request still to be granted asks for just that cursor. */
  ghost predicate ServedOk(n: Link) {
    && (forall g :: g in n.responses ==> n.server.attached && 1 <= g <= n.server.generation)
    && (n.server.attached ==> n.server.generation <= n.generation && n.server.generation in n.responses)
    && (n.generation in n.responses ==> Continues(n, n.responses[n.generation]))
    && (forall i :: 0 <= i < |n.requests| && Newer(n, i) ==> n.requests[i].cursor == n.cursor)
  }

  ghost predicate Good(n: Link) {
    ClientOk(n) && SentOk(n) && ServedOk(n)
  }

  lemma WrittenKeeps(n: Link, body: seq<byte>)
    requires Good(n) && Enabled(n, Written(body))
    ensures Good(Step(n, Written(body)))
  {
    AppendKeeps(n.server, body);
    hide ReplayOk;
    assert Append(n.server, body).history[..n.cursor] == n.server.history[..n.cursor];
  }

  lemma ArriveKeeps(n: Link, i: nat)
    requires Good(n) && i < |n.requests|
    ensures Good(Arrive(n, n.requests[i]))
  {
    hide ReplayOk, Continues, AttachTo;
    AttachKeeps(n.server, n.requests[i], n.cursor);
    if Arrive(n, n.requests[i]) != n {
      ArriveServes(n, i);
    }
  }

  /** Granting a request releases blocks below its cursor and nothing else. */
  lemma AttachKeeps(r: Replay, q: Request, cursor: nat)
    requires ReplayOk(r) && r.floor <= cursor && q.cursor <= cursor
    ensures var (s, fault) := AttachTo(r, q.generation, q.cursor);
            && ReplayOk(s) && s.history == r.history && s.floor <= cursor
            && (fault.None? ==> s.attached && s.generation == q.generation && (r.attached ==> q.generation > r.generation))
  {
    hide Concat;
    ReleaseKeeps(r, q.cursor);
  }

  lemma ArriveServes(n: Link, i: nat)
    requires Good(n) && i < |n.requests| && AttachTo(n.server, n.requests[i].generation, n.requests[i].cursor).1.None?
    requires var s := AttachTo(n.server, n.requests[i].generation, n.requests[i].cursor).0;
             && s.attached && s.generation == n.requests[i].generation && s.history == n.server.history
             && (n.server.attached ==> s.generation > n.server.generation)
    ensures ServedOk(Arrive(n, n.requests[i]))
  {
    hide Kept, AttachTo;
    var m := Arrive(n, n.requests[i]);
    assert Newer(n, i);
    assert forall j :: 0 <= j < |m.requests| && Newer(m, j) ==> Newer(n, j);
    if n.requests[i].generation == n.generation {
      assert n.generation !in n.responses;
    }
  }

  lemma ServeKeeps(n: Link, g: u64)
    requires Good(n) && Enabled(n, BlockServed(g))
    ensures Good(Serve(n, g))
  {
    hide ReplayOk;
  }

  lemma ReceiveKeeps(n: Link)
    requires Good(n) && Enabled(n, BlockReceived)
    ensures Good(Receive(n))
  {
    hide ReplayOk;
    var block := n.responses[n.generation].queue[0];
    assert block == Block(n.cursor, n.server.history[n.cursor]);
    assert n.server.history[..n.cursor + 1] == n.server.history[..n.cursor] + [block.body];
    ConcatSnoc(n.server.history[..n.cursor], block.body);
  }

  lemma GoodFloor(n: Link)
    requires Good(n)
    ensures n.server.floor <= |n.server.history|
  {
    hide ReplayOk, SentOk, ServedOk;
  }

  lemma StepKeeps(n: Link, e: Event)
    requires Good(n)
    ensures Good(Step(n, e))
  {
    hide Good, Arrive, Serve, Receive, Append, Acknowledge;
    GoodFloor(n);
    if Enabled(n, e) {
      match e
      case Written(body) => WrittenKeeps(n, body);
      case Reconnect => ReconnectKeeps(n);
      case RequestArrives(i) => ArriveKeeps(n, i);
      case BlockServed(g) => ServeKeeps(n, g);
      case BlockReceived => ReceiveKeeps(n);
      case AckSent => AckSentKeeps(n);
      case AckArrives(i) => AckKeeps(n, i);
    }
  }

  lemma ReconnectKeeps(n: Link)
    requires Good(n) && Enabled(n, Reconnect)
    ensures Good(Step(n, Reconnect))
  {
    hide ReplayOk;
    var m := Step(n, Reconnect);
    assert forall i :: 0 <= i < |n.requests| && Newer(m, i) ==> Newer(n, i);
  }

  lemma AckSentKeeps(n: Link)
    requires Good(n)
    ensures Good(Step(n, AckSent))
  {
    hide ReplayOk;
    var m := Step(n, AckSent);
    assert forall i :: 0 <= i < |n.requests| && Newer(m, i) ==> Newer(n, i);
  }

  lemma AckKeeps(n: Link, i: nat)
    requires Good(n) && Enabled(n, AckArrives(i))
    ensures Good(Step(n, AckArrives(i)))
  {
    hide ReplayOk;
    ReleaseKeeps(n.server, n.acks[i]);
    var m := Step(n, AckArrives(i));
    assert forall j :: 0 <= j < |n.requests| && Newer(m, j) ==> Newer(n, j);
  }

  function Run(n: Link, events: seq<Event>): (m: Link)
    requires n.server.floor <= |n.server.history|
    ensures m.server.floor <= |m.server.history|
    decreases |events|
  {
    if events == [] then n else Run(Step(n, events[0]), events[1..])
  }

  lemma {:induction false} RunKeeps(n: Link, events: seq<Event>)
    requires Good(n)
    ensures Good(Run(n, events))
    decreases |events|
  {
    if events != [] {
      StepKeeps(n, events[0]);
      RunKeeps(Step(n, events[0]), events[1..]);
    }
  }

  // ---------------------------------------------------------------- the theorems

  /** In every run the client's bytes are exactly the blocks below its cursor, and no block at or above the cursor has
      been released. */
  lemma EachBlockOnce(events: seq<Event>)
    ensures var n := Run(Start(), events);
            && n.server.floor <= n.cursor <= |n.server.history|
            && n.got == Concat(n.server.history[..n.cursor])
            && n.got <= Concat(n.server.history)
  {
    RunKeeps(Start(), events);
    var n := Run(Start(), events);
    ConcatPrefix(n.server.history[..n.cursor], n.server.history);
  }

  /** In every run, whichever request of the client arrives, and however late or often: it is granted if it is newer than
      all granted so far, and stale otherwise. No request ever finds its blocks gone, which would end the session. */
  lemma RequestsAreGrantedOrStale(events: seq<Event>, i: nat)
    ensures var n := Run(Start(), events);
            i < |n.requests| ==>
              AttachTo(n.server, n.requests[i].generation, n.requests[i].cursor).1
              == if Newer(n, i) then None else Some(Stale)
  {
    RunKeeps(Start(), events);
  }

  /** In every run a block is served only to the request that holds the newest generation granted; the handler of any
      other response finds itself stale, wherever its cursor stands, and ends. */
  lemma OnlyNewestIsServed(events: seq<Event>, g: u64, next: u64)
    ensures var n := Run(Start(), events);
            && (Enabled(n, BlockServed(g)) ==> n.server.attached && g == n.server.generation)
            && (g in n.responses && g != n.server.generation ==>
                  Fetch(n.server, g, next) == Failed(Stale) && !Enabled(n, BlockServed(g)))
  {
    RunKeeps(Start(), events);
    hide ReplayOk;
  }

  /** The origin has granted a generation above g. */
  predicate Superseded(n: Link, g: u64) {
    n.server.attached && g < n.server.generation
  }

  predicate SameResponse(n: Link, m: Link, g: u64) {
    (g in m.responses <==> g in n.responses) && (g in n.responses ==> m.responses[g] == n.responses[g])
  }

  lemma StepSupersedes(n: Link, e: Event, g: u64)
    requires Good(n) && n.server.floor <= |n.server.history| && Superseded(n, g)
    ensures Superseded(Step(n, e), g) && SameResponse(n, Step(n, e), g)
  {
    hide ReplayOk, Continues, Concat, Kept;
  }

  lemma {:induction false} StaysSuperseded(n: Link, events: seq<Event>, g: u64)
    requires Good(n) && n.server.floor <= |n.server.history| && Superseded(n, g)
    ensures Superseded(Run(n, events), g) && SameResponse(n, Run(n, events), g)
    decreases |events|
  {
    hide Step, Good;
    if events != [] {
      StepKeeps(n, events[0]);
      StepSupersedes(n, events[0], g);
      StaysSuperseded(Step(n, events[0]), events[1..], g);
    }
  }

  /** Once a generation is granted, no older one is served or left waiting, whatever follows: its request is refused if
      it comes again, its handler finds itself stale, and its response gets no further block. */
  lemma OldGenerationsAreOver(before: seq<Event>, after: seq<Event>, g: u64, next: u64)
    ensures var n := Run(Start(), before);
            var m := Run(n, after);
            Superseded(n, g) ==>
              && SameResponse(n, m, g)
              && !Enabled(m, BlockServed(g))
              && Fetch(m.server, g, next) == Failed(Stale)
              && AttachTo(m.server, g, next) == (m.server, Some(Stale))
  {
    RunKeeps(Start(), before);
    var n := Run(Start(), before);
    if Superseded(n, g) {
      StaysSuperseded(n, after, g);
    }
  }

  /** In every run every acknowledgement is accepted, however late or often it arrives. */
  lemma AcksAreAccepted(events: seq<Event>, i: nat)
    ensures var n := Run(Start(), events);
            i < |n.acks| ==> n.acks[i] <= MAX_U64 && Acknowledge(n.server, n.acks[i]).1 == None
  {
    RunKeeps(Start(), events);
  }

  /** In every run a response of the client's current generation delivers the block at the client's cursor next, and
      its handler never finds a block gone: it serves one or waits for one. */
  lemma CurrentResponseContinues(events: seq<Event>)
    ensures var n := Run(Start(), events);
            n.generation in n.responses ==>
              var r := n.responses[n.generation];
              && (r.queue != [] ==> r.queue[0].sequence == n.cursor)
              && r.cursor <= |n.server.history| <= MAX_U64
              && var f := Fetch(n.server, n.generation, r.cursor);
                 f == if r.cursor < |n.server.history| then Got(Block(r.cursor, n.server.history[r.cursor])) else Wait
  {
    RunKeeps(Start(), events);
    hide ReplayOk;
  }
}
