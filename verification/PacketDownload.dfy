/** What the output side of internal/packet/conn.go means: everything ever written, cut into numbered blocks, of which
    those at or above the floor can still be replayed to the download request that holds the newest generation. */
module PacketDownload {
  import opened Bytes
  import opened PacketUpload

  const REPLAY_LIMIT := 8 * 1024 * 1024
  const REPLAY_SLOTS := 512

  datatype Block = Block(sequence: u64, body: seq<byte>)

  datatype Replay = Replay(history: seq<seq<byte>>, floor: nat, generation: u64, attached: bool)

  /** The bytes kept for replay. */
  function Kept(r: Replay): nat
    requires r.floor <= |r.history|
  {
    |Concat(r.history[r.floor..])|
  }

  ghost predicate ReplayOk(r: Replay) {
    && r.floor <= |r.history| <= MAX_U64
    && (forall i :: 0 <= i < |r.history| ==> LegalBody(r.history[i]))
    && |r.history| - r.floor <= REPLAY_SLOTS
    && Kept(r) <= REPLAY_LIMIT
  }

  /** Why the writer has to wait before it stores n more bytes. */
  predicate NoRoom(r: Replay, n: nat)
    requires r.floor <= |r.history|
  {
    n > REPLAY_LIMIT - Kept(r) || |r.history| - r.floor >= REPLAY_SLOTS
  }

  function Append(r: Replay, body: seq<byte>): Replay {
    r.(history := r.history + [body])
  }

  /** ackLocked: blocks below `next` are released. */
  function Release(r: Replay, next: u64): (Replay, Option<Fault>) {
    if next > |r.history| then (r, Some(OutOfWindow))
    else if next < r.floor then (r, Some(Gone))
    else (r.(floor := next), None)
  }

  /** Ack: an acknowledgement that comes late is no error. */
  function Acknowledge(r: Replay, next: u64): (Replay, Option<Fault>) {
    if next < r.floor then (r, None) else Release(r, next)
  }

  function AttachTo(r: Replay, generation: u64, next: u64): (Replay, Option<Fault>) {
    if generation == 0 || (r.attached && generation <= r.generation) then (r, Some(Stale))
    else
      var (q, fault) := Release(r, next);
      if fault.Some? then (q, fault) else (q.(generation := generation, attached := true), None)
  }

  datatype Fetched = Got(block: Block) | Wait | Failed(fault: Fault)

  /** Next, up to the point where it would wait. */
  function Fetch(r: Replay, generation: u64, next: u64): Fetched {
    if !r.attached || generation != r.generation then Failed(Stale)
    else if next < r.floor then Failed(Gone)
    else if next > |r.history| then Failed(OutOfWindow)
    else if next < |r.history| then Got(Block(next, r.history[next]))
    else Wait
  }

  lemma AppendKeeps(r: Replay, body: seq<byte>)
    requires ReplayOk(r) && LegalBody(body) && !NoRoom(r, |body|) && |r.history| < MAX_U64
    ensures ReplayOk(Append(r, body)) && Kept(Append(r, body)) == Kept(r) + |body|
  {
    assert Append(r, body).history[r.floor..] == r.history[r.floor..] + [body];
    ConcatSnoc(r.history[r.floor..], body);
  }

  lemma ReleaseKeeps(r: Replay, next: u64)
    requires ReplayOk(r)
    ensures ReplayOk(Release(r, next).0)
  {
    if r.floor <= next <= |r.history| {
      SplitSuffix(r.history, r.floor, next);
      ConcatAppend(r.history[r.floor..next], r.history[next..]);
    }
  }

  // ---------------------------------------------------------------- cutting bytes into blocks

  /** The blocks of the given size, the last one possibly shorter. */
  function Pieces(p: seq<byte>, size: nat): seq<seq<byte>>
    requires size > 0
    decreases |p|
  {
    if p == [] then []
    else [p[..Min(|p|, size)]] + Pieces(p[Min(|p|, size)..], size)
  }

  lemma {:induction false} PiecesJoin(p: seq<byte>, size: nat)
    requires size > 0
    ensures Concat(Pieces(p, size)) == p
    decreases |p|
  {
    if p != [] {
      var n := Min(|p|, size);
      PiecesJoin(p[n..], size);
      ConcatCons(p[..n], Pieces(p[n..], size));
      assert p == p[..n] + p[n..];
    }
  }

  lemma PiecesWhole(p: seq<byte>, size: nat)
    requires size > 0 && 0 < |p| <= size
    ensures Pieces(p, size) == [p]
  {
    assert p[..|p|] == p && p[|p|..] == [];
  }

  /** A writer that had to wait goes on with the same blocks: it stops only between blocks. */
  lemma {:induction false} PiecesResume(p: seq<byte>, size: nat, w: nat, n: nat)
    requires size > 0 && w <= |p| && (w == n * size || w == |p|)
    ensures Pieces(p, size) == Pieces(p[..w], size) + Pieces(p[w..], size)
    decreases |p|
  {
    if w == |p| {
      assert p[..w] == p && p[w..] == [];
    } else if n == 0 {
      assert p[..w] == [] && p[w..] == p;
    } else {
      assert n * size == size + (n - 1) * size;
      assert (n - 1) * size >= 0;
      PiecesResume(p[size..], size, w - size, n - 1);
      PiecesFirst(p, size);
      PiecesFirst(p[..w], size);
      TakeDrop(p, size, w);
      hide Pieces;
      Assoc([p[..size]], Pieces(p[..w][size..], size), Pieces(p[w..], size));
    }
  }

  lemma PiecesFirst(p: seq<byte>, size: nat)
    requires 0 < size <= |p|
    ensures Pieces(p, size) == [p[..size]] + Pieces(p[size..], size)
  {
  }

  lemma TakeDrop(p: seq<byte>, n: nat, w: nat)
    requires n <= w <= |p|
    ensures p[n..][..w - n] == p[..w][n..] && p[n..][w - n..] == p[w..] && p[..w][..n] == p[..n]
  {
  }

  /** All blocks but the last have the full size, and the last has what is left. */
  lemma {:induction false} PiecesSizes(p: seq<byte>, size: nat, count: nat)
    requires size > 0 && count > 0 && (count - 1) * size < |p| <= count * size
    ensures var bs := Pieces(p, size);
            && |bs| == count
            && (forall i :: 0 <= i < count - 1 ==> |bs[i]| == size)
            && |bs[count - 1]| == |p| - (count - 1) * size
    decreases |p|
  {
    if count == 1 {
      PiecesWhole(p, size);
    } else {
      assert (count - 1) * size == size + (count - 2) * size;
      assert (count - 2) * size >= 0;
      PiecesSizes(p[size..], size, count - 1);
      assert count * size == size + (count - 1) * size;
    }
  }

  // ---------------------------------------------------------------- Uncork

  /** How many blocks Uncork makes. */
  function BlockCount(length: nat): nat {
    (length + MAX_BLOCK - 1) / MAX_BLOCK
  }

  function EvenSize(length: nat): nat
    requires length > 0
  {
    (length + BlockCount(length) - 1) / BlockCount(length)
  }

  lemma EvenSizeFits(length: nat)
    requires length > 0
    ensures var c, s := BlockCount(length), EvenSize(length);
            0 < s <= MAX_BLOCK && 0 < c && (c - 1) * s < length <= c * s && c * s - length < c
  {
    var c, s := BlockCount(length), EvenSize(length);
    assert (c - 1) * MAX_BLOCK < length <= c * MAX_BLOCK;
    DivisionRemainder(length + c - 1, c);
    assert c * s <= length + c - 1 < c * s + c;
    if s > MAX_BLOCK {
      MulGap(c, MAX_BLOCK, s);
      assert false;
    }
    MulGrows(c - 1, s, MAX_BLOCK);
    assert s == 0 ==> c * s == 0;
  }

  lemma MulGap(c: nat, a: nat, b: nat)
    requires a < b
    ensures c * a + c <= c * b
  {
    MulGrows(c, a + 1, b);
  }

  lemma DivisionRemainder(x: nat, c: nat)
    requires c > 0
    ensures c * (x / c) <= x < c * (x / c) + c
  {
  }

  lemma MulGrows(c: nat, a: nat, b: nat)
    requires a <= b
    ensures c * a <= c * b
  {
  }

  /** No way to cut the bytes into blocks of at most 64 KiB needs fewer blocks. */
  lemma {:induction false} FewestBlocks(parts: seq<seq<byte>>)
    requires forall i :: 0 <= i < |parts| ==> |parts[i]| <= MAX_BLOCK
    ensures |Concat(parts)| <= |parts| * MAX_BLOCK
    ensures BlockCount(|Concat(parts)|) <= |parts|
  {
    hide BlockCount;
    if parts != [] {
      FewestBlocks(parts[1..]);
    }
    CountFits(|Concat(parts)|, |parts|);
  }

  lemma CountFits(length: nat, n: nat)
    requires length <= n * MAX_BLOCK
    ensures BlockCount(length) <= n
  {
  }

  /** Uncork cuts the corked bytes into as few blocks as possible, all legal, whose sizes differ by less than the
      number of blocks, and which concatenate to the corked bytes. */
  lemma UncorkIsEven(data: seq<byte>)
    requires data != []
    ensures EvenSize(|data|) > 0
    ensures var bs := Pieces(data, EvenSize(|data|));
            && |bs| == BlockCount(|data|)
            && Concat(bs) == data
            && (forall i :: 0 <= i < |bs| ==> LegalBody(bs[i]))
            && (forall i :: 0 <= i < |bs| - 1 ==> |bs[i]| == EvenSize(|data|))
            && |bs[|bs| - 1]| > EvenSize(|data|) - |bs|
            && (forall parts :: (forall i :: 0 <= i < |parts| ==> |parts[i]| <= MAX_BLOCK) && Concat(parts) == data
                  ==> |bs| <= |parts|)
  {
    hide BlockCount, EvenSize, Concat, Pieces;
    var c, s := BlockCount(|data|), EvenSize(|data|);
    EvenSizeFits(|data|);
    PiecesSizes(data, s, c);
    PiecesJoin(data, s);
    LastPiece(|data|, c, s);
    forall parts: seq<seq<byte>> | (forall i :: 0 <= i < |parts| ==> |parts[i]| <= MAX_BLOCK) && Concat(parts) == data
      ensures c <= |parts|
    {
      FewestBlocks(parts);
    }
  }

  lemma LastPiece(length: nat, c: nat, s: nat)
    requires 0 < c && c * s - length < c && (c - 1) * s < length <= c * s
    ensures s - c < length - (c - 1) * s <= s
  {
    assert c * s == (c - 1) * s + s;
  }
}
