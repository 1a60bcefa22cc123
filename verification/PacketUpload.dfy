/** What the upload side of internal/packet/conn.go means: an ordered log of blocks. Blocks arrive in any order and any
    number of times; the log holds the applied ones in sequence, the early ones that wait for a predecessor, and how
    many bytes the reader has consumed. */
module PacketUpload {
  import opened Bytes

  const MAX_BLOCK := 64 * 1024
  const UPLOAD_SLOTS := 16
  const UPLOAD_LIMIT := UPLOAD_SLOTS * MAX_BLOCK
  const RECEIPT_COUNT := 2 * UPLOAD_SLOTS

  /** The errors of a connection; `Other` is one that its owner closes it with. */
  datatype Fault = OutOfWindow | Conflict | Full | Gone | Stale | Closed | Late | Other(code: nat)

  datatype Log = Log(applied: seq<seq<byte>>, held: map<u64, seq<byte>>, consumed: nat)

  predicate LegalBody(body: seq<byte>) {
    0 < |body| <= MAX_BLOCK
  }

  /** Bytes of the held blocks numbered from `at` up to but excluding `at + n`. */
  function HeldBytes(held: map<u64, seq<byte>>, at: nat, n: nat): nat
    decreases n
  {
    if n == 0 then 0 else (if at in held then |held[at]| else 0) + HeldBytes(held, at + 1, n - 1)
  }

  /** Applied bytes that nobody has read yet. */
  function Unread(l: Log): int {
    |Concat(l.applied)| - l.consumed
  }

  function Retained(l: Log): int {
    Unread(l) + HeldBytes(l.held, |l.applied|, UPLOAD_SLOTS)
  }

  /** The invariant of the log. */
  ghost predicate LogOk(l: Log) {
    && |l.applied| <= MAX_U64
    && (forall i :: 0 <= i < |l.applied| ==> LegalBody(l.applied[i]))
    && (forall k :: k in l.held ==> |l.applied| < k < |l.applied| + UPLOAD_SLOTS && k < MAX_U64 && LegalBody(l.held[k]))
    && 0 <= Unread(l)
    && Retained(l) <= UPLOAD_LIMIT
  }

  /** Held blocks whose turn has come are applied. */
  function Settle(l: Log): Log
    decreases |l.held|
  {
    if |l.applied| <= MAX_U64 && |l.applied| in l.held
    then HeldShrinks(l); Settle(Apply(l)) else l
  }

  function Apply(l: Log): Log
    requires |l.applied| <= MAX_U64 && |l.applied| in l.held
  {
    Log(l.applied + [l.held[|l.applied|]], l.held - {|l.applied|}, l.consumed)
  }

  lemma HeldShrinks(l: Log)
    requires |l.applied| <= MAX_U64 && |l.applied| in l.held
    ensures |Apply(l).held| < |l.held|
  {
    assert l.held == Apply(l).held[|l.applied| := l.held[|l.applied|]];
    assert Apply(l).held.Keys == l.held.Keys - {|l.applied| as u64};
  }

  /** What a connection answers to an authenticated block, and the log afterwards. */
  function Answer(l: Log, sequence: u64, body: seq<byte>, digest: seq<byte> -> seq<byte>): (Log, Option<Fault>) {
    var next := |l.applied|;
    if !LegalBody(body) then (l, Some(OutOfWindow))
    else if sequence < next then
      if next - sequence > RECEIPT_COUNT then (l, Some(Gone))
      else if digest(l.applied[sequence]) != digest(body) then (l, Some(Conflict))
      else (l, None)
    else if sequence == MAX_U64 || sequence - next >= UPLOAD_SLOTS then (l, Some(OutOfWindow))
    else if sequence in l.held then
      (l, if digest(l.held[sequence]) != digest(body) then Some(Conflict) else None)
    else if |body| > UPLOAD_LIMIT - Retained(l) then (l, Some(Full))
    else (Settle(l.(held := l.held[sequence := body])), None)
  }

  /** The reader takes n bytes. */
  function Consume(l: Log, n: nat): Log {
    l.(consumed := l.consumed + n)
  }

  // ---------------------------------------------------------------- bytes held

  lemma {:induction false} HeldAbsent(held: map<u64, seq<byte>>, at: nat, n: nat)
    requires forall k :: at <= k < at + n ==> k !in held
    ensures HeldBytes(held, at, n) == 0
    decreases n
  {
    if n > 0 {
      HeldAbsent(held, at + 1, n - 1);
    }
  }

  lemma {:induction false} HeldAgree(a: map<u64, seq<byte>>, b: map<u64, seq<byte>>, at: nat, n: nat)
    requires forall k: u64 :: at <= k < at + n ==> (k in a <==> k in b) && (k in a ==> a[k] == b[k])
    ensures HeldBytes(a, at, n) == HeldBytes(b, at, n)
    decreases n
  {
    if n > 0 {
      HeldAgree(a, b, at + 1, n - 1);
    }
  }

  lemma {:induction false} HeldInsert(held: map<u64, seq<byte>>, at: nat, n: nat, k: u64, body: seq<byte>)
    requires at <= k < at + n && k !in held
    ensures HeldBytes(held[k := body], at, n) == HeldBytes(held, at, n) + |body|
    decreases n
  {
    if k == at {
      HeldAgree(held, held[k := body], at + 1, n - 1);
    } else {
      HeldInsert(held, at + 1, n - 1, k, body);
    }
  }

  lemma {:induction false} HeldLast(held: map<u64, seq<byte>>, at: nat, n: nat)
    requires at + n !in held
    ensures HeldBytes(held, at, n + 1) == HeldBytes(held, at, n)
    decreases n
  {
    if n > 0 {
      HeldLast(held, at + 1, n - 1);
    }
  }

  /** At most n blocks of at most 64 KiB. */
  lemma {:induction false} HeldBounded(held: map<u64, seq<byte>>, at: nat, n: nat)
    requires forall k :: k in held ==> |held[k]| <= MAX_BLOCK
    ensures HeldBytes(held, at, n) <= n * MAX_BLOCK
    decreases n
  {
    if n > 0 {
      HeldBounded(held, at + 1, n - 1);
    }
  }

  // ---------------------------------------------------------------- settling

  /** While blocks settle the head of the window may be present. */
  ghost predicate Settling(l: Log) {
    && |l.applied| <= MAX_U64
    && (forall i :: 0 <= i < |l.applied| ==> LegalBody(l.applied[i]))
    && (forall k :: k in l.held ==> |l.applied| <= k < |l.applied| + UPLOAD_SLOTS && k < MAX_U64 && LegalBody(l.held[k]))
    && 0 <= Unread(l)
    && Retained(l) <= UPLOAD_LIMIT
  }

  lemma InsertSettling(l: Log, sequence: u64, body: seq<byte>)
    requires LogOk(l) && LegalBody(body) && sequence !in l.held && |l.applied| <= sequence < |l.applied| + UPLOAD_SLOTS
    requires sequence < MAX_U64 && |body| <= UPLOAD_LIMIT - Retained(l)
    ensures Settling(l.(held := l.held[sequence := body]))
    ensures Retained(l.(held := l.held[sequence := body])) == Retained(l) + |body|
  {
    hide HeldBytes, Concat;
    HeldInsert(l.held, |l.applied|, UPLOAD_SLOTS, sequence, body);
  }

  lemma HeldRemove(held: map<u64, seq<byte>>, at: u64, n: nat)
    requires at in held && at + n !in held && n > 0
    ensures HeldBytes(held - {at}, at + 1, n) == HeldBytes(held, at, n) - |held[at]|
  {
    HeldAgree(held, held - {at}, at + 1, n - 1);
    HeldLast(held - {at}, at + 1, n - 1);
  }

  lemma ApplyRetains(l: Log)
    requires |l.applied| < MAX_U64 && |l.applied| in l.held && |l.applied| + UPLOAD_SLOTS !in l.held
    ensures Retained(Apply(l)) == Retained(l)
    ensures Unread(Apply(l)) == Unread(l) + |l.held[|l.applied|]|
  {
    ConcatSnoc(l.applied, l.held[|l.applied|]);
    HeldRemove(l.held, |l.applied|, UPLOAD_SLOTS);
    hide Concat, HeldBytes;
  }

  /** Applying a held block moves its bytes from the window to the unread input. */
  lemma ApplySettling(l: Log)
    requires Settling(l) && |l.applied| in l.held
    ensures Settling(Apply(l)) && Retained(Apply(l)) == Retained(l)
    ensures Unread(Apply(l)) == Unread(l) + |l.held[|l.applied|]|
  {
    hide Retained, Unread, LegalBody;
    ApplyRetains(l);
  }

  lemma {:induction false} SettleOk(l: Log)
    requires Settling(l)
    ensures LogOk(Settle(l)) && Retained(Settle(l)) == Retained(l)
    decreases |l.held|
  {
    if |l.applied| in l.held {
      HeldShrinks(l);
      ApplySettling(l);
      SettleOk(Apply(l));
    }
  }

  /** The blocks applied since l are the held ones that follow without a gap, in order, each once. */
  ghost predicate Ran(l: Log, q: Log) {
    && l.applied <= q.applied && |q.applied| <= MAX_U64
    && (forall i: u64 :: |l.applied| <= i < |q.applied| ==> i in l.held && q.applied[i] == l.held[i])
    && q.consumed == l.consumed
  }

  lemma RanNowhere(l: Log)
    requires Settling(l)
    ensures Ran(l, l) && |l.applied| <= MAX_U64
  {
    hide Unread, Retained, LegalBody;
  }

  lemma RanOn(l: Log, q: Log)
    requires Settling(l) && |l.applied| in l.held && Ran(Apply(l), q)
    ensures Ran(l, q)
  {
    hide Unread, Retained, LegalBody;
    var at: u64, r := |l.applied|, Apply(l);
    forall i: u64 | |l.applied| <= i < |q.applied| ensures i in l.held && q.applied[i] == l.held[i] {
      if i == at {
        assert q.applied[at] == r.applied[at] == l.held[at];
      } else {
        assert |r.applied| <= i && i in r.held;
      }
    }
  }

  /** Settling applies the blocks that follow without a gap, in order, each once, and stops at the first gap. */
  lemma {:induction false} SettleRun(l: Log)
    requires Settling(l)
    ensures Ran(l, Settle(l)) && |Settle(l).applied| !in l.held
    decreases |l.held|
  {
    hide Settle, Settling, Ran;
    RanNowhere(l);
    SettleTurn(l);
    if |l.applied| in l.held {
      HeldShrinks(l);
      ApplySettling(l);
      SettleRun(Apply(l));
      RanOn(l, Settle(l));
      RanPast(Apply(l), Settle(l));
    }
  }

  lemma RanPast(l: Log, q: Log)
    requires Ran(l, q)
    ensures |q.applied| >= |l.applied|
  {
  }

  lemma SettleTurn(l: Log)
    requires |l.applied| <= MAX_U64
    ensures Settle(l) == if |l.applied| in l.held then Settle(Apply(l)) else l
  {
  }

  /** What still waits afterwards is what lay beyond the gap. */
  lemma {:induction false} SettleHeld(l: Log)
    requires Settling(l)
    ensures var q := Settle(l);
            && l.applied <= q.applied
            && (forall k: u64 :: k in q.held <==> k in l.held && k > |q.applied|)
            && (forall k: u64 :: k in q.held ==> q.held[k] == l.held[k])
    decreases |l.held|
  {
    hide Settle, Unread, Retained, LegalBody;
    SettleTurn(l);
    if |l.applied| in l.held {
      HeldShrinks(l);
      ApplySettling(l);
      SettleHeld(Apply(l));
    }
  }

  // ---------------------------------------------------------------- properties of the answers

  /** Every answer keeps the window and the 1 MiB bound, and never takes an applied block back. */
  lemma AnswerKeeps(l: Log, sequence: u64, body: seq<byte>, digest: seq<byte> -> seq<byte>)
    requires LogOk(l)
    ensures var (q, fault) := Answer(l, sequence, body, digest);
            LogOk(q) && l.applied <= q.applied && q.consumed == l.consumed && (fault.Some? ==> q == l)
  {
    hide Settle, Settling, Unread, HeldBytes;
    if Answer(l, sequence, body, digest).0 != l {
      InsertSettling(l, sequence, body);
      SettleOk(l.(held := l.held[sequence := body]));
      SettleRun(l.(held := l.held[sequence := body]));
    }
  }

  lemma ConsumeKeeps(l: Log, n: nat)
    requires LogOk(l) && n <= Unread(l)
    ensures LogOk(Consume(l, n)) && Retained(Consume(l, n)) == Retained(l) - n
  {
  }

  /** The block is applied, or waits for a predecessor. */
  predicate Stored(l: Log, k: u64) {
    k < |l.applied| || k in l.held
  }

  /** A block that is accepted is stored, and what is stored stays so. */
  lemma AnswerStores(l: Log, sequence: u64, body: seq<byte>, digest: seq<byte> -> seq<byte>, k: u64)
    requires LogOk(l)
    ensures var (q, fault) := Answer(l, sequence, body, digest);
            && (Stored(l, k) ==> Stored(q, k))
            && (fault.None? ==> Stored(q, sequence))
  {
    hide Settle, Settling, Retained, Unread, LegalBody;
    if Answer(l, sequence, body, digest).1.None? && !Stored(l, sequence) {
      var more := l.(held := l.held[sequence := body]);
      InsertSettling(l, sequence, body);
      SettleRun(more);
      SettleHeld(more);
    }
  }

  /** A retry right after the block was stored never comes too late: at most sixteen blocks settle at once. */
  lemma RetryInTime(l: Log, sequence: u64, body: seq<byte>, digest: seq<byte> -> seq<byte>)
    requires LogOk(l) && Answer(l, sequence, body, digest).1.None?
    ensures var q := Answer(l, sequence, body, digest).0;
            Answer(q, sequence, body, digest) == (q, None)
  {
    hide Settle, Settling, Retained, Unread;
    var q := Answer(l, sequence, body, digest).0;
    if q != l {
      InsertSettling(l, sequence, body);
      SettleRun(l.(held := l.held[sequence := body]));
      SettleHeld(l.(held := l.held[sequence := body]));
      if |q.applied| > |l.applied| {
        assert |q.applied| - 1 in l.held[sequence := body];
      }
    }
  }

  /** When each of the answers is given: the block is illegal or ahead of the window of sixteen, lies 33 or more behind
      the next one, differs in digest from the one stored under its number, or is new and does not fit the 1 MiB. */
  lemma AnswerExactly(l: Log, sequence: u64, body: seq<byte>, digest: seq<byte> -> seq<byte>)
    requires LogOk(l)
    ensures var next, fault := |l.applied|, Answer(l, sequence, body, digest).1;
            var legal := 0 < |body| <= MAX_BLOCK;
            var ahead := sequence >= next + UPLOAD_SLOTS || sequence == MAX_U64;
            && (fault == Some(OutOfWindow) <==> !legal || ahead)
            && (fault == Some(Gone) <==> legal && sequence + RECEIPT_COUNT < next)
            && (fault == Some(Conflict) <==>
                  && legal
                  && (|| (sequence in l.held && digest(l.held[sequence]) != digest(body))
                      || (next - RECEIPT_COUNT <= sequence < next && digest(l.applied[sequence]) != digest(body))))
            && (fault == Some(Full) <==>
                  && legal && !ahead && sequence >= next && sequence !in l.held
                  && Unread(l) + HeldBytes(l.held, next, UPLOAD_SLOTS) + |body| > UPLOAD_LIMIT)
            && (fault.Some? ==> fault.value in {OutOfWindow, Gone, Conflict, Full})
  {
  }

  /** No reorder deadlock: once the reader has drained the applied input, the missing head block is accepted. The one
      exception is a log that has used up the sequence numbers. */
  lemma HeadAccepted(l: Log, sequence: u64, body: seq<byte>, digest: seq<byte> -> seq<byte>)
    requires LogOk(l) && Unread(l) == 0 && sequence == |l.applied| && LegalBody(body)
    ensures Answer(l, sequence, body, digest).1 == if sequence == MAX_U64 then Some(OutOfWindow) else None
    ensures sequence != MAX_U64 ==>
              sequence < |Answer(l, sequence, body, digest).0.applied|
              && Answer(l, sequence, body, digest).0.applied[sequence] == body
  {
    hide LogOk, Settling, Settle, Unread, Retained, LegalBody, Ran;
    HeadFits(l, body);
    if sequence != MAX_U64 {
      var more := l.(held := l.held[sequence := body]);
      InsertSettling(l, sequence, body);
      SettleRun(more);
      RanFrom(more, Settle(more), sequence);
    }
  }

  /** A drained log has room for the block it waits for. */
  lemma HeadFits(l: Log, body: seq<byte>)
    requires LogOk(l) && Unread(l) == 0 && LegalBody(body)
    ensures |body| <= UPLOAD_LIMIT - Retained(l)
    ensures |l.applied| <= MAX_U64 && |l.applied| !in l.held
  {
    hide Unread;
    assert HeldBytes(l.held, |l.applied|, UPLOAD_SLOTS) == HeldBytes(l.held, |l.applied| + 1, UPLOAD_SLOTS - 1);
    HeldBounded(l.held, |l.applied| + 1, UPLOAD_SLOTS - 1);
  }

  lemma RanFrom(l: Log, q: Log, at: u64)
    requires Ran(l, q) && at in l.held && at == |l.applied| && |q.applied| !in l.held
    ensures at < |q.applied| && q.applied[at] == l.held[at]
  {
  }
}
