/** The `stream` record of internal/mux/peer.go as an object whose fields change in place. Every method is proved
    against the function of MuxStream that the invariants and the run theorems are about. */
module StreamRecords {
  import opened Bytes
  import opened Cell
  import opened MuxStream
  import opened MuxPressure

  datatype Verdict = Keep | Close | Refuse

  class StreamRecord {
    const id: u32
    var input: seq<Frame>
    var output: seq<Frame>
    var pending: Option<Frame>
    var open: Option<Frame>
    var ack: bool
    var reset: bool
    var attached: bool
    var credit: u32
    var budget: u32
    var grant: u32
    var nextIn: u32
    var nextOut: u32
    var queuedBytes: int
    var remoteFin: bool
    var localFinSent: bool
    var remoteFinWritten: bool
    var writing: Option<Chunk>
    ghost var eof: bool
    ghost var read: seq<byte>
    ghost var sent: seq<byte>
    ghost var arrived: seq<byte>
    ghost var written: seq<byte>

    ghost function Tx(): Outgoing
      reads this`output, this`pending, this`credit, this`nextOut, this`localFinSent, this`queuedBytes
      reads this`eof, this`read, this`sent
    {
      Outgoing(output, pending, credit, nextOut, localFinSent, queuedBytes, eof, read, sent)
    }

    ghost function Rx(): Incoming
      reads this`input, this`budget, this`grant, this`nextIn, this`remoteFin, this`remoteFinWritten
      reads this`writing, this`arrived, this`written
    {
      Incoming(input, budget, grant, nextIn, remoteFin, remoteFinWritten, writing, arrived, written)
    }

    ghost function Value(): Stream
      reads this
    {
      Stream(Tx(), Rx(), open, ack, reset, attached)
    }

    constructor (id: u32, send: u32, window: u32)
      ensures this.id == id && Value() == Fresh(send, window)
    {
      this.id := id;
      input, output, pending, open := [], [], None, None;
      ack, reset, attached := false, false, false;
      credit, budget, grant, nextIn, nextOut, queuedBytes := send, window, 0, 0, 0, 0;
      remoteFin, localFinSent, remoteFinWritten, writing := false, false, false, None;
      eof, read, sent, arrived, written := false, [], [], [], [];
    }

    // -------------------------------------------------------------- the reader and the writer

    /** The reader got bytes from its socket and found room in the channel. */
    method ReadSocket(body: seq<byte>)
      requires CanRead(Tx())
      modifies this`queuedBytes, this`output, this`nextOut, this`read
      ensures Value() == old(Value()).(tx := ReadData(old(Tx()), id, body))
    {
      hide Wrap32, Rx;
      queuedBytes := queuedBytes + |body|;
      output := output + [Frame(DATA, id, nextOut, body)];
      nextOut := Wrap32(nextOut + |body|);
      read := read + body;
    }

    /** The reader met the end of its socket. */
    method ReadEnd()
      requires CanRead(Tx())
      modifies this
      ensures Value() == old(Value()).(tx := MuxStream.ReadEof(old(Tx()), id))
    {
      output := output + [Frame(FIN, id, nextOut, [])];
      eof := true;
    }

    /** The writer takes the first chunk. */
    method Pop()
      requires CanPop(Rx())
      modifies this
      ensures Value() == old(Value()).(rx := PopInput(old(Rx())))
    {
      writing := Some(Chunk(input[0], 0));
      input := input[1..];
    }

    /** One call of conn.Write that accepts n bytes. */
    method WriteSocket(n: nat)
      requires CanWrite(Rx(), n)
      modifies this
      ensures Value() == old(Value()).(rx := WriteSome(old(Rx()), n))
    {
      var c := writing.value;
      written := written + c.frame.body[c.done..c.done + n];
      writing := Some(Chunk(c.frame, c.done + n));
    }

    /** The writer gives the credit of a whole chunk back. */
    method GiveBack()
      requires CanFinishChunk(Rx())
      modifies this
      ensures Value() == old(Value()).(rx := MuxStream.FinishChunk(old(Rx())))
    {
      var n := |writing.value.frame.body|;
      budget := Wrap32(budget + n);
      grant := Wrap32(grant + n);
      writing := None;
    }

    /** The writer has half-closed the socket. */
    method HalfClosed()
      modifies this
      ensures Value() == old(Value()).(rx := FinishFin(old(Rx())))
    {
      remoteFinWritten := true;
      writing := None;
    }

    /** The client's stream starts with an OPEN. */
    method Announce(authority: seq<byte>)
      modifies this
      ensures Value() == old(Value()).(open := Some(Frame(OPEN, id, 0, authority)), attached := true)
    {
      open := Some(Frame(OPEN, id, 0, authority));
      attached := true;
    }

    /** The server's stream has been connected. */
    method Connected()
      modifies this
      ensures Value() == old(Value()).(ack := true, attached := true)
    {
      ack := true;
      attached := true;
    }

    method Fail()
      modifies this
      ensures Value() == old(Value()).(reset := true)
    {
      reset := true;
    }

    /** The stream's part of the peer's report. */
    method Report(floor: int) returns (part: Pressure)
      requires queuedBytes >= 0
      ensures part == Share(Value(), floor)
    {
      hide DataFrames;
      var ready := Min(queuedBytes, credit);
      if reset || localFinSent || (ready < floor && queuedBytes > ready) {
        ready := 0;
      }
      var overhead := DataFrames(ready) * FRAME_HEADER;
      if open.Some? {
        overhead := overhead + open.value.Size();
      }
      if ack {
        overhead := overhead + FRAME_HEADER;
      }
      if reset {
        overhead := overhead + FRAME_HEADER;
      }
      if grant > 0 {
        overhead := overhead + FRAME_HEADER + 4;
      }
      var finNext := queuedBytes == 0 && (pending.Some? || |output| > 0);
      if finNext {
        overhead := overhead + FRAME_HEADER;
      }
      part := Pressure(ready, overhead, if open.Some? || ack || reset || grant > 0 || finNext then 1 else 0);
    }

    // -------------------------------------------------------------- the receiver

    /** One round of the loop in enqueueData: the last chunk, or a new one, takes what it can of the rest. */
    method FillChunk(stream: u32, at: u32, rest: seq<byte>) returns (length: nat)
      requires stream == id && rest != [] && ChunksFit(input)
      modifies this`input
      ensures 0 < length <= |rest| && ChunksFit(input)
      ensures Coalesce(input, id, Wrap32(at + length), rest[length..]) == Coalesce(old(input), id, at, rest)
    {
      hide Coalesce, Wrap32, ChunksFit;
      ghost var was := input;
      LastFits(was);
      if |input| == 0 || |input[|input| - 1].body| == STREAM_CHUNK {
        input := input + [Frame(DATA, stream, at, [])];
      }
      var grown := input;
      var tail := grown[|grown| - 1];
      length := Min(STREAM_CHUNK - |tail.body|, |rest|);
      input := grown[|grown| - 1 := tail.(body := tail.body + rest[..length])];
      EnqueueStep(was, rest, id, at, grown, length);
    }

    /** enqueueData: the body goes into the queue chunk by chunk. */
    method EnqueueData(f: Frame)
      requires f.stream == id && Coalesced(input)
      modifies this`input
      ensures Value() == old(Value()).(rx := old(Rx()).(input := Coalesce(old(input), id, f.sequence, f.body)))
    {
      hide Coalesce, ChunksFit;
      CoalescedFit(input);
      var offset := 0;
      assert f.body[0..] == f.body;
      while offset < |f.body|
        invariant 0 <= offset <= |f.body|
        invariant ChunksFit(input)
        invariant Coalesce(input, id, Wrap32(f.sequence + offset), f.body[offset..])
                  == Coalesce(old(input), id, f.sequence, f.body)
      {
        var length := FillChunk(f.stream, Wrap32(f.sequence + offset), f.body[offset..]);
        SliceOfSuffix(f.body, offset, length);
        WrapAdd(f.sequence + offset, length);
        offset := offset + length;
      }
      assert f.body[offset..] == [];
      CoalesceNothing(input, id, Wrap32(f.sequence + offset));
    }

    method TakeData(f: Frame) returns (ok: bool)
      requires f.stream == id && Coalesced(input)
      modifies this`input, this`nextIn, this`budget, this`arrived
      ensures match AcceptData(old(Rx()), f)
              case None => !ok && Value() == old(Value())
              case Some(r) => ok && Value() == old(Value()).(rx := r)
    {
      hide Coalesce, Coalesced, Wrap32, Tx;
      if remoteFin || f.sequence != nextIn || |f.body| == 0 || |f.body| > budget {
        return false;
      }
      EnqueueData(f);
      Charge(f.body);
      return true;
    }

    /** The body is counted. */
    method Charge(body: seq<byte>)
      modifies this`nextIn, this`budget, this`arrived
      ensures Value() == old(Value()).(rx := old(Rx()).(nextIn := Wrap32(old(nextIn) + |body|),
                                                         budget := Wrap32(old(budget) - |body|),
                                                         arrived := old(arrived) + body))
    {
      hide Wrap32, Tx;
      nextIn := Wrap32(nextIn + |body|);
      budget := Wrap32(budget - |body|);
      arrived := arrived + body;
    }

    method TakeFin(f: Frame) returns (ok: bool)
      modifies this
      ensures match AcceptFin(old(Rx()), f)
              case None => !ok && Value() == old(Value())
              case Some(r) => ok && Value() == old(Value()).(rx := r)
    {
      if remoteFin || |f.body| != 0 || f.sequence != nextIn {
        return false;
      }
      input := input + [f];
      remoteFin := true;
      return true;
    }

    method TakeCredit(f: Frame, send: u32) returns (ok: bool)
      modifies this
      ensures match AcceptCredit(old(Tx()), f, send)
              case None => !ok && Value() == old(Value())
              case Some(t) => ok && Value() == old(Value()).(tx := t)
    {
      if |f.body| != 4 || f.sequence != 0 {
        return false;
      }
      var given := FromBE32(f.body);
      if given == 0 || given > Wrap32(send - credit) {
        return false;
      }
      credit := Wrap32(credit + given);
      return true;
    }

    /** The switch of Receive for an existing stream. */
    method Accept(f: Frame, dial: bool, send: u32) returns (v: Verdict)
      requires f.stream == id && Coalesced(input)
      modifies this
      ensures match MuxStream.Accept(old(Value()), f, dial, send)
              case Kept(s) => v == Keep && Value() == s
              case Closed => v == Close && Value() == old(Value())
              case Refused => v == Refuse && Value() == old(Value())
    {
      hide AcceptData, AcceptFin, AcceptCredit, Coalesced;
      var ok := false;
      if f.kind == DATA {
        ok := TakeData(f);
      } else if f.kind == FIN {
        ok := TakeFin(f);
      } else if f.kind == RESET {
        return if |f.body| != 0 || f.sequence != 0 then Refuse else Close;
      } else if f.kind == CREDIT {
        ok := TakeCredit(f, send);
      } else if f.kind == OPENED {
        ok := !dial && f.sequence == 0 && |f.body| == 0;
      }
      return if ok then Keep else Refuse;
    }

    // -------------------------------------------------------------- the scheduler

    /** The payload sent is paid for. */
    method Spend(payload: seq<byte>)
      modifies this`credit, this`queuedBytes, this`sent
      ensures Value() == old(Value()).(tx := old(Tx()).(credit := Wrap32(old(credit) - |payload|),
                                                         queuedBytes := old(queuedBytes) - |payload|,
                                                         sent := old(sent) + payload))
    {
      hide Wrap32, Rx;
      credit := Wrap32(credit - |payload|);
      queuedBytes := queuedBytes - |payload|;
      sent := sent + payload;
    }

    /** As much of the pending DATA frame as room and credit allow. */
    method SendPending(room: nat) returns (f: Option<Frame>)
      requires room >= FRAME_HEADER && pending.Some? && pending.value.kind == DATA
      modifies this`credit, this`queuedBytes, this`sent, this`pending
      ensures match OfferPending(old(Tx()), room, false)
              case Nothing => f == None && Value() == old(Value())
              case Offered(t, g) => f == Some(g) && Value() == old(Value()).(tx := t)
    {
      hide Wrap32, Rx;
      var p := pending.value;
      var n := Min(Min(|p.body|, room - FRAME_HEADER), credit);
      if n == 0 {
        return None;
      }
      Spend(p.body[..n]);
      pending := if n == |p.body| then None else Some(p.(body := p.body[n..], sequence := Wrap32(p.sequence + n)));
      return Some(p.(body := p.body[..n]));
    }

    /** The half of the switch in take that looks at the reader's frames. */
    method OfferFrame(room: nat, controlsOnly: bool) returns (f: Option<Frame>)
      requires room >= FRAME_HEADER
      modifies this`credit, this`queuedBytes, this`sent, this`pending, this`output, this`localFinSent
      ensures match OfferPending(Refill(old(Tx())), room, controlsOnly)
              case Nothing => f == None && Value() == old(Value()).(tx := Refill(old(Tx())))
              case Offered(t, g) => f == Some(g) && Value() == old(Value()).(tx := t)
    {
      hide Wrap32, Rx;
      if pending.None? && |output| > 0 {
        pending := Some(output[0]);
        output := output[1..];
      }
      assert Tx() == Refill(old(Tx()));
      if pending.None? {
        return None;
      } else if pending.value.kind != DATA {
        f := pending;
        pending := None;
        localFinSent := true;
      } else if controlsOnly {
        return None;
      } else {
        f := SendPending(room);
      }
    }

    /** The switch in take for a stream that is neither finished nor reset. */
    method NextToSend(room: nat, controlsOnly: bool) returns (f: Option<Frame>)
      requires room >= FRAME_HEADER && !Finished(Value()) && !reset
      modifies this
      ensures match VisitStream(old(Value()), id, room, controlsOnly)
              case Retire => false
              case Miss(s) => f == None && Value() == s
              case Send(s, g, remove) => f == Some(g) && Value() == s && remove == Finished(s)
    {
      if open.Some? {
        if open.value.Size() > room {
          return None;
        }
        f := open;
        open := None;
      } else if ack {
        ack := false;
        return Some(Frame(OPENED, id, 0, []));
      } else if grant > 0 && room >= FRAME_HEADER + 4 {
        f := Some(Frame(CREDIT, id, 0, Uint32(grant)));
        grant := 0;
      } else {
        f := OfferFrame(room, controlsOnly);
      }
    }
  }

  /** No chunk is longer than 16 KiB. */
  predicate ChunksFit(input: seq<Frame>) {
    forall k :: 0 <= k < |input| ==> |input[k].body| <= STREAM_CHUNK
  }

  lemma CoalescedFit(input: seq<Frame>)
    requires Coalesced(input)
    ensures ChunksFit(input)
  {
  }

  lemma LastFits(input: seq<Frame>)
    requires ChunksFit(input)
    ensures input != [] ==> |input[|input| - 1].body| <= STREAM_CHUNK
  {
  }

  lemma CoalesceNothing(input: seq<Frame>, id: u32, at: u32)
    ensures Coalesce(input, id, at, []) == input
  {
  }

  /** A round of the loop in EnqueueData is one unfolding of Coalesce. */
  lemma EnqueueStep(was: seq<Frame>, rest: seq<byte>, id: u32, at: u32, grown: seq<Frame>, n: nat)
    requires rest != [] && ChunksFit(was)
    requires grown == if was == [] || |was[|was| - 1].body| == STREAM_CHUNK then was + [Frame(DATA, id, at, [])] else was
    requires n == Min(STREAM_CHUNK - |grown[|grown| - 1].body|, |rest|)
    ensures 0 < n <= |rest|
    ensures var tail := grown[|grown| - 1];
            var now := grown[|grown| - 1 := tail.(body := tail.body + rest[..n])];
            Coalesce(was, id, at, rest) == Coalesce(now, id, Wrap32(at + n), rest[n..]) && ChunksFit(now)
  {
    hide Coalesce, Wrap32;
    var tail := grown[|grown| - 1];
    var now := grown[|grown| - 1 := tail.(body := tail.body + rest[..n])];
    if grown == was {
      assert now == was[..|was| - 1] + [tail.(body := tail.body + rest[..n])];
      CoalesceTail(was, rest, id, at, n);
    } else {
      assert [] + rest[..n] == rest[..n];
      assert now == was + [Frame(DATA, id, at, rest[..n])];
      CoalesceNew(was, rest, id, at, n);
    }
  }

  lemma CoalesceTail(was: seq<Frame>, rest: seq<byte>, id: u32, at: u32, n: nat)
    requires rest != [] && was != [] && |was[|was| - 1].body| < STREAM_CHUNK
    requires n == Min(STREAM_CHUNK - |was[|was| - 1].body|, |rest|)
    ensures var tail := was[|was| - 1];
            Coalesce(was, id, at, rest)
            == Coalesce(was[..|was| - 1] + [tail.(body := tail.body + rest[..n])], id, Wrap32(at + n), rest[n..])
  {
  }

  lemma CoalesceNew(was: seq<Frame>, rest: seq<byte>, id: u32, at: u32, n: nat)
    requires rest != [] && (was == [] || |was[|was| - 1].body| == STREAM_CHUNK) && n == Min(STREAM_CHUNK, |rest|)
    ensures Coalesce(was, id, at, rest) == Coalesce(was + [Frame(DATA, id, at, rest[..n])], id, Wrap32(at + n), rest[n..])
  {
  }
}
