# Model of the NaiveFox transport core

This project models the state machines of the NaiveFox transport server that live below HTTP and TLS, and proves what
they promise. `dafny verify dfyconfig.toml` checks everything.

| file | models |
|---|---|
| `Bytes.dfy` | machine words, big-endian fields, concatenation |
| `Cell.dfy` | the cell codec: an independent definition of a cell, the in-place encoder, the batch decoder |
| `StreamDecoder.dfy` | the incremental decoder, against the same definition |
| `MuxStream.dfy`, `MuxPeer.dfy` | one multiplexed stream and the peer that schedules streams, as functions on values |
| `StreamRecord.dfy`, `Multiplexer.dfy` | the same as objects whose fields change in place, proved against those functions |
| `MuxScheduler.dfy` | what one `take` promises |
| `MuxFlow.dfy`, `MuxPair.dfy`, `MuxRun.dfy` | two peers joined by two FIFO channels: invariant, steps, theorems about runs |
| `MuxOrder.dfy` | the order of one stream's frames, fairness over several takes, when a stream leaves its table, which frames it accepts |
| `MuxPressure.dfy` | what a peer reports about the work it has, and that the report is exact |
| `MuxOpens.dfy` | when OPENs keep their order, exactly, and two runs in which an honest frame is refused |
| `MuxFull.dfy` | a run in which the server's table is full and the client's is not |
| `PacketUpload.dfy`, `PacketDownload.dfy` | the ordered upload log and the replay log of a packet connection |
| `PacketConn.dfy` | the connection as an object, proved against the two logs |
| `PacketDelivery.dfy`, `PacketResume.dfy` | runs over a network that loses, repeats and reorders; downloads that break and resume |
| `Startup.dfy`, `StartupQuota.dfy` | the forty-step startup journal, and the process-wide quota with reference counts |
| `CellWriter.dfy` | the running carrier: sequence check, capacity choice, cell writer |
| `OrderedUpload.dfy` | HTTP/3 uploads in any order |

How the model is to be read:

* A section that the program runs under a lock is one step. Where it waits, a method ends (`Waiting`, `Blocked`,
  `Wait`, `NotYet`) and is called again; other steps may run in between.
* Byte histories (read, sent, arrived, written, applied, consumed) stand beside the program's fields as ghosts.
  uint32 and uint64 counters keep their width; `Wrap32` marks every conversion that may wrap.
* One `take` is atomic with respect to the readers of its streams. With sixteen-slot channels that bounds a take to 705
  frames. `CellWriter.FitsExactly` says what depends on it: an ACK fits behind a take if and only if the take has fewer
  than 4096 frames.
* Two-peer runs pair the windows: each side's send credit is the other side's receive window. The two windows may
  differ, as they do for packet carriers.
* SHA-256, the password check and the host:port syntax check are arbitrary functions; clocks, deadlines, cancelled
  requests, failing randomness and the random filler are arbitrary inputs.
* In `StartupQuota.dfy` a startupResult is known by the order in which results are made; its immutable part is copied
  into the journal entry and its reference count is kept in a list.

Where code and documentation differ, the model follows the code:

* `docs/PROTOCOL.md:105` says that stream IDs increase. They are given out in that order, but a visit of `take` that lacks
  the budget for an OPEN passes it over, and an OPEN behind it may then be sent first; the receiver refuses the one that
  was passed over. The sizes of the two OPENs and the room of the later take do not matter. A take keeps the unsent OPENs
  in line if and only if none of its visits misses an OPEN (`MuxOpens.TakeKeepsLine`, with `MuxOpens.InLineMeans` for what
  being in line means), and in a run without such a miss no OPEN is overtaken (`MuxOpens.NoOvertaking`);
  `MuxOpens.OvertakenRun` is a run that ends in the refusal.
* A stream that fails before its OPEN was sent emits RESET alone; the receiver refuses it if and only if no higher number
  has been announced (`MuxPair.RefusedExactly`, `MuxRun.HonestRefusals`), and `MuxOpens.LoneResetRun` is such a run.
  `docs/PROTOCOL.md:123-124` speaks of retired streams only.
* `docs/PROTOCOL.md:126` says that at most 32 streams are active in a session. Each side counts its own: the client leaves a
  stream when its last FIN is sent, the server when that FIN is written, and in between the server may refuse the OPEN of a
  client that never had more than 32. That happens only while a stream live at the server is retired at the client
  (`MuxPair.FullTableLingers`, `MuxRun.HonestRefusals`); `MuxFull.FullTableRun` is such a run.

The methods of `StreamRecord` and `Multiplexer` that have no row below assign a few fields; their contracts say that the
object then has the value of the event that `MuxRun.dfy` is about.

## Model

| member | source | states |
|---|---|---|
| Cell.PrefixUnique | internal/cell/cell.go:72-102 | a used prefix determines its sequence and its frames: no two different contents have the same bytes |
| Cell.CellUnique | internal/cell/cell.go:72-102 | a cell body determines sequence, frames and filler length, for any filler bytes |
| Cell.NextFrame | internal/cell/cell.go:83-97 | inside a legal prefix, a reader that has the frames so far finds the next frame at its position, complete and within the prefix; without frames left it stands at the end |
| Cell.WriteHeader | internal/cell/cell.go:55-59 | the first sixteen bytes become the header of this sequence, length and count; the bytes behind stay as they were |
| Cell.WriteFrames | internal/cell/cell.go:60-68 | the buffer behind the header becomes the frames in order; the header and all bytes behind the payload stay as they were |
| Cell.Measure | internal/cell/cell.go:37-50 | the used length, or nothing exactly when a kind is out of range or the frames do not fit the capacity |
| Cell.Encode | internal/cell/cell.go:37-70 | succeeds exactly when capacity, frame count, kinds and sizes are legal and randomness is available; the new array is then a cell with this sequence, these frames and capacity minus used filler |
| Cell.Decode | internal/cell/cell.go:72-102 | accepts exactly the byte strings that are cells, and returns the sequence, frames and filler of which the bytes consist |
| Cell.BadHeader | internal/cell/cell.go:72-82 | a body refused for its header is no cell with any content |
| Cell.BadFrame | internal/cell/cell.go:83-100 | a body refused at a frame is no cell with any content |
| Cell.EncodeThenDecode | internal/cell/cell.go:37-102 | decoding an encoded cell gives back sequence, frames and filler, whatever the filler bytes are |
| Cell.DecodeThenEncode | internal/cell/cell.go:37-102 | re-encoding what was decoded reproduces the used prefix byte for byte |
| StreamDecoding.StreamDecoder.Push | internal/cell/stream.go:22-73 | accepts a piece unless no continuation could make the bytes a legal prefix; extends body and emitted frames; at the end everything emitted is the content of the bytes |
| StreamDecoding.StreamDecoder.Parse | internal/cell/stream.go:42-65 | reads every frame that is complete and none that is not; refuses only the hopeless; the unsigned length subtraction cannot wrap |
| StreamDecoding.RefuseHeader | internal/cell/stream.go:33-41 | bytes refused at the header have no legal continuation |
| StreamDecoding.RefuseFrame | internal/cell/stream.go:46-64 | bytes refused at a frame or at the end of the frames have no legal continuation |
| StreamDecoding.RefuseEnd | internal/cell/stream.go:66-71 | bytes refused at the end are not a legal prefix |
| StreamDecoding.EmittedIsPrefix | internal/cell/stream.go:22-73 | frames emitted so far are a prefix of the frames of every legal completion, and every frame whose bytes have arrived has been emitted |
| StreamDecoding.DecodePieces | internal/cell/stream.go:22-73 | for every partition of a byte string: accepted if and only if the concatenation is a legal prefix, and then the concatenated output is its frames; in any case the output stands at the front of whatever cell the bytes are |
| StreamDecoding.AgreesWithBatch | internal/cell/stream.go:22-73 | for every partition the incremental and the batch decoder agree on acceptance and frames; what was handed out before a refusal is a prefix of the batch frames |
| MuxStream.ReadDataKeeps | internal/mux/peer.go:232-249 | reading a chunk keeps the pending and queued frames an exact continuation of the sent bytes up to everything read |
| MuxStream.ReadEofKeeps | internal/mux/peer.go:250-258 | the FIN queued at end of file carries the byte count modulo 2^32 and follows all data |
| MuxStream.PopInputKeeps | internal/mux/peer.go:281-286 | taking a chunk from the queue loses and reorders nothing |
| MuxStream.FinishChunkKeeps | internal/mux/peer.go:303-316 | giving a chunk back keeps budget equal to window minus queued minus writing |
| MuxStream.CoalesceKeeps | internal/mux/peer.go:322-332 | enqueueData keeps the queue a contiguous continuation of the delivered bytes, all chunks but the last exactly 16 KiB |
| MuxStream.AcceptKeeps | internal/mux/peer.go:387-426 | whatever frame is accepted, the stream keeps its invariant |
| MuxStream.OfferKeeps | internal/mux/peer.go:479-508 | a DATA frame cut to budget and credit, or a FIN, continues the sent bytes exactly; the rest stays pending |
| MuxStream.VisitKeeps | internal/mux/peer.go:450-519 | one visit of the scheduler keeps the invariant of the stream and sends a frame of at most the budget |
| MuxStream.InputBounded | internal/mux/peer.go:162-165 | queued chunks including FIN number at most window/16384 + 1, and so do the data chunks including the writer's |
| StreamRecords.StreamRecord.EnqueueData | internal/mux/peer.go:322-332 | the in-place loop computes the coalesced queue |
| StreamRecords.StreamRecord.Accept | internal/mux/peer.go:387-426 | the switch of Receive keeps, closes or refuses exactly as specified, and a refusal changes nothing |
| StreamRecords.StreamRecord.SendPending | internal/mux/peer.go:487-501 | as much pending DATA leaves as frame, budget and credit allow; credit, queued bytes and sequence move by that much |
| StreamRecords.StreamRecord.NextToSend | internal/mux/peer.go:456-508 | the switch of take sends what the stream owes first and leaves the record that `MuxOrder.TakeInTurn` speaks of; the stream is to be removed exactly when both directions are finished |
| StreamRecords.StreamRecord.Report | internal/mux/peer.go:124-157 | the record's part of the pressure: bytes ready above the floor, the framing of what is ready or owed, and whether anything but data is |
| MuxScheduler.OrderLength | internal/mux/peer.go:162-191 | the order lists as many entries as there are live streams |
| MuxScheduler.RemoveKeeps | internal/mux/peer.go:176-191 | removal takes exactly this stream out of table and order and keeps the peer's invariant |
| MuxScheduler.RemoveKeepsTurn | internal/mux/peer.go:176-191 | after a removal the rotation from the cursor is the old rotation without the removed ID |
| MuxScheduler.OpenKeeps | internal/mux/peer.go:193-205 | opening keeps the invariant: fresh number, at most 32 streams, listed once |
| MuxScheduler.WriterFinKeeps | internal/mux/peer.go:292-300 | performing the half-close, with or without retirement, keeps the invariant, one part of which is that no stream in the table is over |
| MuxScheduler.ReceiveOneKeeps | internal/mux/peer.go:348-426 | every frame that is accepted keeps the peer's invariant |
| MuxScheduler.ReceiveKeeps | internal/mux/peer.go:341-432 | a whole cell, accepted or refused midway, keeps the peer's invariant |
| MuxScheduler.TurnKeeps | internal/mux/peer.go:446-521 | a turn of take keeps the peer's invariant; its frame is of the stream whose turn it was and fits the budget |
| MuxScheduler.NothingToRetire | internal/mux/peer.go:455-459 | no visit of take finds a stream whose two directions are over: every operation retires such a stream at once |
| MuxScheduler.TurnRotates | internal/mux/peer.go:446-521 | a turn moves the visited stream to the end of the rotation or out of it, and leaves the others in order |
| MuxScheduler.TakeFits | internal/mux/peer.go:438-524 | a take ends; its frames use exactly the budget spent and number at most 4096 |
| MuxScheduler.TakeIsWorkConserving | internal/mux/peer.go:438-524 | a take that stops with room left has found every surviving stream with nothing it may send in that room |
| MuxScheduler.ControlsTakeNoData | internal/mux/peer.go:436-486 | a controls-only take sends no DATA and consumes neither credit nor queued bytes |
| MuxScheduler.TakeIsFair | internal/mux/peer.go:446-521 | within a take no stream is visited again before every other stream then in the table, even one that leaves later, was visited in between; the frames come from the visits in order, at most one each |
| MuxScheduler.TakeIsBounded | internal/mux/peer.go:438-524 | a take returns at most one frame more than the streams have in store, however large the budget |
| MuxScheduler.TakeFrameBound | internal/mux/peer.go:438-524 | at most 705 frames leave in one take |
| Multiplexers.LocalKeeps | internal/mux/peer.go:193-320 | every local event keeps the invariant of the peer |
| Multiplexers.Multiplexer.RemoveStream | internal/mux/peer.go:176-191 | the entry and its place in the order go, the cursor keeps its successor |
| Multiplexers.Multiplexer.CutOrder | internal/mux/peer.go:178-190 | the scan removes the first occurrence and corrects the cursor |
| Multiplexers.Multiplexer.NewStream | internal/mux/peer.go:162-174 | a fresh record is filed and listed last |
| Multiplexers.Multiplexer.Open | internal/mux/peer.go:193-205 | opens exactly when not closed, at a client, with fewer than 32 streams, a legal authority and numbers left; the new stream has the next number, stands last in the order and has the OPEN with this authority to send |
| Multiplexers.Multiplexer.WriteEnd | internal/mux/peer.go:287-301 | the half-close; its stream leaves the table exactly when the local FIN was sent and no grant is due, and no other does |
| Multiplexers.Multiplexer.Receive | internal/mux/peer.go:341-432 | frames before a refused one stay applied, the rest is not; a closed peer refuses all |
| Multiplexers.Multiplexer.Visit | internal/mux/peer.go:452-519 | the loop body of take retires, misses or sends as in the runs and in `MuxOrder.TakeInTurn` |
| Multiplexers.Multiplexer.Take | internal/mux/peer.go:438-524 | the loop gives the frames and leaves the peer that the theorems on takes are about: order within a stream, fairness, bounds, retirement; a closed peer gives nothing and stays as it is |
| Multiplexers.Multiplexer.Report | internal/mux/peer.go:120-158 | the loop sums up the parts of all streams, each once |
| MuxOrder.TakeInTurn | internal/mux/peer.go:462-508 | in one take a failed stream sends its RESET and nothing else; every other frame of a stream that owed OPEN stands behind it, every DATA, FIN or CREDIT of one that owed OPENED behind that, and DATA or FIN of one that owed CREDIT behind that as well, unless fewer than 20 bytes were left |
| MuxOrder.TakesAreFair | internal/mux/peer.go:446-521 | over any number of takes in a row no stream sends again before every other stream then in the table has had its turn in between |
| MuxOrder.TakeRetires | internal/mux/peer.go:455-521 | a take retires a failed stream if and only if it has sent its RESET, and any other stream only when it is over; what stays is not over |
| MuxOrder.FailedIsReset | internal/mux/peer.go:221-230 | after a failure the next take sends RESET for the stream and nothing else, and the stream leaves with it, unless the take runs out of room |
| MuxOrder.DialedIsOpened | internal/mux/peer.go:371-378 | after a dial the next take sends OPENED, unless it runs out of room |
| MuxOrder.ReceiveRetires | internal/mux/peer.go:404-410 | an accepted cell retires exactly the streams that it resets |
| MuxOrder.WriterFinRetires | internal/mux/peer.go:292-300 | the half-close retires its stream if and only if its own FIN is out and no credit is owed, and no other stream |
| MuxOrder.LeavesWhenOver | internal/mux/peer.go:292-521 | in every state of a run: a stream leaves a table because it is over, its RESET is in the cell just taken, or a RESET for it in the cell just received; while it stays it is not over |
| MuxOrder.NothingBeforeOpened | internal/mux/peer.go:371-378 | in every run: while the server has not dialed a stream or still owes its OPENED, it has sent no DATA or FIN of it, none is in flight, and the client has passed nothing to its socket |
| MuxOrder.AcceptExactly | internal/mux/peer.go:387-426 | a live stream refuses a frame exactly when it breaks the protocol: wrong offset, bytes after FIN or beyond the window, ill-formed control, credit above the window, OPENED at the server, other kinds; an accepted frame moves exactly what it carries |
| MuxOrder.ReceiveOneExactly | internal/mux/peer.go:341-432 | any frame, honest or not, is accepted if and only if it opens a new stream where one may be opened, is left over from a retired stream, or passes the check of its live stream; it changes that stream and nothing else |
| MuxPressure.PressureIsExact | internal/mux/peer.go:120-158 | for every peer, floor and budget of 20 or more in which the OPENs fit: the take that the writer would do gives no frame if and only if the pressure has neither bytes nor controls |
| MuxFlow.FlowPrefix | internal/mux/peer.go:232-320 | from the invariant of one direction: written bytes are a prefix of read bytes, FIN is written only after all of them |
| MuxFlow.FlowConserves | internal/mux/peer.go:389-419 | from the invariant of one direction: credit, bytes and credit in flight, held bytes and grant make up the window |
| MuxFlow.DataAccepted | internal/mux/peer.go:387-395 | DATA in flight always passes the receiver's sequence and credit checks |
| MuxFlow.CreditAccepted | internal/mux/peer.go:411-419 | CREDIT in flight never overflows the sender's credit |
| MuxPair.FullTableLingers | internal/mux/peer.go:354-378 | a server that finds its table full for an OPEN in flight still has a stream in it that the client has retired |
| MuxPair.RefusedExactly | internal/mux/peer.go:348-426 | a frame in flight that is not for a live stream is refused if and only if it is an OPEN whose number is not above all seen, that names nothing or an illegal authority, or finds the table full while a stream in it is retired at the client; or the RESET of a stream the client gave up with its OPEN unsent, no higher number having been announced |
| MuxPair.JointReceiveOne | internal/mux/peer.go:348-426 | the next frame in flight is refused if and only if it is excused in this sense, and otherwise keeps the two peers in step |
| MuxPair.JointReceive | internal/mux/peer.go:341-432 | the same for a whole cell: it is accepted, or the frame that stopped it is excused |
| MuxPair.JointTake | internal/mux/peer.go:438-524 | taking a cell keeps the two peers in step with the frames in flight |
| MuxPair.JointWriterFin | internal/mux/peer.go:287-301 | half-close and retirement keep the two peers in step |
| MuxPair.JointOpen | internal/mux/peer.go:193-205 | a new stream keeps the two peers in step |
| MuxRun.RunInv | internal/mux/peer.go:162-524 | the joint invariant holds in every state of every run |
| MuxRun.RunsExist | internal/mux/peer.go:162-524 | every list of events is a run, so the run theorems are not vacuous |
| MuxRun.Delivery | internal/mux/peer.go:232-318 | in every run, both directions: socket output is a prefix of socket input; a half-close follows all bytes and the sender's end of file |
| MuxRun.Conservation | internal/mux/peer.go:389-419 | in every run: sender credit + DATA in flight + held bytes + grant + CREDIT in flight = window, and budget = window - held |
| MuxRun.HonestRefusals | internal/mux/peer.go:347-426 | in every run only the server refuses; a refused OPEN is not above the highest number, names nothing or an illegal authority, or finds the table full while a stream in it is retired at the client; a refused RESET is for a stream the client retired with its OPEN unsent, with no higher number announced; nothing else is refused |
| MuxRun.QueuesBounded | internal/mux/peer.go:162-191 | in every run: queue and chunk bounds on both sides, at most 32 streams, each listed once, queued-byte counter exact |
| MuxRun.QuiescentCredit | internal/mux/peer.go:120-158 | with nothing in flight or held, credit is the whole window, so the pressure floor cannot hide queued data |
| MuxRun.OpensAccepted | internal/mux/peer.go:354-378 | at the receiver: OPENs in a row are all accepted if and only if their numbers rise above all seen, they are well formed and the table has room; when a sender emits them so is MuxOpens |
| MuxOpens.InLineMeans | internal/mux/peer.go:193-205 | the cursor has passed over no stream with an unsent OPEN if and only if, once another stream is opened, the unsent OPENs stand in rising order in the round to come |
| MuxOpens.TurnLine | internal/mux/peer.go:465-469 | a visit keeps that so if and only if it does not miss an OPEN for want of budget |
| MuxOpens.TakeKeepsLine | internal/mux/peer.go:446-521 | a take keeps that so at every visit if and only if none of its visits misses an OPEN for want of budget |
| MuxOpens.TakeSendsInOrder | internal/mux/peer.go:446-521 | the OPENs of a take leave in rising order, and before all it leaves unsent, if and only if it sends no OPEN after it has missed one |
| MuxOpens.NoOvertaking | internal/mux/peer.go:354-378 | in every run in which no take of the client misses an OPEN, a refused OPEN came in its turn: its number is above all seen, and it names nothing or an illegal authority, or finds the table full while a stream in it is retired at the client |
| MuxOpens.OvertakenRun | internal/mux/peer.go:465-469 | a run for any two legal authorities: one take lacks a byte for the first OPEN, the next has ample room, sends the second OPEN first, and the server refuses the first |
| MuxOpens.LoneResetRun | internal/mux/peer.go:380-386 | a run for any authority: a stream fails before its OPEN was sent, its RESET goes out alone, and the server refuses it |
| MuxFull.FullTableRun | internal/mux/peer.go:292-300 | a run for any legal authority in which no take misses an OPEN and the client never has more than 32 streams: the client leaves stream 1 when its FIN is sent, opens another, and the server, which has not written that FIN yet, refuses the OPEN with 32 streams in its table |
| CellWriter.DownCapacity | realtime.go:21-39 | for every pressure the capacity is 512, 8192, 65536 or 262144, at most the carrier's largest cell; 512 exactly without ready data or, on HTTP/3, when the framed data fit that; a larger size than 8192 exactly when the framed data reach it |
| CellWriter.QuietExactly | realtime.go:285-347 | with the capacity and the kind of take that its pressure calls for, a server's peer gives no frame if and only if the pressure is empty: the writer passes nothing by |
| CellWriter.FitsExactly | realtime.go:328-351 | frames that fit the budget can be encoded behind an ACK if and only if they number fewer than 4096 |
| CellWriter.TakeIsEncodable | realtime.go:326-351 | for every state and capacity, the optional ACK and one take can be encoded |
| CellWriter.FillCell | realtime.go:326-351 | the cell carries the ACK and exactly the frames taken; encoding fails only without randomness |
| CellWriter.Carrier.Receive | realtime.go:164-225 | a cell is applied if and only if it has one of the carrier's sizes, the next number, ordinary frames, none before the login, and an open multiplexer takes them all; a refused cell moves neither sequence nor ACK |
| CellWriter.Carrier.NextCell | realtime.go:316-357 | written cells have consecutive sequences; ACK values strictly increase and are below `up`; with an ACK pending, or when idle, a cell is written unless the sequences are used up or randomness fails; a quiet pass found no ACK and either no pressure or nothing to take |
| OrderedUpload.UploadQueue.Enter | h3.go:139-191 | a cell enters exactly when its request lives, its size is one of four, it decodes, its number is at most seven above the next one and nobody holds it; then the cells next in number, and only those, are handed over in order, each once |
| OrderedUpload.UploadQueue.Drain | h3.go:173-190 | the loop hands over the consecutive run; a failed or cancelled head leaves, closes the session, which nothing else does, and nothing follows it |
| OrderedUpload.UploadQueue.ApplyHead | h3.go:178-188 | the head succeeds if and only if its request lives and the carrier applies its cell: the multiplexer is given exactly its frames, and its number is the next one; otherwise the session is closed; the request is woken with that outcome |
| OrderedUpload.UploadQueue.Leave | h3.go:165-203 | success is reported only when the request's own number is below the next one and its cell and every cell with a smaller number have been given to the multiplexer by the requests that held them; every error closes the session |
| OrderedUpload.UploadQueue.SuccessMeansApplied | h3.go:173-196 | a request told of success gave its own cell, once, at the place of its number, after every smaller number |
| OrderedUpload.UploadQueue.WindowBound | h3.go:159-164 | waiting cells lie strictly inside the window of eight above the next one |
| PacketUpload.AnswerKeeps | internal/packet/conn.go:76-134 | every Put keeps the window, the 1 MiB bound and the applied blocks; a refusal changes nothing |
| PacketUpload.SettleRun | internal/packet/conn.go:111-131 | the blocks applied by a Put are exactly the gapless run that follows, in order |
| PacketUpload.SettleHeld | internal/packet/conn.go:111-131 | blocks beyond the gap stay as they are |
| PacketUpload.AnswerStores | internal/packet/conn.go:96-134 | an accepted block is stored, and what is stored, applied or held, stays so |
| PacketUpload.RetryInTime | internal/packet/conn.go:86-104 | a retry right after acceptance is always in time |
| PacketUpload.HeadAccepted | internal/packet/conn.go:96-131 | with the applied input drained, the missing head block is accepted unless the sequence numbers are used up |
| PacketConn.FewChunks | internal/packet/conn.go:116-124 | at most 1 MiB unread lies in at most 65 chunks |
| PacketConn.Conn.AppendInput | internal/packet/conn.go:116-124 | the inner loop appends the body to the queued bytes and keeps the chunks packed |
| PacketConn.Conn.Drain | internal/packet/conn.go:111-131 | the outer loop performs the specified settling, receipts and counters included |
| PacketConn.Conn.Put | internal/packet/conn.go:76-134 | the method is the ordered log's answer, including every error |
| PacketConn.Conn.Read | internal/packet/conn.go:136-170 | a read returns the next bytes in order, waits exactly when all applied bytes are read, and fails with the stated error |
| PacketConn.Conn.UploadBounds | internal/packet/conn.go:76-134 | input bytes are the true unread-plus-pending total, at most 1 MiB in at most 65 chunks; pending keys and receipts are exactly as documented |
| PacketConn.Conn.WriteLocked | internal/packet/conn.go:209-237 | output grows by the pieces of what was written, stops only between blocks, and only for want of 8 MiB or 512 blocks of room, lateness, closing or the end of the numbers |
| PacketConn.Conn.Write | internal/packet/conn.go:172-186 | bytes written are the bytes retained, corked or not |
| PacketConn.Conn.Uncork | internal/packet/conn.go:196-207 | the corked bytes leave as the even pieces, whatever waits intervene |
| PacketConn.Conn.DropBelow | internal/packet/conn.go:258-263 | the loop releases exactly the blocks below the cursor |
| PacketConn.Conn.Ack | internal/packet/conn.go:239-266 | a late ack is harmless, one beyond the output is refused, otherwise the floor moves there |
| PacketConn.Conn.Attach | internal/packet/conn.go:268-281 | only a higher generation attaches, with a cursor between floor and end; each error exactly under its condition, in the code's order, and then nothing changes |
| PacketConn.Conn.Next | internal/packet/conn.go:283-308 | the block returned is the one originally written under that number, and only the attached generation gets one; each error exactly under its condition |
| PacketConn.Conn.Flight | internal/packet/conn.go:312-336 | a flight is everything written from the cursor on, and only while the reader waits; each error exactly under its condition |
| PacketConn.Conn.Ready | internal/packet/conn.go:339-344 | true exactly when Next would return a block: open, for the attached generation, from the floor up to the end |
| PacketConn.Conn.CloseWithError | internal/packet/conn.go:392-407 | closing drops the queues, keeps the counters, and the first call's error is kept |
| PacketDownload.UncorkIsEven | internal/packet/conn.go:196-207 | the pieces are as few as possible, at most 64 KiB each, equal but for the last, which is smaller by less than their number, and concatenate to the corked bytes |
| PacketDownload.PiecesResume | internal/packet/conn.go:209-237 | cutting after a wait continues the same pieces |
| PacketDownload.AppendKeeps | internal/packet/conn.go:220-233 | a stored block keeps the 8 MiB and 512-block bounds |
| PacketDownload.ReleaseKeeps | internal/packet/conn.go:248-266 | an accepted cursor keeps them as well |
| PacketDelivery.PacketFlight | packet.go:373-387 | merged body and cursor of a flight, or an error exactly when it is empty or over 64 KiB |
| PacketDelivery.AnswerTruthful | internal/packet/conn.go:76-134 | a true copy keeps the receiver truthful, whenever and however often it comes |
| PacketDelivery.ReadsArePrefix | internal/packet/conn.go:76-170 | in every run with loss, repetition and reordering, including the two merged flights: bytes read are a prefix of bytes written, block k applied once as the k-th |
| PacketDelivery.HeadMakesProgress | internal/packet/conn.go:96-131 | in every run, when the reader waits, any copy of the missing block is accepted and gives it bytes |
| PacketDelivery.CopyAnswered | internal/packet/conn.go:76-134 | in every run any copy of any request is answered: gone if and only if its block is more than 32 below the next one, out of the window if and only if it is 16 or more above it or has the last number, full if and only if it is new, in the window and does not fit; otherwise accepted, never a conflict; a block already stored, and every refusal, changes nothing |
| PacketDelivery.LaterCopy | packet.go:606-618 | between any two moments of a run: a stored block is later accepted again without change while it waits or is among the last 32 applied, and gone afterwards; a block once inside the window never closes the session |
| PacketResume.EachBlockOnce | internal/packet/conn.go:239-308 | in every run with broken responses, late or repeated requests and acks: the client has each block below its cursor once and in order, and no later block is released |
| PacketResume.RequestsAreGrantedOrStale | internal/packet/conn.go:268-281 | in every run any request the client ever made, arriving however late or often, is granted if it is newer than all granted and stale otherwise; none finds its blocks gone, which would close the session |
| PacketResume.OnlyNewestIsServed | internal/packet/conn.go:283-308 | in every run a block goes only to the generation granted last; the handler of any other response is told that it is stale, wherever its cursor stands |
| PacketResume.OldGenerationsAreOver | internal/packet/conn.go:268-308 | once a generation is granted, in every later state no older one is granted or served, its handler finds itself stale and its response gets no further block |
| PacketResume.AcksAreAccepted | internal/packet/conn.go:239-266 | in every run any acknowledgement, arriving however late or often, is accepted |
| PacketResume.CurrentResponseContinues | packet.go:676-702 | in every run the current response continues at the client's cursor and never finds a block gone |
| Startup.AnswerKeeps | startup.go:55-185 | every request keeps the session's invariant |
| Startup.StartupStaysInOrder | startup.go:72-185 | in every run: up = ceil(steps/2), down = floor(steps/2), the journal is filled exactly below the steps done, at most 880 KiB, nothing reaches the multiplexer before HELLO is committed |
| Startup.SessionBudget | contract.go:5-10 | the kept bytes never exceed 880 KiB and reach exactly that |
| Startup.RepetitionsDoNotMatter | startup.go:97-150 | the run without repeated and quota-refused requests ends in the same state |
| Startup.CommitsInOrder | startup.go:108-183 | steps are committed once each, in order |
| Startup.SameReply | startup.go:83-106 | whatever happens in between, a second request for a step gets the first reply byte for byte if and only if the session is alive, in time and not upgraded, the request is not cancelled and, for an upload, the digest is the same; otherwise it is rejected |
| Startup.AnsweredExactly | startup.go:83-150 | a request is answered if and only if the session serves it and its step is stored, with the same digest for an upload, or is the next one and can be committed: a login first, only then frames, after HELLO, that the multiplexer takes; quota and encoding for a response |
| Startup.CommitDoes | startup.go:113-183 | a commit hands an upload's frames to the multiplexer, a login nothing, and a response carries HELLO or exactly the frames that the multiplexer has given for it |
| Startup.RefusedChangesNothing | startup.go:83-175 | a request that is not answered changes nothing, or ends the session: exactly a late one, an upload whose frames the multiplexer refuses, and a response that cannot be encoded |
| Startup.LoginNeeded | startup.go:113-124 | in every run without an upload 0 of one AUTH frame, stream and sequence 0, with a body that the password check accepts: no step is done, the multiplexer is untouched and every request but such a login is rejected |
| Startup.AuthedByPassword | startup.go:113-124 | in every run, if anybody is logged in, any step is done or any stream was opened, then such a login was asked |
| Startup.TwoMinutes | startup.go:91-96 | whatever happens, 120 seconds after the first step no request is answered and no carrier takes over, and the first late request ends the session |
| Startup.ResponseFits | startup.go:151-172 | the response of a round can be encoded, except a first one whose HELLO is too long: exact condition |
| StartupQuota.BuildResponse | startup.go:151-164 | the response carries HELLO before the first and what one take gives after it; it fails only as encoding does |
| StartupQuota.StartupServer.Reserve | startup.go:27-37 | reserves exactly when the 64 MiB quota has room, and the books without the reservations in flight stay as they were |
| StartupQuota.StartupServer.GiveBack | startup.go:165-167 | a reservation given back leaves those books as they were |
| StartupQuota.StartupServer.Release | startup.go:39-43 | the last reference gives the bytes back |
| StartupQuota.StartupServer.ClearJournal | startup.go:45-53 | every entry's reference goes, the books stay balanced |
| StartupQuota.StartupServer.Replay | startup.go:97-106 | a replay holds a reference of its own |
| StartupQuota.StartupServer.Commit | startup.go:178-183 | a new result starts with two references and its reserved bytes |
| StartupQuota.StartupServer.CommitUpload | startup.go:113-143 | the upload branch is the one of the session's runs, so `Startup.LoginNeeded` and `Startup.AnsweredExactly` hold of it, and keeps the books |
| StartupQuota.StartupServer.CommitDownload | startup.go:151-177 | behind its reservation the download branch is the specified one; the reservation becomes the result's bytes, and a failed encoding gives it back |
| StartupQuota.StartupServer.Begin | startup.go:55-150 | up to the reservation: the specified reply and session, or the reservation of exactly the download that is due, granted exactly when the counter with all reservations of other handlers has room |
| StartupQuota.StartupServer.Finish | startup.go:151-183 | the rest of a download, whatever other sessions have done since: the specified reply and session, the books balanced, only this reservation gone |
| StartupQuota.StartupServer.Handle | startup.go:55-185 | an uninterrupted request gets the specified reply and session, other sessions and reservations stay as they are, every reference is accounted for |
| StartupQuota.StartupServer.FinishWrite | startup.go:206-207 | the end of a write drops its reference |
| StartupQuota.StartupServer.Close | transport.go:124-134 | a closed session gives its journal back |
| StartupQuota.StartupServer.Upgrade | realtime.go:87-98 | the take-over happens exactly when the request suits the carrier and the session has done its forty steps, is alive and before its deadline; it gives the journal back |
| StartupQuota.StartupServer.AllReturned | startup.go:20-53 | without journals and writers the counter is exactly what the handlers at work have reserved |
| StartupQuota.StartupServer.JournalIsCounted | startup.go:20-53 | what a journal keeps is referred to and, beside all reservations in flight, within the counter |

## Left out

- HTTP, WebSocket, TLS, DNS, cookies, headers, Caddyfile, site files, destination policy and dialing: library behaviour; their outcomes are inputs of the model.
- Statistics counters, logging and metrics.
- Timers: the 2 ms coalescing and batching waits and the heartbeat only decide when a step runs, so any order of steps is allowed instead. Expiry in startup compares a given time with the deadline.
- Readers that refill a channel while a `take` is running: a take is one step.
- Goroutines of a stream that has left the table: they only stop. A retired stream keeps its last state for the theorems about its bytes.
- `Peer.Close` within two-peer runs: a closed peer takes and receives nothing, so a run simply ends there. `Multiplexer.Close` models the flag; the closing of sockets is left out.
- The choice of readers, writers and dials between socket errors and cancellation: a failure may happen at any moment.
- Pressure.FrameOverhead is an estimate: it is computed as in the code, and the capacity choice is proved for every value of it. The other counts of the report (streams, readable, queued, opened) are statistics.
- CellWriter.QuietExactly: is about a report and a take with nothing in between; `NextCell` takes any report, since the peer may change after it.
- MuxRun.Delivery: is about safety; that everything arrives in the end needs a fair scheduler and network, which the model does not have.
- StartupQuota.StartupServer.Finish: takes the multiplexer as a value; what its readers and writers do between reservation and take is in the runs of `Startup.dfy` only.
- CellWriter.Carrier.NextCell: is one pass of the writer's loop; the wait for work between passes is not modelled.
- OrderedUpload.UploadQueue.Leave: lets either outcome be noticed when a cell was applied and its request ended at the same time.
- PacketConn.Conn.WriteLocked: a write that waits is continued by another call with the rest; one writer per connection is assumed.
- Multiplexer.Fail marks the stream; the cancelled context and the closed socket that stop its reader and writer are left out.
- The retained replies of the two packet setup requests (beginPacket, authenticatePacket) and packet session admission: simple lookups beside the connection.
- Session slots and eviction (getSession, reservePacketSession).
- The client program is not part of the repository; its numbering of uploads and its download cursor are modelled from the server's side of the protocol and its documentation.
