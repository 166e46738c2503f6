# Verified model of the Golioth Pouch gateway

The gateway relays between Bluetooth nodes and the cloud. Data from a node is re-cut into blocks and uploaded
(uplink), blocks from the cloud are re-cut into packets (downlink), the server certificate is sent to the node
and the device certificate fetched from it, and all of that happens in a fixed order of stages per connection.
This project models that logic in Dafny and proves what it keeps over every run.

`dafny verify dfyconfig.toml` checks the whole project.

## How it is built

Each component has a value model (a datatype of states, its entry points as step functions, runs of events,
invariants and theorems) and a class with the fields of the C structure whose methods update them in place. Every
entry point is proved to move the object as the step function of the model does, from every state the model can
reach, so the theorems about runs speak about the objects too: one session (`Uplink.Session`), its Bluetooth side
(`UplinkTransport.Link`), all downlinks on one slab (`Gateway.Downlinks`), the server certificate
(`Cert.ServerCert`) and a node (`BtNode.NodeInfo`). The classes also account for what they allocate.

| file | what it holds |
|---|---|
| `Bytes.dfy`, `Chunking.dfy` | bytes, the block size, the pure chunker |
| `UplinkModel.dfy`, `Uplink.dfy` | `lib/uplink.c`: theorems over runs; the session object, its heap blocks and write loop |
| `UplinkTransport.dfy`, `UplinkReconnect.dfy` | `lib/bt/uplink.c`: who may still touch a session; several connections of one node structure |
| `DownlinkModel.dfy`, `DownlinkParties.dfy`, `DownlinkSystem.dfy` | `lib/downlink.c`: one context; its two parties; all contexts over one slab |
| `BlockSlab.dfy`, `Downlink.dfy` | `lib/block.c` and `lib/downlink.c` in place |
| `CertModel.dfy`, `Cert.dfy` | `lib/cert.c` and the resend rule of `lib/bt/server_cert.c` |
| `Discovery.dfy` | `lib/bt/connect.c`: which characteristic a descriptor belongs to |
| `Gateway.dfy` | all downlink contexts as objects over one slab |
| `PacketizerSlot.dfy`, `StageModel.dfy` | `lib/bt/*.c`: the shared packetizer pointer and the order of stages, on values |
| `BtParts.dfy`, `BtNode.dfy` | the same with the pointers of `struct pouch_gateway_node_info` and what they allocate |
| `Connection.dfy` | the stages of a node together with the certificate they send and the serial number it reports |
| `Delivery.dfy` | the stages of a node together with the downlink context they open, and all others |

The block size, the number of slab blocks and the certificate size are constants without a value, so every
result holds for all of them. Block numbers and the certificate id are 32 bits wide and wrap.

## What is assumed

- Every entry point (write, close, completion, block callback, end callback, get_data, abort, certificate update,
  each Bluetooth callback) is one atomic step, and steps interleave in any order. The results do not hold at the
  granularity of single flag operations: in `lib/uplink.c` SENDING is cleared before `rblock` is freed (76-83),
  `closed` is read before the queue (105-107) and a block can be queued between the empty test and the flag
  being cleared (107-118); in `lib/downlink.c` a block can be queued between the empty test and WAITING being
  set (166-181), and a context can be aborted while `block_cb` waits for a block (59-64). A callback made at the
  end of a step, such as data_available_cb aborting the context, is the step that follows.
- CONFIG_POUCH_GATEWAY_CLOUD is on. Without it no downlink, and so no uplink, is ever started.
- malloc may fail at any call: a write is given the number of block allocations the heap grants. The slab fails
  exactly when no block is free.
- The cloud client calls end_cb once per downlink, with success exactly if a last block was accepted, and sends no
  block after a last or a refused one; blocks are no longer than the block size, which `block_append` does
  not check. `ErrorEndAfterClose` shows that the link between success and the last block is needed.
- The Bluetooth host ends a subscription once, with a NULL notification, and notifies only while it is active. A
  receiver reports completion only after it passed on data flagged last, whatever came of that; a packetizer asks for no
  more after get_data reported the last, and a sender completes a downlink or a certificate only after that.
- In DownlinkParties the transport reads a context only until it lets go, lets go once, and completes only what is
  complete. That the stages of a node do so is no assumption but a result (`NodeIsLegalTransport`).
- pouch_gateway_bt_stop is called for a connection before the same node structure is used for the next
  (`gateway/src/main.c:201-215`).

## Where the code falls short of what one would expect

Each of these is a theorem that says exactly when.

- An uplink closed without a byte written drops its empty block and is never ended by the cloud
  (`ZeroByteCloseNeverEnds`; a run: `ZeroByteCloseHappens`).
- A session that goes on after a failed write can report success with no block flagged last (`BareCloseHappens`). The
  Bluetooth side closes at once, so it never happens there. What happens there instead is a truncated upload that is
  flagged last and reported successful: exactly if some write brought more bytes than there was room and memory for
  (`LinkSuccessIsTransfer`; a run: `TruncationHappens`).
- The sessions of earlier connections go on uploading while the node structure is used again, and `uplink_end_cb` clears
  whatever pointer it finds there. An open session loses its pointer exactly if an earlier session of the same structure
  ends meanwhile (`PointerLostExactly`; a run: `PointerLossHappens`); it is never closed then, and data for it are refused
  (`OrphanStays`).
- When the cloud client refuses the block that a final write sends, `pouch_gateway_uplink_close` is called with NULL
  (`NullCloseExactly`; a run: `NullCloseHappens`).
- A downlink aborted before it is complete, although the transfer has ended or its last block was accepted, is never
  freed (`AbortedIsReclaimed`). The slab loses its blocks for good exactly if such an abort finds blocks in the
  context (`SlabRefills`; a run: `LeakHappens`).
- A downlink context whose uplink could not be opened, because the packetizer, the sender or the upload was refused, is
  never closed: the abort leaves that to an end_cb that does not come (`UnattachedNeverClosed`; a run:
  `OpenFailureLeaks`).
- A failed certificate download overwrites the buffer. Up to the next good one it can be delivered as the newest: by
  the transfer it falls into, exactly if it differs from the installed certificate in a byte still to be read
  (`TearsExactly`; a run: `BrokenDownloadTears`), and by every later transfer, exactly if the buffer no longer starts
  with the installed certificate (`NextTransferExactly`; a run without any update: `LaterTransferTears`).
- With no certificate installed a node that reports an empty serial number is taken to have the installed one, and the
  server certificate stage is skipped (`ProvisionedExactly`; a run: `EmptySerialCounts`).
- When a characteristic was not discovered, the search for descriptors starts at handle 1 and a descriptor of an
  earlier service is assigned to it (`UndiscoveredGets`; a run: `ForeignDescriptorHappens`).
- A downlink for which no data ever arrives keeps its packetizer, context and sender after the connection is gone
  (`LeftBehindExactly`, `LeftBehindUnheard`; a run: `LeftBehindHappens`).

## Where the code and its documentation differ

The model follows the code.

- `include/pouch_gateway/uplink.h` lets a write say that it is the last; `lib/uplink.c` ignores that, and only close
  ends an upload.
- `include/pouch_gateway/downlink.h` calls every negative result of get_data an error; -EAGAIN can come with bytes,
  which count as returned.
- `Kconfig` describes POUCH_GATEWAY_NUM_BLOCKS as shared by uplink and downlink; the uplink allocates its blocks from the
  heap, and only downlinks use the slab.

## Model

| member | source | states |
|---|---|---|
| Chunking.ChunkIsChunking | lib/uplink.c:187-211 | cutting loses no byte and gives full blocks but for the final one, which is not empty |
| Chunking.ChunkAfterFull | lib/uplink.c:189-192 | full blocks in front do not change the cut behind them, which is why a block may be held back until more arrives |
| Chunking.ChunkingIsUnique | lib/uplink.c:187-211 | a list of blocks has that shape if and only if it is the chunking |
| Chunking.ChunkCount | lib/uplink.c:187-211 | the number of blocks is the length divided by the block size, rounded up |
| UplinkModel.ProcessKeeps | lib/uplink.c:96-159 | process_uplink keeps the session invariant: blocks handed over and queued are those of the chunking, numbered in order, the block in flight is rblock |
| UplinkModel.AbsorbKeeps | lib/uplink.c:187-211 | the intake of a write keeps "queued and sent blocks are full, the byte written last is in hand", also when memory runs out |
| UplinkModel.CloseKeeps | lib/uplink.c:266-276 | the first close completes the chunking |
| UplinkModel.StepKeeps | lib/uplink.c:67-276 | every entry point of a live session keeps the invariant |
| UplinkModel.RunTakesPayloads | lib/uplink.c:204-210 | unless a write ran out of memory, the bytes taken in are the payloads written, in order |
| UplinkModel.TakenExactly | lib/uplink.c:187-211 | the bytes taken in are the bytes written if and only if no write ran out of memory |
| UplinkModel.UplinkRefinesChunker | lib/uplink.c:96-216 | on every run without failed write the cloud is handed a prefix of the chunked transfer of the bytes written, numbered from 0, and all of it when success is reported |
| UplinkModel.LastIsCeiling | lib/uplink.c:146-152 | of L bytes block k is flagged last exactly when k is ceil(L/B)-1, and every other block sent is full (NUM and M of section 2.2 of RFC 7959) |
| UplinkModel.SplitIndependence | lib/uplink.c:182-216 | two successful uploads of the same bytes are the same, however the writes were split |
| UplinkModel.LastFlag | lib/uplink.c:146-152 | on every run, memory or not: nothing is flagged before close, and the final block is flagged exactly if the close found something to submit or send |
| UplinkModel.BareCloseHappens | lib/uplink.c:197-201 | a run that reports success with no block flagged last |
| UplinkModel.EndsExactly | lib/uplink.c:85-91 | which step ends a session: with a cloud error exactly when the block in flight fails, a local error exactly when a block is refused, success exactly when the last block is completed or a close finds nothing to send; nothing is owned afterwards. That nobody calls a session after its end is UplinkTransport.LinkRunKeeps |
| UplinkModel.OneInFlight | lib/uplink.c:76-83 | between steps SENDING is set exactly while rblock holds the block sent last |
| UplinkModel.NoStall | lib/uplink.c:96-120 | stated before the step: it leaves a live session idle with blocks queued if and only if the session was idle, and the step is a write that runs out of memory with a block queued, in hand or granted, or a completion that finds nothing in flight and a block queued |
| UplinkModel.IdleIsEmpty | lib/uplink.c:96-120 | so with memory at hand an idle live session has an empty queue |
| UplinkModel.CloseDrains | lib/uplink.c:67-120 | after close each good completion shortens the queue by one, and success is reported on the completion of the last block, not earlier |
| UplinkModel.ZeroByteCloseNeverEnds | lib/uplink.c:135-144 | a closed live session is ended by some number of good completions exactly if a byte was written |
| UplinkModel.ZeroByteCloseHappens | lib/uplink.c:135-144 | a run that is never ended: a new session closed at once |
| Uplink.AbsorbAfterRoom | lib/uplink.c:189-202 | submitting a full block and allocating a new one leaves the outcome of the rest of the write unchanged, or the write fails here |
| Uplink.AbsorbAfterCopy | lib/uplink.c:204-210 | copying what fits into the block in hand leaves the outcome of the rest of the write unchanged |
| Uplink.PouchBlock.constructor | lib/uplink.c:161-173 | a new block is empty and has the block size |
| Uplink.Session.constructor | lib/uplink.c:228-232 | the memory of a session, which owns no block yet |
| Uplink.Session.Free | lib/uplink.c:59 | only an allocated block is freed, so each at most once |
| Uplink.Session.Cleanup | lib/uplink.c:49-65 | afterwards every block the session owned is freed and none is left |
| Uplink.Session.End | lib/uplink.c:113-114 | end_cb is called with the result and everything is freed |
| Uplink.Session.TakeNext | lib/uplink.c:107-122 | the head of the queue becomes rblock |
| Uplink.Session.SendTaken | lib/uplink.c:146-152 | the block goes out with the next number and the given flag |
| Uplink.Session.Process | lib/uplink.c:96-159 | the session moves by the model's process step; no block is lost, and none is left when the session ends |
| Uplink.Session.BlockUploaded | lib/uplink.c:67-94 | equals the model's completion step, with the same account of blocks |
| Uplink.Session.SubmitBlock | lib/uplink.c:175-180 | the block in hand moves to the end of the queue |
| Uplink.Session.CopyIn | lib/uplink.c:206-207 | the bytes are appended in place to the block in hand, all other blocks unchanged |
| Uplink.Session.TakeIn | lib/uplink.c:187-211 | the write loop equals the closed form of a write's intake, for every payload and every number of granted allocations |
| Uplink.Session.Write | lib/uplink.c:182-216 | equals the model's write step; new blocks are owned |
| Uplink.Session.Close | lib/uplink.c:266-276 | equals the model's close step, with the same account of blocks as the other entry points |
| Uplink.OpenSession | lib/uplink.c:223-264 | there is a session exactly if memory, first block and upload were granted; a failing call has freed all it allocated, a successful one leaves the session and its one block, in the state every run starts from |
| UplinkTransport.StarvedWriteQueues | lib/uplink.c:189-201 | a first write that runs out of memory has filled and queued a block |
| UplinkTransport.WriteEnds | lib/uplink.c:146-158 | a write ends the session exactly when it makes an idle session send and the block is refused |
| UplinkTransport.LinkStepKeeps | lib/bt/uplink.c:26-53 | every Bluetooth-side step is a legal use of the session, and calls close on NULL exactly if it is a refused final write |
| UplinkTransport.LinkRunKeeps | lib/bt/uplink.c:26-124 | on every run of one connection nobody writes after close or touches an ended session, and node->uplink is set exactly while the session is open for writing; for several connections of one node structure see UplinkReconnect |
| UplinkTransport.NullCloseExactly | lib/bt/uplink.c:39-50 | when pouch_gateway_uplink_close is called with NULL, stated on the state before the call |
| UplinkTransport.NullCloseHappens | lib/bt/uplink.c:46-50 | a run that calls close on NULL |
| UplinkTransport.StarvesExactly | lib/uplink.c:195-201 | stated before the call: a step runs out of memory exactly if it is a write of more bytes than the block in hand and the granted blocks hold |
| UplinkTransport.LinkSuccessIsTransfer | lib/bt/uplink.c:39-45 | a reported success means the whole transfer of the bytes taken in, final block flagged, and these are the bytes the node sent if and only if no step of the run was a write that brought more than there was room for |
| UplinkTransport.DataAnswers | lib/bt/uplink.c:26-53 | the answer to the receiver, exactly: no link without a session, no memory for more bytes than there is room for; what there is room for is taken in |
| UplinkTransport.DataCloses | lib/bt/uplink.c:39-50 | data that do not end the session close it exactly if they are the last or do not fit, also while a block is in flight |
| UplinkTransport.CleanupCloses | lib/bt/uplink.c:181-198 | a disconnect closes an open session and takes nothing more in |
| UplinkTransport.ClosedIsUploaded | lib/uplink.c:67-120 | a closed session with something written is brought to success by good completions, everything taken in uploaded |
| UplinkTransport.FinalDataUploads | lib/bt/uplink.c:26-53 | a node that sends its last data is brought to an end: a local error is reported, or the session is closed and, unless nothing at all was written, good completions bring it to success with the whole transfer |
| UplinkTransport.TruncationHappens | lib/bt/uplink.c:39-45 | a run in which the node sends one byte more than a block, the block alone is uploaded, and success is reported |
| UplinkReconnect.SlotRunKeeps | lib/bt/uplink.c:115-197 | over any number of connections every session is used as it may be, none is written to after its close or touched after its end, and node->uplink, when set, is the current session, open for writing |
| UplinkReconnect.CompletionEndsExactly | lib/uplink.c:85-120 | stated before it: the completion of a block ends a session exactly if it failed, or nothing is left after close, or the next block is refused |
| UplinkReconnect.PointerLostExactly | lib/bt/uplink.c:115-124 | on every run the current session, being open, has lost its pointer if and only if an earlier session of the same node structure has ended since it was opened |
| UplinkReconnect.OrphanStays | lib/bt/uplink.c:34-37 | a session cut off while open takes in nothing more, is never closed, and never ends with success |
| UplinkReconnect.OrphanRefuses | lib/bt/uplink.c:34-37 | data for it are answered with -ENOLINK and change nothing |
| UplinkReconnect.PointerLossHappens | lib/bt/uplink.c:115-145 | a run in which the end of a first upload cuts the next connection's session off |
| UplinkTransport.Link.EndCallback | lib/bt/uplink.c:115-124 | an ended session is forgotten |
| UplinkTransport.Link.CloseLink | lib/bt/uplink.c:43-49 | closes the session and clears the pointer, or reports that there is none |
| UplinkTransport.Link.DataReceived | lib/bt/uplink.c:26-53 | NoLink exactly without a session and NoMemory exactly for more bytes than there is room for; an open session is closed and forgotten exactly after the last data or a failure; otherwise equals the model |
| UplinkTransport.Link.Cleanup | lib/bt/uplink.c:193-197 | closes a session still open for writing, exactly once |
| DownlinkModel.DrainConservesBytes | lib/downlink.c:162-210 | a read returns what it takes off, and stops short only for want of blocks or behind the last |
| DownlinkModel.DrainConservesBlocks | lib/downlink.c:196-202 | a block is still held or back in the slab |
| DownlinkModel.DrainLast | lib/downlink.c:196-208 | reading the last block to its end empties the context |
| DownlinkModel.BlockAnswers | lib/downlink.c:52-86 | each status is tied by an iff to its cause and to whether the block is in the context afterwards, with its data and flag and behind the others |
| DownlinkModel.DrainFreesExactly | lib/downlink.c:187-209 | a read frees exactly the blocks it reads to their end, in order, and leaves those behind the next alone |
| DownlinkModel.DrainLastExactly | lib/downlink.c:196-208 | a read is the last exactly if it reaches the last block and reads it to its end, also if that just fills the destination |
| DownlinkModel.CloseConserves | lib/downlink.c:221-231 | closing gives every held block back |
| DownlinkParties.BlockKeeps | lib/downlink.c:52-86 | a block from the cloud, accepted or refused, keeps the stream, wake-up and ownership invariants and moves at most one block out of the slab |
| DownlinkParties.EndKeeps | lib/downlink.c:88-121 | so does the end callback, which closes an aborted context |
| DownlinkParties.ReadKeeps | lib/downlink.c:148-214 | so does a read of any size |
| DownlinkParties.LetGoKeeps | lib/downlink.c:221-248 | so does the transport when it completes or aborts |
| DownlinkSystem.SysStepKeeps | lib/downlink.c:52-248 | every step of any context keeps all contexts' invariants and the slab's balance |
| DownlinkSystem.SlabConserved | lib/block.c:35-54 | over any number of downlinks, free and held blocks add up to the size of the slab and no block has two owners |
| DownlinkSystem.HeldApart | lib/block.c:37-54 | in every reachable state a block held by one context is neither free nor held by another |
| DownlinkSystem.StreamConserved | lib/downlink.c:148-214 | bytes returned and held make up the bytes accepted, in order; a complete downlink has returned them all |
| DownlinkSystem.ReceivedExactly | lib/downlink.c:52-86 | on every run a context has received the data of just those blocks that found it not aborted and the slab not empty, in order; it has refused one exactly if one found otherwise, and taken a last one exactly if one of those was |
| DownlinkSystem.WaitingFindsNothing | lib/downlink.c:164-184 | a waiting transport has nothing to read and no error to learn of, and it is called at most once per wait |
| DownlinkSystem.WaitsUntilNews | lib/downlink.c:79-183 | on every run a waiting transport still waits, uncalled, after any steps without news |
| DownlinkSystem.NoLostWakeUp | lib/downlink.c:79-83 | after a read that returns nothing and -EAGAIN, or the opening, the transport goes on waiting and is not called until there is news, and the first news, an accepted block or a reported error, calls it exactly once |
| DownlinkSystem.WakesExactly | lib/downlink.c:79-183 | one step, in every reachable state: data_available_cb is called exactly by news for a transport that waits, and the transport waits afterwards if and only if it waited and there was no news, or it has just read in vain |
| DownlinkSystem.SuccessFindsNobodyWaiting | lib/downlink.c:88-94 | the successful end of a transfer, which calls nobody, finds nobody waiting |
| DownlinkSystem.ClosedAtMostOnce | lib/downlink.c:88-121 | a context is closed at most once and not accessed afterwards |
| DownlinkSystem.AbortedIsReclaimed | lib/downlink.c:233-248 | an aborted context whose transfer has ended is closed once, except exactly if the abort found it incomplete with the transfer ended or its last block accepted |
| DownlinkSystem.CompletedIsReclaimed | lib/bt/downlink.c:141-149 | a completed context is closed once |
| DownlinkSystem.BlocksStand | lib/downlink.c:52-62 | nothing that can still happen to a context aborted too late touches its blocks |
| DownlinkSystem.SlabRefills | lib/downlink.c:233-248 | when both parties are done with every downlink the slab is full, if and only if no abort in the run found its context incomplete, with the transfer ended or its last block accepted, and with blocks in it |
| DownlinkSystem.LeakHappens | lib/downlink.c:233-248 | for any size of the slab, a run that leaves one block missing for good |
| DownlinkSystem.ErrorEndAfterClose | lib/downlink.c:94-107 | an error end would reach a freed context exactly when the transport has completed a transfer whose last block was accepted |
| DownlinkSystem.ReadReports | lib/downlink.c:153-213 | "last" is reported exactly by the read that completes the downlink, "again" means nothing is left, otherwise the destination was filled, and later reads get no data |
| DownlinkSystem.ReadAnswers | lib/downlink.c:148-214 | bytes, last flag, code and completion of a read of any size, in terms of what it finds, in every reachable state |
| DownlinkSystem.ReadFreesExactly | lib/downlink.c:187-209 | the blocks a read frees and those it leaves, in every reachable state |
| DownlinkSystem.EndedReads | lib/downlink.c:162-213 | once the transfer has ended every read fills the destination or completes the downlink, and none says "again" |
| DownlinkSystem.EndedCompletes | lib/downlink.c:162-213 | once it has ended, a read that asks for more than is left returns exactly that, reports the last and completes the downlink, all received bytes returned |
| BlockSlab.Block.Append | lib/block.c:71-75 | bytes are appended in place |
| BlockSlab.Block.Get | lib/block.c:77-87 | -EINVAL exactly if the range passes the block size, otherwise the range is copied and nothing else touched |
| BlockSlab.Slab.constructor | lib/block.c:35 | all blocks are free |
| BlockSlab.Slab.Alloc | lib/block.c:37-49 | the first free block, reset, or none if none is free; blocks in use are unchanged |
| BlockSlab.Slab.Store | lib/downlink.c:71-76 | the new block holds the data and its flag, the others what they held |
| BlockSlab.Slab.Free | lib/block.c:51-54 | a block that is not free becomes the first free one |
| Downlink.ReadCellsIsDrain | lib/downlink.c:162-210 | the loop of get_data, round by round, equals the specified read, zero-length blocks included |
| Downlink.Packet.Fill | lib/downlink.c:189-194 | the bytes go behind what is filled, the rest of the buffer is untouched, and block_get does not fail |
| Downlink.Context.constructor | lib/downlink.c:123-146 | a new context is empty and waiting |
| Downlink.Context.WakeTransport | lib/downlink.c:79-83 | equals the model's wake-up |
| Downlink.Context.BlockCallback | lib/downlink.c:52-86 | Nack exactly for an aborted context, no memory exactly for an empty slab, otherwise accepted; equals the model step; blocks in use elsewhere are unchanged |
| Downlink.Context.FetchNext | lib/downlink.c:166-167 | the head of the queue becomes current_block |
| Downlink.Context.Unread | lib/downlink.c:188 | the length less the offset, which never wraps |
| Downlink.Context.ReadRound | lib/downlink.c:187-209 | a block read to its end, also if that just fills the packet, is freed and its last flag reported, and no other; one round equals its specification on slab, context and packet |
| Downlink.Context.ReadLoop | lib/downlink.c:162-210 | the loop ends and equals its specification; what it adds to the bytes returned is what it put into the packet |
| Downlink.Context.GetData | lib/downlink.c:148-214 | equals the model's read: bytes in the destination, length, last flag, code, new state and slab, which ReadAnswers and ReadFreesExactly give exactly |
| Downlink.Context.FlushQueue | lib/downlink.c:41-50 | every queued block goes back to the slab, in order |
| Downlink.Context.Close | lib/downlink.c:221-231 | every block goes back and the context cannot be used again |
| Downlink.Context.Abort | lib/downlink.c:233-248 | a complete context is closed, another only marked |
| Downlink.Context.EndCallback | lib/downlink.c:88-121 | success leaves context and slab alone, even if the context is gone; an error closes an aborted context and is otherwise kept for the transport |
| Gateway.OtherStaysTied | lib/block.c:35-54 | a step on one context frees only blocks of its own and fills only free ones, so the object of every other context stays what the model says it is |
| Gateway.Downlinks.constructor | lib/block.c:35 | no context yet, and all blocks free |
| Gateway.Downlinks.Open | lib/downlink.c:123-146 | a new context beside those there are; all of them stay valid, on disjoint blocks |
| Gateway.Downlinks.Block | lib/downlink.c:52-86 | the objects move as the system of all contexts does, the answer is the model's, and the system invariant is kept |
| Gateway.Downlinks.EndWithError | lib/downlink.c:94-119 | so they do for a failed transfer, which closes an aborted context |
| Gateway.Downlinks.EndWithSuccess | lib/downlink.c:88-94 | so they do for a successful one, whose context may be closed already |
| Gateway.Downlinks.Read | lib/downlink.c:148-214 | so they do for a read, which puts the model's bytes into the destination |
| Gateway.Downlinks.Complete | lib/bt/downlink.c:141-149 | so they do when the transport closes a complete downlink: its blocks go back and no other's do |
| Gateway.Downlinks.Abort | lib/downlink.c:233-248 | so they do when the transport aborts |
| Gateway.Downlinks.OneOwner | lib/block.c:37-54 | a block that one context object names is neither free nor named by another |
| CertModel.StepKeeps | lib/cert.c:97-229 | every update, read and acknowledgement keeps: the transfer's id tells when it began, and while no update succeeded since, it has read as many bytes as its offset says and is finished exactly at the end |
| CertModel.ConnectedExactly | lib/cert.c:118-229 | a download that succeeds leaves its serial number, length and bytes as the installed ones; one that fails leaves them, and overwrites the buffer as far as it got |
| CertModel.NewestExactly | lib/cert.c:113-116 | is_newest means that the updates during the transfer are a multiple of the id's range |
| CertModel.NeverTornExactly | lib/bt/server_cert.c:159-175 | in every state of the stage, whatever happened to the buffer before: no continuation without updates can deliver anything but the installed certificate, if and only if what is read and what is still to be read is that certificate (or nothing can be delivered) |
| CertModel.Finish | lib/bt/server_cert.c:98-118 | the run that delivers, and the bytes it delivers: what was read of a newest transfer and the rest of the buffer, or, for a stale one, the buffer from the start |
| CertModel.TearsExactly | lib/cert.c:206-212 | after a failed download into a clean stage a torn certificate can be delivered, if and only if the stage can still deliver and the download differs from the installed certificate in a byte still to be read |
| CertModel.ConnectedStaysClean | lib/cert.c:198-215 | the buffer still starts with the installed certificate after a download, if and only if it succeeded or wrote the same bytes as far as the certificate reaches |
| CertModel.HarmlessStaysClean | lib/cert.c:198-215 | on every run from a clean buffer whose failed downloads are harmless in that sense, buffer and transfer stay clean |
| CertModel.HarmlessDelivery | lib/bt/server_cert.c:159-175 | what such a run delivers is the current certificate in full, for any updates and piece sizes |
| CertModel.FreshDelivery | lib/bt/server_cert.c:159-175 | with successful updates only, what is delivered is the current certificate in full, for any updates and piece sizes |
| CertModel.NextTransferExactly | lib/cert.c:206-212 | a transfer begun with any buffer delivers nothing but the installed certificate, if and only if the buffer starts with it |
| CertModel.LaterTransferTears | lib/cert.c:206-212 | a run without any update that delivers what an earlier failed download left |
| CertModel.BrokenDownloadTears | lib/cert.c:206-212 | a failed download during a transfer delivers a torn certificate as newest |
| CertModel.RestartsBounded | lib/bt/server_cert.c:98-118 | in the model of the certificate alone, where an acknowledged stale transfer starts again in one step: at most one restart per successful update; for the stages that do it, see Connection.TransfersBounded |
| CertModel.Settle | lib/bt/server_cert.c:163-177 | in the same model: once updates stop, sending ends after at most one more restart, with the exact condition for delivery; that the stages get there is Connection.StagesSettle |
| Cert.ServerCertContext.constructor | lib/cert.c:107-108 | a transfer starts at offset 0 with the current id |
| Cert.ServerCert.Download | lib/cert.c:206-207 | the buffer is overwritten in place |
| Cert.ServerCert.Update | lib/cert.c:118-144 | a certificate that parses leaves its serial number, its length and itself as the installed one; any other leaves all three as they were; equals the model |
| Cert.ServerCert.OnConnected | lib/cert.c:198-229 | the buffer takes the download in any case, all else moves only on success |
| Cert.ServerCert.StartTransfer | lib/cert.c:97-111 | a fresh context for the current id, if there is memory |
| Cert.ServerCert.TestNewest | lib/cert.c:113-116 | what the answer says of a transfer: true exactly if the updates since it began are a multiple of the id's range, and then, with fewer than that, a finished one has read the length of the current certificate |
| Cert.ServerCert.GetData | lib/cert.c:151-179 | no data exactly at or behind the current length; otherwise as many bytes as fit and are left, from the offset on, the new offset, and last exactly if that is the end |
| Discovery.Nearest | lib/bt/connect.c:52-67 | the greatest value handle below a handle, the first one if several, none if there is none |
| Discovery.OwnerExactly | lib/bt/connect.c:52-75 | a known characteristic owns exactly the descriptors behind its value handle; one before them all goes to the first undiscovered characteristic |
| Discovery.HoldsLastOwned | lib/bt/connect.c:69-75 | after any reports a characteristic holds the last descriptor it owns |
| Discovery.KnownGetTheirOwn | lib/bt/connect.c:50-75 | in whatever order descriptors are reported, each known characteristic ends up with its own |
| Discovery.UndiscoveredGets | lib/bt/connect.c:50-75 | when an undiscovered characteristic is given a descriptor |
| Discovery.ForeignDescriptorHappens | lib/bt/connect.c:50-75 | a report that gives an undiscovered characteristic a descriptor of an earlier service |
| Discovery.AttrHandles.DescriptorFound | lib/bt/connect.c:50-75 | the loop assigns the descriptor to its owner and changes nothing else |
| Discovery.AttrHandles.SearchStart | lib/bt/connect.c:125-135 | the search starts behind the smallest value handle, so it skips no descriptor of a known characteristic |
| PacketizerSlot.CertBeginKeeps | lib/bt/server_cert.c:204-265 | entering the server certificate stage, with any failure, leaves the slot in use by it or free |
| PacketizerSlot.CertEndKeeps | lib/bt/server_cert.c:94-98 | the end of its subscription frees the slot |
| PacketizerSlot.DownBeginKeeps | lib/bt/downlink.c:202-240 | opening a downlink, with any failure, leaves the slot in use by it or free, and a context is returned exactly if it is open |
| PacketizerSlot.DataAvailableKeeps | lib/bt/downlink.c:154-185 | a failed subscription releases the slot |
| PacketizerSlot.DownNotifyKeeps | lib/bt/downlink.c:98-149 | the end of the downlink subscription releases the slot, completion the context |
| PacketizerSlot.CertCleanupIdempotent | lib/bt/server_cert.c:25-46 | cleaning up twice is cleaning up once |
| PacketizerSlot.DownCleanupIdempotent | lib/bt/downlink.c:27-48 | cleaning up twice is cleaning up once |
| StageModel.CertNextKeeps | lib/bt/server_cert.c:100-115 | whatever follows the server certificate is entered with the slot free and the right evidence |
| StageModel.StepKeeps | lib/bt/connect.c:80-90 | every callback keeps: at most one stage is under way, each was entered with what it needs, a receiver of the device certificate that has passed on its last data is alive only if the cloud took the certificate, what is held is subscribed for, the slot is balanced |
| StageModel.UplinkComesLast | lib/bt/device_cert.c:43-155 | the uplink is entered at most once, and only if a certificate characteristic is missing, or both certificates are settled: the server's reported provisioned or delivered while newest, the device's reported provisioned or taken by the cloud |
| StageModel.DiscoveryLeads | lib/bt/connect.c:80-92 | discovery leads to the info of a node with both certificate characteristics, with nothing provisioned, and otherwise to the uplink |
| StageModel.InfoDataLeads | lib/bt/info.c:36-65 | only the last data, if they can be stored, give the context up and are believed |
| StageModel.InfoLeads | lib/bt/info.c:75-131 | where each notification leads: a completed info to the first certificate stage not settled or the uplink, under way exactly if its calls succeed; an error nowhere |
| StageModel.CertLeads | lib/bt/server_cert.c:87-181 | the end of the subscription leads where the last word on the transfer says, under way exactly if the calls succeed; what is said before is noted and changes nothing else |
| StageModel.DevDataLeads | lib/bt/device_cert.c:43-77 | the receiver lives on unless data cannot be stored or the cloud does not take the certificate, the context until the last data |
| StageModel.DevLeads | lib/bt/device_cert.c:87-143 | where each notification leads: a completed device certificate to the uplink, an error nowhere |
| StageModel.UplinkLeads | lib/bt/uplink.c:126-179 | the uplink is entered once, with receiver, subscription and downlink exactly as the calls allow |
| StageModel.DeviceLeads | lib/bt/device_cert.c:145-202 | the same for the device certificate, or the uplink if that is provisioned |
| StageModel.ServerLeads | lib/bt/server_cert.c:183-266 | the same for the server certificate and those it skips to |
| StageModel.DownlinkLeads | lib/bt/downlink.c:91-185 | what data, completion and ends of subscription and connection leave of downlink and uplink receiver |
| StageModel.GoodRunsGoOn | lib/bt/connect.c:80-92 | on every run on which calls and transfers succeed and stages are completed, in whatever order, the connection is in one of the stages before the uplink, or the uplink is subscribed and the downlink open |
| StageModel.ReachesUplink | lib/bt/uplink.c:126-179 | from any reachable state of a stage, a node that completes this stage and those that follow gets to a subscribed uplink, if the calls on the way succeed, whatever it reports to have |
| StageModel.PacketizersBalance | lib/bt/server_cert.c:35-39 | the shared slot is never overwritten while in use, and each packetizer started is finished once, in order |
| StageModel.HeldOnlyWhileSubscribed | lib/bt/device_cert.c:25-41 | on every run a context is held only with the receiver or sender that uses it, and these only while their stage is subscribed, or, for a downlink, until it first has data |
| StageModel.LeftBehindExactly | lib/bt/connect.c:223-227 | with all subscriptions over, nothing of info, server certificate and device certificate is held, and packetizer, context and sender of the downlink are held exactly if a downlink was opened and no data for it became available |
| StageModel.LeftBehindHappens | lib/bt/connect.c:223-227 | a run that leaves them behind |
| Connection.StepKeeps | lib/bt/server_cert.c:87-266 | every callback, download, report and read keeps stages and certificate together: what was delivered was the certificate installed then, what counts as provisioned was the serial number installed then, and transfers are started only after info or after a stale one |
| Connection.StageEffect | lib/bt/server_cert.c:87-181 | which callbacks start a certificate transfer, count a certificate as delivered, or ask for the next transfer: only those of the source, for every callback in every reachable state |
| Connection.UplinkWithCurrentCert | lib/bt/server_cert.c:100-175 | when the uplink is entered with certificates to exchange, the node reported the serial number installed at that moment, or was sent, in full, the certificate installed when it acknowledged it, unless the buffer was unclean or the id came round |
| Connection.TransfersBounded | lib/bt/server_cert.c:98-118 | on every run the stages start at most one certificate transfer more than updates have succeeded |
| Connection.ResendsExactly | lib/bt/server_cert.c:94-177 | after an acknowledged transfer whose subscription then ends, with anything but its own notifications in between and the calls that follow succeeding, the stage is entered again with a transfer of what is installed then, if and only if the transfer was not the newest; otherwise the device certificate or the uplink comes next |
| Connection.AckedIsTwoNotes | lib/bt/server_cert.c:94-177 | the acknowledgement and the end of the subscription together are the one step that CertModel takes for them |
| Connection.StagesSettle | lib/bt/server_cert.c:87-266 | once updates stop, the stages can be driven to just the outcome that CertModel.Settle computes, with its number of restarts |
| Connection.ProvisionedExactly | lib/info.c:64-99 | a report makes the server certificate count as provisioned exactly if it is complete, well formed and names the installed serial number, be that empty |
| Connection.InstalledExactly | lib/cert.c:135-139 | on every run serial number and installed certificate are those of the last download that succeeded, or those of the beginning |
| Connection.EmptySerialCounts | lib/info.c:82-94 | a run that skips the server certificate stage though none is installed |
| Delivery.StepKeeps | lib/bt/downlink.c:27-241 | every callback, read and act of the cloud keeps: the node's pointer names the context this connection opened exactly until it lets go of it, and a sender left without context has completed it |
| Delivery.NodeIsLegalTransport | lib/bt/downlink.c:27-241 | whatever happens to a connection and to all others is a run of DownlinkSystem: the node reads no context it has let go of, lets go of none twice, and closes none that is not complete |
| Delivery.PointerNamesContext | lib/bt/downlink.c:27-48 | node->downlink_ctx is set exactly while the transport has not let go of the context |
| Delivery.UnattachedNeverClosed | lib/bt/downlink.c:207-234 | a context whose uplink was not opened is never closed |
| Delivery.OpenFailureLeaks | lib/bt/downlink.c:217-226 | a run that loses a context so |
| Delivery.LeftBehindUnheard | lib/bt/downlink.c:154-185 | once the node has heard every call, the downlink was never subscribed to, and is left behind, exactly if no block was accepted and no error reported |
| BtParts.Endpoint.Free | lib/bt/device_cert.c:25-41 | only what is allocated is given back, so each resource at most once |
| BtParts.Endpoint.SetCtx | lib/bt/device_cert.c:163-170 | a pointer is stored into only while it names nothing, so no context is lost |
| BtParts.Endpoint.SetPeer | lib/bt/device_cert.c:172-184 | the same for a receiver or sender |
| BtParts.Endpoint.Release | lib/bt/info.c:18-33 | afterwards the stage holds nothing and all it held is given back |
| BtParts.Endpoint.Receive | lib/bt/device_cert.c:172-201 | a failing creation or subscription leaves nothing allocated; otherwise the stage is subscribed |
| BtParts.Endpoint.ReadInfo | lib/bt/info.c:148-185 | the same for the info stage, whichever of its three calls fails |
| BtParts.Endpoint.ReadDeviceCert | lib/bt/device_cert.c:163-201 | the same for the device certificate stage |
| BtParts.ReceiverInfo.Create | lib/bt/uplink.c:151-178 | the uplink's receiver is stored only while there is none, and stays if the subscription fails |
| BtParts.ReceiverInfo.Destroy | lib/bt/uplink.c:71-79 | it is given back once, if there is one |
| BtParts.PacketizerInfo.Start | lib/bt/downlink.c:217-218 | a packetizer is started only while there is none, so none is overwritten |
| BtParts.PacketizerInfo.Finish | lib/bt/downlink.c:37-41 | it is finished once, if there is one |
| BtParts.SlotInfo.CleanupCert | lib/bt/server_cert.c:25-46 | whatever the stage held of context, packetizer and sender is given back, nothing else is, and it holds nothing any more |
| BtParts.SlotInfo.CleanupDownlink | lib/bt/downlink.c:27-48 | the same for the downlink |
| BtParts.SlotInfo.DownlinkStart | lib/bt/downlink.c:187-241 | from a free slot: whichever call fails, nothing is left allocated and the slot is free; on success the downlink holds it, and the slot's invariant is kept |
| BtParts.SlotInfo.PrepareCert | lib/bt/server_cert.c:204-240 | from a free slot: whichever call fails, nothing is left allocated |
| BtParts.SlotInfo.CertEnded | lib/bt/server_cert.c:94-98 | the end of the subscription gives everything back and frees the slot |
| BtParts.SlotInfo.DataAvailable | lib/bt/downlink.c:154-185 | afterwards the downlink is subscribed or holds nothing, and the slot's invariant is kept |
| BtParts.SlotInfo.DownlinkEnded | lib/bt/downlink.c:98-106 | the end of the subscription gives everything back that completion has not |
| BtParts.SlotInfo.DownlinkCompleted | lib/bt/downlink.c:141-149 | the context is given up, once, and the rest stays for the end of the subscription |
| BtNode.NodeInfo.constructor | lib/bt/connect.c:204-205 | the node is cleared and holds nothing |
| BtNode.NodeInfo.UplinkStart | lib/bt/uplink.c:126-179 | entered between stages and with both certificates settled, it overwrites no pointer in use, loses nothing whichever call fails, and keeps the invariant of all stages |
| BtNode.NodeInfo.DeviceCertRead | lib/bt/device_cert.c:145-202 | the same for the device certificate stage, or the uplink if the certificate is provisioned |
| BtNode.NodeInfo.ServerCertWrite | lib/bt/server_cert.c:183-266 | the same for the server certificate stage and those it may skip to |
| BtNode.NodeInfo.InfoReadStart | lib/bt/info.c:141-186 | whichever call fails, nothing is left allocated unless the stage is subscribed |
| BtNode.NodeInfo.DiscoveryEnded | lib/bt/connect.c:80-92 | enters the first stage; the invariant is kept and nothing is lost |
| BtNode.NodeInfo.InfoDataReceived | lib/bt/info.c:36-65 | the context is given up on the last data only; the invariant is kept and nothing is lost |
| BtNode.NodeInfo.InfoNotify | lib/bt/info.c:75-131 | a completed info leads on: to the server certificate of a node not said to have it, or else to the device certificate or the uplink; everything of this stage is given back, the invariant is kept and nothing is lost |
| BtNode.NodeInfo.ServerCertNotify | lib/bt/server_cert.c:87-181 | the same for the server certificate, whose context is not NULL when is_newest is asked |
| BtNode.NodeInfo.DeviceCertDataReceived | lib/bt/device_cert.c:43-77 | the context is given up once the cloud took the certificate, and with the receiver on any failure; the invariant is kept |
| BtNode.NodeInfo.DeviceCertNotify | lib/bt/device_cert.c:87-143 | a completed device certificate leads to the uplink, subscribed and with its downlink open if the calls succeed; context and receiver are given back, the invariant is kept and nothing is lost |
| BtNode.NodeInfo.UplinkNotify | lib/bt/uplink.c:63-113 | the receiver is given up at the end of the subscription; the invariant is kept |
| BtNode.NodeInfo.DataAvailable | lib/bt/downlink.c:154-185 | the invariant of all stages is kept and nothing is lost |
| BtNode.NodeInfo.DownlinkNotify | lib/bt/downlink.c:91-152 | the invariant of all stages is kept and nothing is lost or closed twice |
| BtNode.NodeInfo.Stop | lib/bt/connect.c:223-227 | the receiver, and a subscribed downlink, are given back; the invariant is kept |
| BtNode.NodeInfo.Handle | lib/bt/connect.c:80-227 | any callback, from any state the stages can reach: the node moves as the model does, every allocation is named by its pointer or was given back, none twice, and no pointer in use is overwritten |
| BtNode.NodeInfo.FreedExactly | lib/bt/connect.c:223-227 | after a run that ends in pouch_gateway_bt_stop, with all subscriptions over, nothing is allocated, if and only if no downlink was opened without ever having data |

## Left out

- The GATT sender, receiver and packetizer, CBOR decoding, certificate parsing and the Golioth SDK are not part of this
  model; they appear as events and outcomes, under the assumptions above.
- Interleaving within one entry point, real timeouts and log output.
- CONFIG_POUCH_GATEWAY_CLOUD off, and the built-in certificate that goes with it.
- Device certificate and info buffers (`lib/cert.c:43-95`, `lib/info.c:1-63`): bounded appends that would only add easy
  members.
- Radio, bonding, scanning, GPIO and network glue (`gateway/src/main.c`, `samples/`, `lib/bt/scan.c`, `lib/bt/bond.c`),
  service discovery, and `pouch_gateway_bt_finished`, which only asks for a disconnect.
- NACK and idle replies, which change no field.
- UplinkTransport.Link: the session of one connection as an object; several connections of one node structure are on
  values, in UplinkReconnect.
- Connection and Delivery compose the value models; of the objects only the parts are proved equal to these.
- BtNode.NodeInfo: the node's structure is split into objects of two pointers each; node->uplink is modelled by
  UplinkTransport.Link instead, and node->downlink_ctx as a resource of its own, not as the Downlink.Context it names.
- BtParts.Endpoint: giving back stands for abort, finish, destroy and close alike; an aborted downlink context is given
  up by the node here, and what becomes of it is in Delivery.
- Downlink.Context: the context's memory is not a block of the C heap; closing it makes it unusable.
- Uplink.Session: a session that has ended is kept as an object so that its history can be spoken about; every
  method refuses it.
