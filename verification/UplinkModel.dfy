/** One uplink session on values: its entry points as steps, and what holds after any run of them. */
module UplinkModel {
  import opened Bytes
  import opened Chunking

  datatype EndResult = Success | ErrorLocal | ErrorCloud

  /** One call of golioth_gateway_uplink_block: block number, payload and last flag. */
  datatype Sent = Sent(num: nat, data: seq<byte>, last: bool)

  /** The fields of struct pouch_gateway_uplink, then the history of the session.
      `written` are the bytes taken in, `sent` the blocks handed to the cloud and `ended` the calls of
      end_cb. `starved` records that a write ran out of memory, `bare` that the first close found
      nothing left to submit or send. */
  datatype State = State(
    blockIdx: nat, closed: bool, sending: bool,
    wblock: Option<seq<byte>>, rblock: Option<seq<byte>>, queue: seq<seq<byte>>,
    written: seq<byte>, sent: seq<Sent>, ended: seq<EndResult>, starved: bool, bare: bool)

  function Held(o: Option<seq<byte>>): seq<byte> {
    if o.Some? then o.value else []
  }

  function Datas(sent: seq<Sent>): (ds: seq<seq<byte>>)
    ensures |ds| == |sent| && forall k :: 0 <= k < |sent| ==> ds[k] == sent[k].data
  {
    seq(|sent|, k requires 0 <= k < |sent| => sent[k].data)
  }

  const FRESH_SESSION := State(0, false, false, Some([]), None, [], [], [], [], false, false)

  function Finish(s: State, result: EndResult): State {
    s.(wblock := None, rblock := None, queue := [], ended := s.ended + [result])
  }

  /** The block in rblock is offered to the cloud client, which takes it if `accept`. */
  function Offer(s: State, accept: bool): State
    requires s.rblock.Some?
  {
    var call := Sent(s.blockIdx, s.rblock.value, s.queue == [] && s.closed);
    var s' := s.(blockIdx := (s.blockIdx + 1) % WORD, sent := s.sent + [call]);
    if accept then s' else Finish(s', ErrorLocal)
  }

  /** The second half of process_uplink: the head of the queue goes out, or is dropped if it is empty. */
  function SendNext(s: State, accept: bool): State
    requires s.queue != []
  {
    var block, rest := s.queue[0], s.queue[1..];
    if block == [] then s.(queue := rest, rblock := None, sending := false)
    else Offer(s.(queue := rest, rblock := Some(block), sending := true), accept)
  }

  /** process_uplink. */
  function Process(s: State, accept: bool): State {
    if s.sending then s
    else if s.queue != [] then SendNext(s, accept)
    else if s.closed then Finish(s.(sending := true), Success)
    else s
  }

  /** Bytes that `allocs` further blocks can hold. */
  function Capacity(allocs: nat): nat {
    if allocs == 0 then 0 else BLOCK_SIZE + Capacity(allocs - 1)
  }

  function Room(w: Option<seq<byte>>, allocs: nat): nat {
    (if w.Some? && |w.value| <= BLOCK_SIZE then BLOCK_SIZE - |w.value| else 0) + Capacity(allocs)
  }

  /** The blocks `cs` are cut from what was in hand and `bytes`; the final one stays in hand. */
  function TakenIn(s: State, cs: seq<seq<byte>>, bytes: seq<byte>): State
    requires cs != []
  {
    s.(queue := s.queue + cs[..|cs| - 1], wblock := Some(cs[|cs| - 1]), written := s.written + bytes)
  }

  function RanOut(s: State, cs: seq<seq<byte>>, bytes: seq<byte>): State {
    s.(queue := s.queue + cs, wblock := None, written := s.written + bytes, starved := true)
  }

  /** The intake half of a write, in closed form. `allocs` is the number of block allocations the heap
      grants during the call. Everything that fits is cut into blocks; all but the final one are queued
      and the final one stays in hand. If the heap gives out, every filled block has been queued. */
  function Absorb(s: State, payload: seq<byte>, allocs: nat): (State, bool) {
    var w, room := Held(s.wblock), Room(s.wblock, allocs);
    if payload == [] then (s, true)
    else if |payload| <= room then
      var cs := Chunk(w + payload);
      ChunkIsChunking(w + payload);
      (TakenIn(s, cs, payload), true)
    else
      (RanOut(s, Chunk(w + payload[..room]), payload[..room]), false)
  }

  /** pouch_gateway_uplink_write. Out of memory, it returns an error and leaves the queue alone. */
  function Write(s: State, payload: seq<byte>, allocs: nat, accept: bool): (State, bool) {
    var (s', ok) := Absorb(s, payload, allocs);
    if ok then (Process(s', accept), true) else (s', false)
  }

  /** submit_block. */
  function Submit(s: State): State
    requires s.wblock.Some?
  {
    s.(queue := s.queue + [s.wblock.value], wblock := None)
  }

  /** The first close submits the block in hand. */
  function MarkClosed(s: State): State {
    if s.closed then s
    else
      var s' := if s.wblock.Some? then Submit(s) else s;
      s'.(closed := true, bare := s.bare || s'.queue == [])
  }

  /** pouch_gateway_uplink_close. */
  function Close(s: State, accept: bool): State {
    Process(MarkClosed(s), accept)
  }

  /** block_upload_callback. */
  function Completed(s: State, ok: bool, accept: bool): State {
    if !s.sending then s
    else
      var s' := s.(sending := false, rblock := None);
      if ok then Process(s', accept) else Finish(s', ErrorCloud)
  }

  datatype Event =
    | EvWrite(payload: seq<byte>, allocs: nat, accept: bool)
    | EvClose(accept: bool)
    | EvCompleted(ok: bool, accept: bool)

  /** The session is alive, and nobody writes to it after closing it. */
  predicate Enabled(s: State, e: Event) {
    s.ended == [] && (e.EvWrite? ==> !s.closed)
  }

  function Step(s: State, e: Event): State {
    match e
    case EvWrite(payload, allocs, accept) => Write(s, payload, allocs, accept).0
    case EvClose(accept) => Close(s, accept)
    case EvCompleted(ok, accept) => Completed(s, ok, accept)
  }

  /** The state after a run of events, if each was enabled when it happened. */
  function Run(es: seq<Event>): Option<State> {
    if es == [] then Some(FRESH_SESSION)
    else
      var before, e := Run(es[..|es| - 1]), es[|es| - 1];
      if before.Some? && Enabled(before.value, e) then Some(Step(before.value, e)) else None
  }

  function Payloads(es: seq<Event>): seq<byte> {
    if es == [] then []
    else
      var e := es[|es| - 1];
      Payloads(es[..|es| - 1]) + if e.EvWrite? then e.payload else []
  }

  // ---------------------------------------------------------------- the invariant

  /** The k-th block handed over is the k-th block of `cs`, carries number k, and is flagged last
      exactly if it is the final one and `flagging`. */
  ghost predicate Matches(sent: seq<Sent>, cs: seq<seq<byte>>, flagging: bool) {
    && |sent| <= |cs|
    && forall k :: 0 <= k < |sent| ==> sent[k] == Sent(k % WORD, cs[k], flagging && k == |cs| - 1)
  }

  ghost predicate SentAsChunked(s: State) {
    && Matches(s.sent, Chunk(s.written), s.closed && !s.bare)
    && s.blockIdx == |s.sent| % WORD
    && HoldsBack(s)
  }

  /** Unless memory ran out, an open session has not handed over the block that will be the last. */
  ghost predicate HoldsBack(s: State) {
    !s.closed && !s.starved && s.written != [] ==> |s.sent| < |Chunk(s.written)|
  }

  /** Everything cut off so far: handed to the cloud, then queued. */
  function Blocks(s: State): seq<seq<byte>> {
    Datas(s.sent) + s.queue
  }

  /** Before close everything cut off is a full block, and the byte written last is still in hand. */
  ghost predicate OpenInv(s: State) {
    && AllFull(Blocks(s))
    && |Held(s.wblock)| <= BLOCK_SIZE
    && s.written == Flatten(Blocks(s)) + Held(s.wblock)
    && (s.written != [] && !s.starved ==> Held(s.wblock) != [])
    && (s.written == [] <==> s.wblock == Some([]))
  }

  ghost predicate ClosedInv(s: State) {
    && s.wblock == None
    && Blocks(s) == Chunk(s.written)
    && (s.sending <==> s.written != [])
    && (s.bare ==> s.queue == [])
  }

  /** rblock is the block in flight. */
  ghost predicate InFlight(s: State) {
    && (s.sending ==> s.sent != [] && s.rblock == Some(s.sent[|s.sent| - 1].data))
    && (!s.sending ==> s.rblock == None)
  }

  ghost predicate Inv(s: State) {
    && SentAsChunked(s)
    && (s.bare ==> s.closed && s.starved)
    && |s.ended| <= 1
    && (s.ended == [] ==>
         && InFlight(s)
         && if s.closed then ClosedInv(s) else OpenInv(s) && (s.queue != [] && !s.sending ==> s.starved))
    && (Success in s.ended ==> s.closed && |s.sent| == |Chunk(s.written)|)
  }

  /** What Process starts from: like Inv, except that an idle session may have work to do. */
  ghost predicate ReadyInv(s: State) {
    && SentAsChunked(s)
    && (s.bare ==> s.closed && s.starved && s.queue == [])
    && s.ended == []
    && InFlight(s)
    && if !s.closed then OpenInv(s)
       else
         && s.wblock == None
         && if s.written == [] then s.sent == [] && s.queue == [[]] else Blocks(s) == Chunk(s.written)
  }

  // ---------------------------------------------------------------- every step keeps it

  lemma NextMatches(sent: seq<Sent>, cs: seq<seq<byte>>, flagging: bool)
    requires Matches(sent, cs, flagging) && |sent| < |cs|
    ensures Matches(sent + [Sent(|sent| % WORD, cs[|sent|], flagging && |sent| == |cs| - 1)], cs, flagging)
  {
  }

  lemma FailureKeeps(s: State, result: EndResult)
    requires Inv(s) && s.ended == [] && result != Success
    ensures Inv(Finish(s, result))
  {
  }

  /** The head of the queue is the next block of the chunking, and the last one exactly if it is flagged. */
  lemma HeadIsNext(s: State)
    requires ReadyInv(s) && !s.sending && s.queue != [] && s.queue[0] != []
    ensures var cs, n := Chunk(s.written), |s.sent|;
            && n < |cs| && cs[n] == s.queue[0]
            && (s.closed && !s.bare && n == |cs| - 1 <==> s.queue[1..] == [] && s.closed)
            && (!s.closed && !s.starved && s.written != [] ==> n + 1 < |cs|)
  {
    assert Blocks(s)[|s.sent|] == s.queue[0];
    if !s.closed {
      ChunkAfterFull(Blocks(s), Held(s.wblock));
      ChunkIsChunking(Held(s.wblock));
    }
  }

  lemma HeadMoves(sent: seq<Sent>, queue: seq<seq<byte>>, call: Sent)
    requires queue != [] && call.data == queue[0]
    ensures Datas(sent + [call]) + queue[1..] == Datas(sent) + queue
  {
    assert Datas(sent + [call]) == Datas(sent) + [queue[0]];
  }

  lemma ProcessSends(s: State)
    requires ReadyInv(s) && !s.sending && s.queue != [] && s.queue[0] != []
    ensures Inv(Process(s, true))
  {
    HeadIsNext(s);
    HeadMoves(s.sent, s.queue, Sent(s.blockIdx, s.queue[0], s.queue[1..] == [] && s.closed));
    NextMatches(s.sent, Chunk(s.written), s.closed && !s.bare);
  }

  lemma ProcessKeeps(s: State, accept: bool)
    requires ReadyInv(s)
    ensures Inv(Process(s, accept))
  {
    ChunkIsChunking(s.written);
    if !s.sending && s.queue != [] {
      assert Blocks(s)[|s.sent|] == s.queue[0];
      if s.queue[0] != [] {
        ProcessSends(s);
        FailureKeeps(Process(s, true), ErrorLocal);
      } else {
        assert s.queue[1..] == [];
      }
    }
  }

  lemma {:induction false} CapacityIsFull(s: seq<byte>, allocs: nat)
    requires |s| == Capacity(allocs)
    ensures AllFull(Chunk(s))
  {
    if allocs > 0 {
      if allocs == 1 {
        assert Capacity(0) == 0;
      } else {
        assert Capacity(allocs - 1) >= BLOCK_SIZE;
        CapacityIsFull(s[BLOCK_SIZE..], allocs - 1);
      }
    }
  }

  lemma FlattenButLast(blocks: seq<seq<byte>>, cs: seq<seq<byte>>)
    requires cs != []
    ensures Flatten(blocks + cs) == Flatten(blocks + cs[..|cs| - 1]) + cs[|cs| - 1]
  {
    var n := |cs| - 1;
    assert blocks + cs == (blocks + cs[..n]) + [cs[n]];
    FlattenConcat(blocks + cs[..n], [cs[n]]);
    assert Flatten([cs[n]]) == cs[n] + Flatten([]);
  }

  /** Behind full blocks, cutting `x`, that is what was in hand and new bytes, extends the chunking. */
  lemma CutExtends(blocks: seq<seq<byte>>, x: seq<byte>)
    requires AllFull(blocks) && x != []
    ensures var cs := Chunk(x);
            && Chunk(Flatten(blocks) + x) == blocks + cs
            && Flatten(blocks + cs) == Flatten(blocks) + x
            && cs != [] && AllFull(cs[..|cs| - 1]) && 0 < |cs[|cs| - 1]| <= BLOCK_SIZE
            && Flatten(blocks + cs[..|cs| - 1]) + cs[|cs| - 1] == Flatten(blocks) + x
  {
    var cs := Chunk(x);
    ChunkIsChunking(x);
    ChunkAfterFull(blocks, x);
    FlattenConcat(blocks, cs);
    FlattenButLast(blocks, cs);
  }

  /** Blocks already handed over keep their place in the chunking when more is written. */
  lemma StillMatches(s: State, cs: seq<seq<byte>>)
    requires Inv(s) && s.ended == [] && !s.closed
    ensures Matches(s.sent, Blocks(s) + cs, false)
  {
    ChunkAfterFull(Blocks(s), Held(s.wblock));
  }

  /** What a write that fits leaves cut off, in hand and written. */
  lemma TakenCut(s: State, payload: seq<byte>)
    requires Inv(s) && s.ended == [] && !s.closed && payload != []
    ensures var cs := Chunk(Held(s.wblock) + payload);
            && cs != [] && OpenInv(TakenIn(s, cs, payload))
            && Chunk(TakenIn(s, cs, payload).written) == Blocks(s) + cs
  {
    var w, cs := Held(s.wblock), Chunk(Held(s.wblock) + payload);
    CutExtends(Blocks(s), w + payload);
    ConcatAssociates(Flatten(Blocks(s)), w, payload);
    assert Blocks(TakenIn(s, cs, payload)) == Blocks(s) + cs[..|cs| - 1];
  }

  lemma AbsorbTaken(s: State, payload: seq<byte>, allocs: nat)
    requires Inv(s) && s.ended == [] && !s.closed && 0 < |payload| <= Room(s.wblock, allocs)
    ensures ReadyInv(Absorb(s, payload, allocs).0)
  {
    TakenCut(s, payload);
    StillMatches(s, Chunk(Held(s.wblock) + payload));
  }

  lemma AbsorbStarves(s: State, payload: seq<byte>, allocs: nat)
    requires Inv(s) && s.ended == [] && !s.closed && |payload| > Room(s.wblock, allocs)
    ensures ReadyInv(Absorb(s, payload, allocs).0)
  {
    var w, taken := Held(s.wblock), payload[..Room(s.wblock, allocs)];
    var cs := Chunk(w + taken);
    var s' := Absorb(s, payload, allocs).0;
    CapacityIsFull(w + taken, if s.wblock.Some? then allocs + 1 else allocs);
    assert Blocks(s') == Blocks(s) + cs;
    StillMatches(s, cs);
    if w + taken == [] {
      assert s'.written == s.written && Blocks(s') == Blocks(s);
      assert OpenInv(s');
    } else {
      CutExtends(Blocks(s), w + taken);
      ConcatAssociates(Flatten(Blocks(s)), w, taken);
      assert OpenInv(s');
    }
  }

  lemma AbsorbKeeps(s: State, payload: seq<byte>, allocs: nat)
    requires Inv(s) && s.ended == [] && !s.closed
    ensures ReadyInv(Absorb(s, payload, allocs).0)
    ensures !Absorb(s, payload, allocs).1 ==> Absorb(s, payload, allocs).0.starved
  {
    if payload == [] {
    } else if |payload| <= Room(s.wblock, allocs) {
      AbsorbTaken(s, payload, allocs);
    } else {
      AbsorbStarves(s, payload, allocs);
    }
  }

  /** The chunking of what was written, at the first close. */
  lemma ChunkedAtClose(s: State)
    requires OpenInv(s) && s.written != []
    ensures Chunk(s.written) == if s.wblock.Some? then Blocks(s) + [s.wblock.value] else Blocks(s)
  {
    ChunkAfterFull(Blocks(s), Held(s.wblock));
    if s.wblock.Some? {
      assert Chunk(s.wblock.value) == [s.wblock.value];
    } else {
      assert Blocks(s) + [] == Blocks(s);
    }
  }

  lemma FullNotEmpty(blocks: seq<seq<byte>>)
    requires AllFull(blocks) && blocks != []
    ensures Flatten(blocks) != []
  {
    assert Flatten(blocks) == blocks[0] + Flatten(blocks[1..]);
  }

  lemma NothingCut(s: State)
    requires OpenInv(s) && s.written == []
    ensures s.sent == [] && s.queue == []
  {
    if Blocks(s) != [] {
      FullNotEmpty(Blocks(s));
    }
  }

  lemma MarkClosedReady(s: State)
    requires Inv(s) && s.ended == [] && !s.closed
    ensures ReadyInv(MarkClosed(s))
  {
    if s.written == [] {
      NothingCut(s);
    } else {
      ChunkedAtClose(s);
      assert s.wblock.Some? ==> Datas(s.sent) + (s.queue + [s.wblock.value]) == Blocks(s) + [s.wblock.value];
    }
  }

  lemma CloseKeeps(s: State, accept: bool)
    requires Inv(s) && s.ended == [] && !s.closed
    ensures Inv(Close(s, accept))
  {
    MarkClosedReady(s);
    ProcessKeeps(MarkClosed(s), accept);
  }

  lemma StepKeeps(s: State, e: Event)
    requires Inv(s) && Enabled(s, e)
    ensures Inv(Step(s, e))
  {
    match e
    case EvWrite(payload, allocs, accept) =>
      AbsorbKeeps(s, payload, allocs);
      var (s', ok) := Absorb(s, payload, allocs);
      if ok {
        ProcessKeeps(s', accept);
      }
    case EvClose(accept) =>
      if !s.closed {
        CloseKeeps(s, accept);
      }
    case EvCompleted(ok, accept) =>
      if s.sending && ok {
        ProcessKeeps(s.(sending := false, rblock := None), accept);
      }
  }

  // ---------------------------------------------------------------- what every run guarantees

  lemma {:induction false} RunKeeps(es: seq<Event>)
    requires Run(es).Some?
    ensures Inv(Run(es).value)
  {
    if es != [] {
      var n := |es| - 1;
      RunKeeps(es[..n]);
      StepKeeps(Run(es[..n]).value, es[n]);
    }
  }

  lemma ProcessTakesNothing(s: State, accept: bool)
    ensures Process(s, accept).written == s.written && Process(s, accept).starved == s.starved
  {
  }

  lemma AbsorbTakes(s: State, payload: seq<byte>, allocs: nat)
    ensures var s' := Absorb(s, payload, allocs).0;
            && s'.written == s.written + payload[..Min(|payload|, Room(s.wblock, allocs))]
            && (s'.starved <==> s.starved || |payload| > Room(s.wblock, allocs))
  {
    if payload == [] {
      assert s.written + payload[..0] == s.written;
    } else if |payload| <= Room(s.wblock, allocs) {
      assert payload[..|payload|] == payload;
    }
  }

  lemma OthersTakeNothing(s: State, e: Event)
    requires !e.EvWrite?
    ensures Step(s, e).written == s.written && Step(s, e).starved == s.starved
  {
    if e.EvClose? {
      ProcessTakesNothing(MarkClosed(s), e.accept);
    } else {
      ProcessTakesNothing(s.(sending := false, rblock := None), e.accept);
    }
  }

  /** The bytes of a write that are taken in: all there is room for. */
  function Taken(s: State, e: Event): (n: nat)
    requires e.EvWrite?
    ensures n <= |e.payload|
  {
    Min(|e.payload|, Room(s.wblock, e.allocs))
  }

  /** What a step adds to the bytes taken in, and whether it runs out of memory. */
  lemma StepTakes(s: State, e: Event)
    ensures var s' := Step(s, e);
            && s'.written == s.written + (if e.EvWrite? then e.payload[..Taken(s, e)] else [])
            && (s'.starved <==> s.starved || (e.EvWrite? && |e.payload| > Room(s.wblock, e.allocs)))
  {
    if e.EvWrite? {
      AbsorbTakes(s, e.payload, e.allocs);
      ProcessTakesNothing(Absorb(s, e.payload, e.allocs).0, e.accept);
    } else {
      OthersTakeNothing(s, e);
      assert s.written + [] == s.written;
    }
  }

  lemma {:induction false} RunTakesPayloads(es: seq<Event>)
    requires Run(es).Some? && !Run(es).value.starved
    ensures Run(es).value.written == Payloads(es)
  {
    if es != [] {
      var n := |es| - 1;
      StepTakes(Run(es[..n]).value, es[n]);
      assert es[n].EvWrite? ==> es[n].payload[..|es[n].payload|] == es[n].payload;
      RunTakesPayloads(es[..n]);
    }
  }

  lemma {:induction false} RunTakesAtMost(es: seq<Event>)
    requires Run(es).Some?
    ensures |Run(es).value.written| <= |Payloads(es)|
    ensures Run(es).value.starved <==> |Run(es).value.written| < |Payloads(es)|
  {
    if es != [] {
      var n := |es| - 1;
      StepTakes(Run(es[..n]).value, es[n]);
      RunTakesAtMost(es[..n]);
    }
  }

  /** The bytes taken in are the bytes written exactly if no write ran out of memory. */
  lemma TakenExactly(es: seq<Event>)
    requires Run(es).Some?
    ensures Run(es).value.written == Payloads(es) <==> !Run(es).value.starved
  {
    RunTakesAtMost(es);
    if !Run(es).value.starved {
      RunTakesPayloads(es);
    }
  }

  /** The blockwise transfer of `bytes`: its blocks in order, numbered, the final one flagged. */
  function Transfer(bytes: seq<byte>): seq<Sent> {
    var cs := Chunk(bytes);
    seq(|cs|, k requires 0 <= k < |cs| => Sent(k % WORD, cs[k], k == |cs| - 1))
  }

  /** Refinement: whatever the interleaving of writes, closes and completions, if no write ran out of memory
      the cloud is handed the transfer of the written bytes, block by block, and the whole of it when success
      is reported. */
  lemma UplinkRefinesChunker(es: seq<Event>)
    requires Run(es).Some? && !Run(es).value.starved
    ensures Run(es).value.sent <= Transfer(Payloads(es))
    ensures Success in Run(es).value.ended ==> Run(es).value.sent == Transfer(Payloads(es))
  {
    RunKeeps(es);
    RunTakesPayloads(es);
    var s := Run(es).value;
  }

  lemma MulAtMost(a: nat, b: nat, c: nat)
    requires a <= b
    ensures a * c <= b * c
  {
  }

  lemma TransferIsCeiling(bytes: seq<byte>, k: nat)
    requires k < |Transfer(bytes)|
    ensures var call := Transfer(bytes)[k];
            && (call.last <==> k * BLOCK_SIZE < |bytes| <= (k + 1) * BLOCK_SIZE)
            && (!call.last ==> |call.data| == BLOCK_SIZE)
  {
    var cs := Chunk(bytes);
    ChunkCount(bytes);
    ChunkIsChunking(bytes);
    if k < |cs| - 1 {
      MulAtMost(k + 1, |cs| - 1, BLOCK_SIZE);
    }
  }

  /** Of L bytes, block k is flagged last exactly when k is ceil(L / BLOCK_SIZE) - 1; every other block sent
      is full. */
  lemma LastIsCeiling(es: seq<Event>, k: nat)
    requires Run(es).Some? && !Run(es).value.starved && k < |Run(es).value.sent|
    ensures var call, length := Run(es).value.sent[k], |Payloads(es)|;
            && (call.last <==> k * BLOCK_SIZE < length <= (k + 1) * BLOCK_SIZE)
            && (!call.last ==> |call.data| == BLOCK_SIZE)
  {
    UplinkRefinesChunker(es);
    assert Run(es).value.sent[k] == Transfer(Payloads(es))[k];
    TransferIsCeiling(Payloads(es), k);
  }

  /** How the bytes were split over writes does not show: equal bytes, equal upload. */
  lemma SplitIndependence(es: seq<Event>, es': seq<Event>)
    requires Run(es).Some? && !Run(es).value.starved && Run(es').Some? && !Run(es').value.starved
    requires Payloads(es) == Payloads(es')
    requires Success in Run(es).value.ended && Success in Run(es').value.ended
    ensures Run(es).value.sent == Run(es').value.sent
  {
    UplinkRefinesChunker(es);
    UplinkRefinesChunker(es');
  }

  /** The last flag on every run, memory or not. Nothing is flagged before close; once all is handed
      over, the final block is flagged exactly if the close still found something to submit or send. */
  lemma LastFlag(es: seq<Event>)
    requires Run(es).Some?
    ensures var s := Run(es).value;
            && Matches(s.sent, Chunk(s.written), s.closed && !s.bare)
            && (s.bare ==> s.starved)
            && (!s.closed ==> forall k :: 0 <= k < |s.sent| ==> !s.sent[k].last)
            && (s.closed && s.sent != [] && |s.sent| == |Chunk(s.written)| ==>
                  (s.sent[|s.sent| - 1].last <==> !s.bare))
  {
    RunKeeps(es);
  }

  /** An upload reported successful with no block flagged last: one full block is queued when memory
      runs out, an empty write sends it, and the close comes after its completion. */
  lemma BareCloseHappens(payload: seq<byte>)
    requires |payload| == BLOCK_SIZE + 1
    ensures var es := [EvWrite(payload, 0, true), EvWrite([], 0, true), EvCompleted(true, true), EvClose(true)];
            && Run(es).Some?
            && Run(es).value.ended == [Success]
            && Run(es).value.sent == [Sent(0, payload[..BLOCK_SIZE], false)]
  {
    var es := [EvWrite(payload, 0, true), EvWrite([], 0, true), EvCompleted(true, true), EvClose(true)];
    assert es[..3][..2] == es[..2] && es[..3][..2][..1] == es[..1] && es[..1][..0] == [];
    var s1 := Step(FRESH_SESSION, es[0]);
    assert Capacity(0) == 0 && [] + payload[..BLOCK_SIZE] == payload[..BLOCK_SIZE];
    assert Chunk(payload[..BLOCK_SIZE]) == [payload[..BLOCK_SIZE]];
    assert Run(es[..1]) == Some(s1);
    var s2 := Step(s1, es[1]);
    assert Run(es[..2]) == Some(s2);
    var s3 := Step(s2, es[2]);
    assert Run(es[..3]) == Some(s3);
  }

  /** How process_uplink can end a session: a refused block, or nothing left to send after close. */
  lemma ProcessEnds(s: State, accept: bool)
    requires s.ended == []
    ensures var s' := Process(s, accept);
            && ErrorCloud !in s'.ended
            && (ErrorLocal in s'.ended <==> !accept && |s'.sent| > |s.sent|)
            && (Success in s'.ended <==> !s.sending && s.queue == [] && s.closed)
            && (s'.ended != [] ==> |s'.ended| == 1 && s'.wblock == None && s'.rblock == None && s'.queue == [])
  {
  }

  /** When end_cb is called, and with what: an error of the cloud exactly for a failed completion of the block
      in flight, a local error exactly when a block is offered and refused, and success exactly when the last
      block is completed or a close finds nothing to send. The session then owns no block. */
  lemma EndsExactly(es: seq<Event>, e: Event)
    requires Run(es).Some? && Enabled(Run(es).value, e)
    ensures var s, s' := Run(es).value, Step(Run(es).value, e);
            && |s'.ended| <= 1
            && (ErrorCloud in s'.ended <==> e.EvCompleted? && !e.ok && s.sending)
            && (ErrorLocal in s'.ended <==> !e.accept && |s'.sent| > |s.sent|)
            && (Success in s'.ended <==>
                  || (e.EvCompleted? && e.ok && s.sending && s.closed && s.queue == [])
                  || (e.EvClose? && !s.sending && MarkClosed(s).queue == []))
            && (s'.ended != [] ==> s'.wblock == None && s'.rblock == None && s'.queue == [])
  {
    var s := Run(es).value;
    match e
    case EvWrite(payload, allocs, accept) => ProcessEnds(Absorb(s, payload, allocs).0, accept);
    case EvClose(accept) => ProcessEnds(MarkClosed(s), accept);
    case EvCompleted(ok, accept) => ProcessEnds(s.(sending := false, rblock := None), accept);
  }

  /** Between steps SENDING is set exactly while a block is in flight, and then it is the block sent last. */
  lemma OneInFlight(es: seq<Event>)
    requires Run(es).Some? && Run(es).value.ended == []
    ensures var s := Run(es).value;
            && (s.sending <==> s.rblock.Some?)
            && (s.sending ==> s.sent != [] && s.rblock.value == s.sent[|s.sent| - 1].data)
  {
    RunKeeps(es);
  }

  /** Alive, idle, and with a block in the queue that only the next write, close or completion sends. */
  predicate Stalled(s: State) {
    s.ended == [] && !s.sending && s.queue != []
  }

  /** What process_uplink leaves behind is never stalled; an empty block that it drops was the only one. */
  lemma ProcessLeavesNoStall(s: State, accept: bool)
    requires ReadyInv(s)
    ensures !Stalled(Process(s, accept))
  {
    if !s.sending && s.queue != [] && s.queue[0] == [] {
      assert Blocks(s)[|s.sent|] == s.queue[0];
      ChunkIsChunking(s.written);
    }
  }

  /** A write that runs out of memory leaves something in the queue exactly if something was there, in hand, or
      granted. */
  lemma RanOutQueues(s: State, payload: seq<byte>, allocs: nat)
    requires |payload| > Room(s.wblock, allocs) && |Held(s.wblock)| <= BLOCK_SIZE
    ensures Absorb(s, payload, allocs).0.queue != [] <==> s.queue != [] || s.wblock.Some? || allocs > 0
  {
    var taken := payload[..Room(s.wblock, allocs)];
    ChunkIsChunking(Held(s.wblock) + taken);
    if allocs > 0 {
      assert Capacity(allocs) >= BLOCK_SIZE;
    } else {
      assert Capacity(allocs) == 0;
    }
  }

  /** The session is idle, and the event is a write that runs out of memory with a block queued, in hand or
      granted, or a completion that finds nothing in flight and a block queued. */
  predicate Stalls(s: State, e: Event) {
    && !s.sending
    && match e
       case EvWrite(payload, allocs, _) =>
         |payload| > Room(s.wblock, allocs) && (s.queue != [] || s.wblock.Some? || allocs > 0)
       case EvClose(_) => false
       case EvCompleted(_, _) => s.queue != []
  }

  lemma WriteStalls(s: State, e: Event)
    requires Inv(s) && Enabled(s, e) && e.EvWrite?
    ensures Stalled(Step(s, e)) <==> Stalls(s, e)
  {
    AbsorbKeeps(s, e.payload, e.allocs);
    if |e.payload| <= Room(s.wblock, e.allocs) {
      ProcessLeavesNoStall(Absorb(s, e.payload, e.allocs).0, e.accept);
    } else {
      RanOutQueues(s, e.payload, e.allocs);
    }
  }

  lemma StallsExactly(s: State, e: Event)
    requires Inv(s) && Enabled(s, e)
    ensures Stalled(Step(s, e)) <==> Stalls(s, e)
  {
    match e
    case EvWrite(_, _, _) => WriteStalls(s, e);
    case EvClose(accept) =>
      if !s.closed {
        MarkClosedReady(s);
        ProcessLeavesNoStall(MarkClosed(s), accept);
      }
    case EvCompleted(ok, accept) =>
      if s.sending && ok {
        ProcessLeavesNoStall(s.(sending := false, rblock := None), accept);
      }
  }

  /** No stall, exactly, stated before the step: it leaves a live session idle with blocks queued if and only if
      it is one of those. */
  lemma NoStall(es: seq<Event>, e: Event)
    requires Run(es).Some? && Enabled(Run(es).value, e)
    ensures Stalled(Step(Run(es).value, e)) <==> Stalls(Run(es).value, e)
  {
    RunKeeps(es);
    StallsExactly(Run(es).value, e);
  }

  /** With memory at hand, then, an idle live session has an empty queue. */
  lemma IdleIsEmpty(es: seq<Event>)
    requires Run(es).Some? && !Run(es).value.starved
    ensures !Stalled(Run(es).value)
  {
    RunKeeps(es);
  }

  /** `n` completions in a row, all good. */
  function Deliver(s: State, n: nat): State {
    if n == 0 then s else Completed(Deliver(s, n - 1), true, true)
  }

  /** Closed, still alive, and not the zero-byte case. */
  ghost predicate Draining(s: State) {
    Inv(s) && s.ended == [] && s.closed && s.written != []
  }

  lemma DeliverOne(s: State)
    requires Draining(s)
    ensures var d := Completed(s, true, true);
            && Inv(d) && d.written == s.written
            && (s.queue != [] ==> Draining(d) && d.queue == s.queue[1..])
            && (s.queue == [] ==> d.ended == [Success])
  {
    StepKeeps(s, EvCompleted(true, true));
    ChunkIsChunking(s.written);
    if s.queue != [] {
      assert Blocks(s)[|s.sent|] == s.queue[0];
    }
  }

  lemma {:induction false} DeliverDrains(s: State, n: nat)
    requires Draining(s) && n <= |s.queue|
    ensures Draining(Deliver(s, n))
    ensures Deliver(s, n).queue == s.queue[n..] && Deliver(s, n).written == s.written
  {
    if n > 0 {
      DeliverDrains(s, n - 1);
      DeliverOne(Deliver(s, n - 1));
    }
  }

  /** Once closed with something written, each good completion shortens the queue by one, and success is
      reported on the completion of the last block, not earlier. */
  lemma CloseDrains(es: seq<Event>, n: nat)
    requires Run(es).Some?
    requires Run(es).value.ended == [] && Run(es).value.closed && Run(es).value.written != []
    ensures var s := Run(es).value;
            && (n <= |s.queue| ==> Deliver(s, n).ended == [] && |Deliver(s, n).queue| == |s.queue| - n)
            && (n == |s.queue| + 1 ==>
                  Deliver(s, n).ended == [Success] && |Deliver(s, n).sent| == |Chunk(s.written)|)
  {
    RunKeeps(es);
    var s := Run(es).value;
    if n <= |s.queue| {
      DeliverDrains(s, n);
    } else if n == |s.queue| + 1 {
      DeliverDrains(s, |s.queue|);
      DeliverOne(Deliver(s, |s.queue|));
    }
  }

  /** A closed live session is ended by some number of good completions exactly if a byte was written. */
  lemma ZeroByteCloseNeverEnds(es: seq<Event>)
    requires Run(es).Some? && Run(es).value.ended == [] && Run(es).value.closed
    ensures Run(es).value.written == [] <==> forall m: nat :: Deliver(Run(es).value, m).ended == []
  {
    RunKeeps(es);
    var s := Run(es).value;
    if s.written == [] {
      forall m: nat ensures Deliver(s, m).ended == [] {
        IdleStays(s, m);
      }
    } else {
      CloseDrains(es, |s.queue| + 1);
      assert Deliver(s, |s.queue| + 1).ended != [];
    }
  }

  /** Closing a new session at once is such a run. */
  lemma ZeroByteCloseHappens()
    ensures var es := [EvClose(true)];
            && Run(es).Some? && Run(es).value.closed
            && forall m: nat :: Deliver(Run(es).value, m).ended == []
  {
    var es := [EvClose(true)];
    assert es[..0] == [] && Run(es) == Some(Close(FRESH_SESSION, true));
    ZeroByteCloseNeverEnds(es);
  }

  lemma {:induction false} IdleStays(s: State, n: nat)
    requires !s.sending
    ensures Deliver(s, n) == s
  {
    if n > 0 {
      IdleStays(s, n - 1);
    }
  }
}
