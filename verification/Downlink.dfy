/** lib/downlink.c: one downlink context over the shared slab, and the loop that fills a packet from it. */
module Downlink {
  import opened Bytes
  import opened DownlinkModel
  import opened BlockSlab

  /** `n` bytes of the head block are read. */
  function Consume(d: Down, n: nat): Down
    requires d.held != [] && n <= |d.held[0].data|
  {
    var cell := d.held[0];
    d.(held := [cell.(data := cell.data[n..])] + d.held[1..], returned := d.returned + cell.data[..n])
  }

  /** The head block goes back to the slab and the next one, if any, takes its place. */
  function Release(free: seq<nat>, d: Down): (seq<nat>, Down)
    requires d.held != []
  {
    ([d.held[0].id] + free, d.(held := d.held[1..], fetched := d.held[1..] != []))
  }

  /** One round of the loop of get_data, with a block in hand. The flag says that it finished the last block. */
  function ReadCell(free: seq<nat>, d: Down, want: nat): (seq<nat>, Down, bool)
    requires d.held != []
  {
    var cell := d.held[0];
    var d' := Consume(d, Min(want, |cell.data|));
    if want < |cell.data| then (free, d', false)
    else var (free', d'') := Release(free, d'); (free', d'', cell.last)
  }

  /** k_fifo_get into current_block, where that is NULL. */
  function Fetch(d: Down): Down {
    d.(fetched := d.fetched || d.held != [])
  }

  /** One round of the loop of get_data: the slab, the context, the bytes copied, whether the last block was
      read to its end, and whether the loop is done. */
  function Round(free: seq<nat>, d: Down, want: nat): (seq<nat>, Down, nat, bool, bool) {
    if d.held == [] then (free, Fetch(d), 0, false, true)
    else
      var (free', d', last) := ReadCell(free, Fetch(d), want);
      var n := Min(want, |d.held[0].data|);
      (free', d', n, last, last || n == want)
  }

  lemma RoundShrinks(free: seq<nat>, d: Down, want: nat)
    ensures var (_, d', n, _, done) := Round(free, d, want);
            n <= want && (!done ==> |d'.held| < |d.held|)
  {
  }

  /** The loop of get_data, round by round. */
  function ReadCells(free: seq<nat>, d: Down, want: nat): (seq<nat>, Down, bool)
    decreases |d.held|
  {
    if want == 0 then (free, d, false)
    else
      RoundShrinks(free, d, want);
      var (free', d', n, last, done) := Round(free, d, want);
      if done then (free', d', last) else ReadCells(free', d', want - n)
  }

  lemma DrainRound(free: seq<nat>, d: Down, want: nat)
    requires want > 0 && d.held != []
    ensures var n := Min(want, |d.held[0].data|);
            var (free', d', last) := ReadCell(free, d, want);
            && (want < |d.held[0].data| ==> d'.held != [])
            && d' == d.(held := d'.held, returned := d.returned + d.held[0].data[..n],
                        fetched := if want < |d.held[0].data| then d.fetched else d'.held != [])
            && Drain(free, d.held, want) ==
                 if last then Drained(free', d'.held, d.held[0].data[..n], true)
                 else
                   var r := Drain(free', d'.held, want - n);
                   Drained(r.free, r.rest, d.held[0].data[..n] + r.out, r.last)
  {
    var cell := d.held[0];
    if want < |cell.data| {
      assert cell.data[..want] + [] == cell.data[..want];
    } else {
      assert cell.data[..|cell.data|] == cell.data;
      assert Consume(d, |cell.data|).held[1..] == d.held[1..];
    }
  }

  lemma FinalRound(free: seq<nat>, d: Down, want: nat)
    requires want > 0 && d.held != [] && Round(free, d, want).4
    ensures var (free', d', _, last, _) := Round(free, d, want);
            var r := Drain(free, d.held, want);
            (free', d', last) == (r.free, After(d, r, want), r.last)
  {
    var (free', d', n, last, _) := Round(free, d, want);
    DrainRound(free, Fetch(d), want);
    if !last {
      assert Drain(free', d'.held, 0) == Drained(free', d'.held, [], false);
      assert d.held[0].data[..n] + [] == d.held[0].data[..n];
    }
  }

  lemma InnerRound(free: seq<nat>, d: Down, want: nat)
    requires want > 0 && d.held != [] && !Round(free, d, want).4
    ensures var (free', d', n, _, _) := Round(free, d, want);
            var r, r' := Drain(free, d.held, want), Drain(free', d'.held, want - n);
            && (r.free, After(d, r, want), r.last) == (r'.free, After(d', r', want - n), r'.last)
            && (d'.fetched ==> d'.held != [])
  {
    var (free', d', n, _, _) := Round(free, d, want);
    DrainRound(free, Fetch(d), want);
    ConcatAssociates(d.returned, d.held[0].data[..n], Drain(free', d'.held, want - n).out);
  }

  /** The loop does what a read is specified to do. */
  lemma {:induction false} ReadCellsIsDrain(free: seq<nat>, d: Down, want: nat)
    requires d.fetched ==> d.held != []
    ensures var r := Drain(free, d.held, want);
            ReadCells(free, d, want) == (r.free, After(d, r, want), r.last)
    decreases |d.held|
  {
    if want == 0 || d.held == [] {
      assert d.returned + [] == d.returned;
    } else {
      var (free', d', n, _, done) := Round(free, d, want);
      if done {
        FinalRound(free, d, want);
      } else {
        InnerRound(free, d, want);
        RoundShrinks(free, d, want);
        ReadCellsIsDrain(free', d', want - n);
      }
    }
  }

  /** The caller's buffer as get_data fills it: `room` bytes are asked for, `filled` are in, `content` says
      which, and everything behind them is as it was. */
  class Packet {
    const buf: array<byte>
    const room: nat
    var filled: nat
    ghost var content: seq<byte>
    ghost const before: seq<byte>

    ghost predicate Valid()
      reads this, buf
    {
      && |content| == filled <= room <= buf.Length == |before|
      && buf[..filled] == content && buf[filled..] == before[filled..]
    }

    constructor (dst: array<byte>, n: nat)
      requires n <= dst.Length
      ensures Valid() && buf == dst && room == n && content == [] && before == dst[..]
    {
      buf, room, filled, content, before := dst, n, 0, [], dst[..];
    }

    /** block_get to the end of what is filled, whose result is ignored: within a block it cannot fail. */
    method Fill(block: Block, offset: nat, n: nat)
      requires Valid() && block.Valid() && offset + n <= block.len && filled + n <= room && buf != block.data
      modifies this, buf
      ensures Valid() && content == old(content) + block.content[offset..offset + n]
    {
      ghost var piece := block.content[offset..offset + n];
      var ok := block.Get(offset, buf, filled, n);
      assert ok && buf[filled..filled + n] == piece;
      assert buf[..filled + n] == old(buf[..filled]) + piece;
      assert before[filled + n..] == before[filled..][n..];
      filled, content := filled + n, content + piece;
    }
  }

  /** struct pouch_gateway_downlink_context. Ghost: the cells behind current_block and the queue, the history,
      and whether the context was given back to the heap, after which it is not valid and cannot be used. */
  class Context {
    const slab: Slab
    var queue: seq<nat>
    var current: Option<nat>
    var offset: nat
    var complete: bool
    var aborted: bool
    var waiting: bool
    var coapError: bool

    ghost var head: seq<Cell>
    ghost var tail: seq<Cell>
    ghost var received: seq<byte>
    ghost var returned: seq<byte>
    ghost var wakeups: nat
    ghost var dryReads: nat
    ghost var freed: bool

    /** The blocks of this context: distinct, and not free. */
    ghost predicate Owned()
      reads this, slab
    {
      && (forall k :: 0 <= k < |queue| ==> queue[k] < NUM_BLOCKS && queue[k] !in slab.free)
      && (forall j, k :: 0 <= j < k < |queue| ==> queue[j] != queue[k])
      && (current.Some? ==> current.value < NUM_BLOCKS && current.value !in slab.free && current.value !in queue)
    }

    ghost predicate Valid()
      reads this, slab, slab.blocks, set b | b in slab.blocks :: b.data
    {
      && !freed && slab.Valid() && Owned()
      && |tail| == |queue|
      && (forall k :: 0 <= k < |queue| ==> tail[k] == slab.CellOf(queue[k]))
      && (if current == None then offset == 0 && head == []
          else
            var cell := slab.CellOf(current.value);
            offset <= |cell.data| && head == [cell.(data := cell.data[offset..])])
    }

    ghost function Model(): Down
      reads this
    {
      Down(head + tail, current.Some?, complete, aborted, waiting, coapError,
           received, returned, wakeups, dryReads)
    }

    /** pouch_gateway_downlink_open, once the context is allocated. */
    constructor (shared: Slab)
      requires shared.Valid()
      ensures slab == shared && Valid() && Model() == FRESH_DOWNLINK
    {
      slab := shared;
      queue, current, offset := [], None, 0;
      complete, aborted, waiting, coapError := false, false, true, false;
      head, tail, received, returned, wakeups, dryReads := [], [], [], [], 0, 0;
      freed := false;
    }

    /** Calls data_available_cb if the transport waits and has no block in hand. */
    method WakeTransport()
      requires Valid()
      modifies this`waiting, this`wakeups
      ensures Valid() && Model() == Wake(old(Model()))
    {
      if current == None && waiting {
        waiting, wakeups := false, wakeups + 1;
      }
    }

    /** block_alloc, block_append and block_mark_last. Blocks that are not free stay as they are. */
    method FillBlock(data: seq<byte>, last: bool) returns (id: Option<nat>)
      requires slab.Valid() && |data| <= BLOCK_SIZE
      modifies slab`free
      modifies if slab.free == [] then {} else {slab.blocks[slab.free[0]], slab.blocks[slab.free[0]].data}
      ensures slab.Valid()
      ensures id == if old(slab.free) == [] then None else Some(old(slab.free)[0])
      ensures slab.free == if old(slab.free) == [] then [] else old(slab.free)[1..]
      ensures id.Some? ==> id.value < NUM_BLOCKS && slab.CellOf(id.value) == Cell(id.value, data, last)
      ensures forall k :: 0 <= k < NUM_BLOCKS && k !in old(slab.free) ==> slab.CellOf(k) == old(slab.CellOf(k))
    {
      id := slab.Alloc();
      if id.Some? {
        slab.Store(id.value, data, last);
      }
    }

    /** k_fifo_put of a block just filled. */
    method Put(id: nat)
      requires Valid() && id < NUM_BLOCKS && id !in slab.free && id !in queue && current != Some(id)
      modifies this`queue, this`tail, this`received
      ensures Valid()
      ensures var cell := slab.CellOf(id);
              Model() == old(Model()).(held := old(Model()).held + [cell], received := old(received) + cell.data)
    {
      var cell := slab.CellOf(id);
      assert head + tail + [cell] == head + (tail + [cell]);
      queue, tail, received := queue + [id], tail + [cell], received + cell.data;
    }

    /** pouch_gateway_downlink_block_cb. Blocks owned elsewhere stay as they are. */
    method BlockCallback(data: seq<byte>, last: bool) returns (status: Status)
      requires Valid() && |data| <= BLOCK_SIZE
      modifies this, slab`free
      modifies if slab.free == [] then {} else {slab.blocks[slab.free[0]], slab.blocks[slab.free[0]].data}
      ensures Valid()
      ensures (slab.free, Model(), status) == BlockArrives(old(slab.free), old(Model()), data, last)
      ensures status == if aborted then Nack else if old(slab.free) == [] then NoBlock else Accepted
      ensures forall k :: 0 <= k < NUM_BLOCKS && k !in old(slab.free) ==> slab.CellOf(k) == old(slab.CellOf(k))
    {
      if aborted {
        return Nack;
      }
      var id := FillBlock(data, last);
      if id == None {
        return NoBlock;
      }
      Put(id.value);
      WakeTransport();
      return Accepted;
    }

    /** current_block = k_fifo_get. */
    method FetchNext()
      requires Valid() && current == None
      modifies this`queue, this`tail, this`current, this`head
      ensures Valid() && (current == None ==> queue == [])
      ensures Model() == Fetch(old(Model()))
    {
      if queue != [] {
        assert tail[0].data[0..] == tail[0].data;
        assert head + tail == [tail[0]] + tail[1..];
        current, head := Some(queue[0]), [tail[0]];
        queue, tail := queue[1..], tail[1..];
      }
    }

    method EnsureCurrent()
      requires Valid()
      modifies this`queue, this`tail, this`current, this`head
      ensures Valid() && Model() == Fetch(old(Model())) && (current == None ==> Model().held == [])
    {
      if current == None {
        FetchNext();
      }
    }

    /** The unread bytes of current_block: the offset never passes its length, so nothing wraps. */
    method Unread() returns (n: nat)
      requires Valid() && current.Some?
      ensures n == |Model().held[0].data|
    {
      n := slab.blocks[current.value].len - offset;
    }

    /** The next `n` unread bytes of current_block go into the packet. */
    method CopyBytes(packet: Packet, n: nat)
      requires Valid() && current.Some? && n <= |head[0].data|
      requires Apart(packet) && packet.filled + n <= packet.room
      modifies packet, packet.buf
      ensures Valid() && packet.Valid() && packet.content == old(packet.content) + head[0].data[..n]
    {
      var block := slab.blocks[current.value];
      assert block.content[offset..][..n] == block.content[offset..offset + n];
      packet.Fill(block, offset, n);
    }

    method Advance(n: nat)
      requires Valid() && current.Some? && n <= |head[0].data|
      modifies this`offset, this`head, this`returned
      ensures Valid() && Model() == Consume(old(Model()), n)
    {
      assert (head + tail)[1..] == tail;
      returned := returned + head[0].data[..n];
      head := [head[0].(data := head[0].data[n..])];
      offset := offset + n;
    }

    /** current_block = NULL. */
    method DropCurrent() returns (id: nat)
      requires Valid() && current.Some?
      modifies this`current, this`head, this`offset
      ensures Valid() && current == None && id == old(head)[0].id
      ensures id < NUM_BLOCKS && id !in slab.free && id !in queue
      ensures Model() == old(Model()).(held := old(Model()).held[1..], fetched := false)
    {
      assert (head + tail)[1..] == [] + tail;
      id := current.value;
      offset, current, head := 0, None, [];
    }

    /** block_free on a block this context no longer uses. */
    method GiveBack(id: nat)
      requires Valid() && id < NUM_BLOCKS && id !in slab.free && id !in queue && current != Some(id)
      modifies slab`free
      ensures Valid() && slab.free == [id] + old(slab.free)
    {
      slab.Free(id);
    }

    /** block_free on current_block. */
    method FreeCurrent() returns (last: bool)
      requires Valid() && current.Some?
      modifies this`current, this`head, this`offset, slab`free
      ensures Valid() && current == None
      ensures var d := old(Model());
              && last == d.held[0].last
              && slab.free == [d.held[0].id] + old(slab.free)
              && Model() == d.(held := d.held[1..], fetched := false)
    {
      last := slab.blocks[current.value].isLast;
      var id := DropCurrent();
      GiveBack(id);
    }

    /** block_free on current_block, and the next one is fetched. */
    method FinishBlock() returns (last: bool)
      requires Valid() && current.Some?
      modifies this`queue, this`tail, this`current, this`head, this`offset, slab`free
      ensures Valid() && (slab.free, Model()) == Release(old(slab.free), old(Model()))
      ensures last == old(Model()).held[0].last
    {
      last := FreeCurrent();
      FetchNext();
    }

    /** The packet is well formed and no part of the slab. */
    ghost predicate Apart(packet: Packet)
      reads slab, slab.blocks, packet, packet.buf
    {
      packet.Valid() && forall b :: b in slab.blocks ==> b.data != packet.buf
    }

    /** One round of the loop, from the copy on. `base` was returned before this packet. */
    method ReadRound(ghost base: seq<byte>, packet: Packet) returns (last: bool)
      requires Valid() && current.Some? && Apart(packet) && returned == base + packet.content
      modifies this`queue, this`tail, this`current, this`head, this`offset, this`returned, slab`free
      modifies packet, packet.buf
      ensures Valid() && Apart(packet) && returned == base + packet.content
      ensures var want := packet.room - old(packet.filled);
              && (slab.free, Model(), last) == ReadCell(old(slab.free), old(Model()), want)
              && packet.filled == old(packet.filled) + Min(want, |old(Model()).held[0].data|)
      ensures var cell := old(Model()).held[0];
              var finished := packet.filled == old(packet.filled) + |cell.data|;
              && (last <==> finished && cell.last)
              && slab.free == (if finished then [cell.id] else []) + old(slab.free)
    {
      last := false;
      var unread := Unread();
      var n := Min(packet.room - packet.filled, unread);
      ConcatAssociates(base, packet.content, head[0].data[..n]);
      CopyBytes(packet, n);
      Advance(n);
      if n == unread {
        last := FinishBlock();
      }
    }

    /** A round of the loop. It is done when the packet is full, the last block is read, or none is left. */
    method ReadStep(ghost base: seq<byte>, packet: Packet) returns (last: bool, done: bool)
      requires Valid() && Apart(packet) && returned == base + packet.content
      modifies this`queue, this`tail, this`current, this`head, this`offset, this`returned, slab`free
      modifies packet, packet.buf
      ensures Valid() && Apart(packet) && returned == base + packet.content && packet.filled >= old(packet.filled)
      ensures var want := packet.room - old(packet.filled);
              (slab.free, Model(), packet.filled - old(packet.filled), last, done)
                == Round(old(slab.free), old(Model()), want)
    {
      EnsureCurrent();
      if current == None {
        return false, true;
      }
      last := ReadRound(base, packet);
      done := last || packet.filled == packet.room;
    }

    /** The same round, as part of a loop that is to end in `goal`. */
    method ReadMore(ghost base: seq<byte>, ghost goal: (seq<nat>, Down, bool), packet: Packet)
      returns (last: bool, done: bool)
      requires Valid() && Apart(packet) && returned == base + packet.content && packet.filled < packet.room
      requires ReadCells(slab.free, Model(), packet.room - packet.filled) == goal
      modifies this`queue, this`tail, this`current, this`head, this`offset, this`returned, slab`free
      modifies packet, packet.buf
      ensures Valid() && Apart(packet) && returned == base + packet.content
      ensures if done then (slab.free, Model(), last) == goal
              else packet.room - packet.filled + |Model().held| < old(packet.room - packet.filled + |Model().held|)
                   && ReadCells(slab.free, Model(), packet.room - packet.filled) == goal
    {
      RoundShrinks(slab.free, Model(), packet.room - packet.filled);
      last, done := ReadStep(base, packet);
    }

    /** The loop of get_data. Each round wants fewer bytes or leaves fewer blocks. */
    method ReadLoop(ghost base: seq<byte>, ghost goal: (seq<nat>, Down, bool), packet: Packet) returns (last: bool)
      requires Valid() && Apart(packet) && returned == base + packet.content
      requires ReadCells(slab.free, Model(), packet.room - packet.filled) == goal
      modifies this`queue, this`tail, this`current, this`head, this`offset, this`returned, slab`free
      modifies packet, packet.buf
      ensures Valid() && Apart(packet) && returned == base + packet.content
      ensures (slab.free, Model(), last) == goal
    {
      last := false;
      while packet.filled < packet.room
        invariant Valid() && Apart(packet) && returned == base + packet.content
        invariant ReadCells(slab.free, Model(), packet.room - packet.filled) == goal
        decreases packet.room - packet.filled + |Model().held|
      {
        var done;
        last, done := ReadMore(base, goal, packet);
        if done {
          return last;
        }
      }
      last := false;
    }

    method ReadPacket(dst: array<byte>, room: nat) returns (total: nat, last: bool)
      requires Valid() && room <= dst.Length
      requires forall b :: b in slab.blocks ==> b.data != dst
      modifies this`queue, this`tail, this`current, this`head, this`offset, this`returned, slab`free, dst
      ensures Valid()
      ensures var r := Drain(old(slab.free), old(Model()).held, room);
              && (slab.free, Model(), last) == (r.free, After(old(Model()), r, room), r.last)
              && total <= room && dst[..total] == r.out
      ensures forall k :: total <= k < dst.Length ==> dst[k] == old(dst[k])
    {
      ReadCellsIsDrain(slab.free, Model(), room);
      var packet := new Packet(dst, room);
      last := ReadLoop(returned, ReadCells(slab.free, Model(), room), packet);
      total := packet.filled;
      assert packet.content == returned[|old(returned)|..];
      forall k | total <= k < dst.Length ensures dst[k] == old(dst[k]) {
        assert dst[total..][k - total] == packet.before[total..][k - total];
      }
    }

    method SetComplete()
      requires Valid()
      modifies this`complete
      ensures Valid() && Model() == old(Model()).(complete := true)
    {
      complete := true;
    }

    method SetWaiting()
      requires Valid()
      modifies this`waiting, this`dryReads
      ensures Valid() && Model() == old(Model()).(waiting := true, dryReads := old(dryReads) + 1)
    {
      waiting, dryReads := true, dryReads + 1;
    }

    /** The flags and the result of get_data, `len` bytes having been put out. */
    method ReportRead(ghost out: seq<byte>, len: nat, last: bool, room: nat) returns (isLast: bool, code: Code)
      requires Valid() && len == |out| <= room
      modifies this`complete, this`waiting, this`dryReads
      ensures Valid()
      ensures Read(slab.free, Model(), out, isLast, code) == Report(slab.free, old(Model()), out, last, room)
      ensures code != NoData
    {
      isLast, code := last, Ok;
      if isLast {
        SetComplete();
      } else if len < room {
        if coapError {
          isLast := true;
          SetComplete();
        } else {
          code := Again;
          if len == 0 {
            SetWaiting();
          }
        }
      }
    }

    /** pouch_gateway_downlink_get_data into the first `room` bytes of `dst`. Without data the length is not
        touched; otherwise it becomes the number of bytes put in. */
    method GetData(dst: array<byte>, room: nat) returns (len: nat, isLast: bool, code: Code)
      requires Valid() && room <= dst.Length
      requires forall b :: b in slab.blocks ==> b.data != dst
      modifies this, slab`free, dst
      ensures Valid() && len <= room
      ensures var out := if code == NoData then [] else dst[..len];
              Read(slab.free, Model(), out, isLast, code)
                == DownlinkModel.GetData(old(slab.free), old(Model()), room)
      ensures code == NoData ==> len == room && dst[..] == old(dst[..])
      ensures forall k :: len <= k < dst.Length ==> dst[k] == old(dst[k])
    {
      if complete {
        return room, false, NoData;
      }
      var last;
      len, last := ReadPacket(dst, room);
      isLast, code := ReportRead(dst[..len], len, last, room);
    }

    method FreeQueued()
      requires Valid() && queue != []
      modifies this`queue, this`tail, slab`free
      ensures Valid() && tail == old(tail)[1..] && slab.free == [old(tail)[0].id] + old(slab.free)
    {
      var id := queue[0];
      queue, tail := queue[1..], tail[1..];
      GiveBack(id);
    }

    /** flush_block_queue. */
    method FlushQueue()
      requires Valid()
      modifies this`queue, this`tail, slab`free
      ensures Valid() && queue == [] && slab.free == FreeAll(old(slab.free), old(tail))
    {
      while queue != []
        invariant Valid() && FreeAll(slab.free, tail) == FreeAll(old(slab.free), old(tail))
        decreases |queue|
      {
        FreeQueued();
      }
    }

    /** pouch_gateway_downlink_close: every block goes back to the slab and the context to the heap. */
    method Close()
      requires Valid()
      modifies this, slab`free
      ensures freed && slab.Valid() && slab.free == SlabAfterClose(old(slab.free), old(Model()))
    {
      assert current.Some? ==> (head + tail)[1..] == tail;
      assert current == None ==> head + tail == tail;
      FlushQueue();
      if current.Some? {
        var _ := FreeCurrent();
      }
      freed := true;
    }

    /** pouch_gateway_downlink_abort. */
    method Abort()
      requires Valid()
      modifies this, slab`free
      ensures old(complete) ==> freed && slab.Valid() && slab.free == SlabAfterClose(old(slab.free), old(Model()))
      ensures !old(complete) ==> Valid() && Model() == old(Model()).(aborted := true) && slab.free == old(slab.free)
    {
      aborted := true;
      if complete {
        Close();
      }
    }

    /** pouch_gateway_downlink_end_cb. On success it does not look at the context, which may be gone by then. */
    method EndCallback(ok: bool)
      requires !ok ==> Valid()
      modifies this, slab`free
      ensures ok ==> unchanged(this) && unchanged(slab)
      ensures !ok && old(aborted) ==>
                freed && slab.Valid() && slab.free == SlabAfterClose(old(slab.free), old(Model()))
      ensures !ok && !old(aborted) ==> Valid() && Model() == ErrorEnd(old(Model())) && slab.free == old(slab.free)
    {
      if !ok {
        if aborted {
          Close();
        } else {
          SetError();
          WakeTransport();
        }
      }
    }

    method SetError()
      requires Valid()
      modifies this`coapError
      ensures Valid() && Model() == old(Model()).(coapError := true)
    {
      coapError := true;
    }
  }
}
