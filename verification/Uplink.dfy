/** lib/uplink.c: the session object, its blocks on the heap, and the in-place write loop. */
module Uplink {
  import opened Bytes
  import opened Chunking
  import opened UplinkModel

  // The loop of a write, one branch at a time: each leaves the closed form of the rest unchanged.

  /** Behind a full block the cut goes on. */
  lemma CutAfterFull(w: seq<byte>, x: seq<byte>)
    requires |w| == BLOCK_SIZE
    ensures Chunk(w + x) == [w] + Chunk(x)
    ensures x != [] ==> Chunk(x) != []
  {
    assert Flatten([w]) == w + Flatten([]) == w;
    ChunkAfterFull([w], x);
    ChunkIsChunking(x);
  }

  /** It makes no difference whether the full block is queued before the rest is cut or with it. */
  lemma SubmittedFirst(s: State, rest: seq<seq<byte>>, bytes: seq<byte>)
    requires s.wblock.Some?
    ensures RanOut(Submit(s), rest, bytes) == RanOut(s, [s.wblock.value] + rest, bytes)
    ensures rest != [] ==> TakenIn(Submit(s), rest, bytes) == TakenIn(s, [s.wblock.value] + rest, bytes)
  {
    var w := s.wblock.value;
    assert s.queue + [w] + rest == s.queue + ([w] + rest);
    if rest != [] {
      assert ([w] + rest)[..|rest|] == [w] + rest[..|rest| - 1];
      assert s.queue + [w] + rest[..|rest| - 1] == s.queue + ([w] + rest[..|rest| - 1]);
    }
  }

  lemma AbsorbAfterSubmit(s: State, payload: seq<byte>, allocs: nat)
    requires s.wblock.Some? && |s.wblock.value| == BLOCK_SIZE && payload != []
    ensures Absorb(Submit(s), payload, allocs) == Absorb(s, payload, allocs)
  {
    var taken := payload[..Min(|payload|, Capacity(allocs))];
    assert [] + taken == taken;
    assert |payload| <= Capacity(allocs) ==> taken == payload;
    CutAfterFull(s.wblock.value, taken);
    SubmittedFirst(s, Chunk(taken), taken);
  }

  /** The first half of a round of the write loop: a full block is submitted, and if none is in hand a
      new one is allocated. Also gives the allocations left. */
  function RoomMade(s: State, allocs: nat): (State, bool, nat) {
    var s' := if s.wblock.Some? && |s.wblock.value| == BLOCK_SIZE then Submit(s) else s;
    if s'.wblock.Some? then (s', true, allocs)
    else if allocs == 0 then (s'.(starved := true), false, 0)
    else (s'.(wblock := Some([])), true, allocs - 1)
  }

  lemma AbsorbAfterRoom(s: State, payload: seq<byte>, allocs: nat)
    requires payload != [] && |Held(s.wblock)| <= BLOCK_SIZE
    ensures var (s', ok, left) := RoomMade(s, allocs);
            if ok then s'.wblock.Some? && |s'.wblock.value| < BLOCK_SIZE
                       && Absorb(s', payload, left) == Absorb(s, payload, allocs)
            else Absorb(s, payload, allocs) == (s', false)
  {
    var full := s.wblock.Some? && |s.wblock.value| == BLOCK_SIZE;
    var s' := if full then Submit(s) else s;
    if full {
      AbsorbAfterSubmit(s, payload, allocs);
    }
    if s'.wblock == None && allocs == 0 {
      assert s'.queue + [] == s'.queue && s'.written + [] == s'.written;
    }
  }

  /** memcpy into the block in hand. */
  function Copied(s: State, bytes: seq<byte>): State
    requires s.wblock.Some?
  {
    s.(wblock := Some(s.wblock.value + bytes), written := s.written + bytes)
  }

  lemma AbsorbAfterCopy(s: State, payload: seq<byte>, allocs: nat, n: nat)
    requires s.wblock.Some? && |s.wblock.value| <= BLOCK_SIZE
    requires 0 < n == Min(|payload|, BLOCK_SIZE - |s.wblock.value|)
    ensures Absorb(Copied(s, payload[..n]), payload[n..], allocs) == Absorb(s, payload, allocs)
  {
    var w, head, tail := s.wblock.value, payload[..n], payload[n..];
    var room := Room(s.wblock, allocs);
    var m := Min(|payload|, room);
    assert payload[..m] == head + tail[..m - n];
    ConcatAssociates(w, head, tail[..m - n]);
    ConcatAssociates(s.written, head, tail[..m - n]);
    assert payload == head + tail;
    assert |payload| <= room ==> payload[..m] == payload && tail[..m - n] == tail;
    if tail == [] {
      assert Chunk(w + payload) == [w + payload];
      assert s.queue + [] == s.queue;
    }
  }

  /** struct pouch_block; `content` is what its first `len` bytes hold. */
  class PouchBlock {
    var len: nat
    const data: array<byte>
    ghost var content: seq<byte>

    constructor ()
      ensures Valid() && fresh(data) && content == []
    {
      data := new byte[BLOCK_SIZE];
      len, content := 0, [];
    }

    ghost predicate Valid()
      reads this, data
    {
      data.Length == BLOCK_SIZE && |content| == len <= BLOCK_SIZE && content == data[..len]
    }
  }

  /** struct pouch_gateway_uplink. Ghost: what the blocks hold, the session's history, and the heap, where
      `live` are the blocks allocated and not freed yet and `freed` those already given back. */
  class Session {
    var blockIdx: nat
    var closed: bool
    var sending: bool
    var wblock: PouchBlock?
    var rblock: PouchBlock?
    var queue: seq<PouchBlock>

    var ended: seq<EndResult>  // the calls of end_cb so far

    ghost var wdata: Option<seq<byte>>
    ghost var rdata: Option<seq<byte>>
    ghost var qdata: seq<seq<byte>>
    ghost var written: seq<byte>
    ghost var sent: seq<Sent>
    ghost var starved: bool
    ghost var bare: bool
    ghost var live: set<PouchBlock>
    ghost var freed: set<PouchBlock>

    /** Each allocated block has exactly one owner: wblock, one place in the queue, or rblock, the last
        only while sending. */
    ghost predicate Owned()
      reads this
    {
      && (forall i :: 0 <= i < |queue| ==> queue[i] in live)
      && (wblock != null ==> wblock in live) && (rblock != null ==> rblock in live)
      && (forall b :: b in live ==> b == wblock || b == rblock || b in queue)
      && (forall i, j :: 0 <= i < j < |queue| ==> queue[i] != queue[j])
      && (wblock != null ==> wblock != rblock && wblock !in queue)
      && (rblock != null ==> rblock !in queue && sending)
    }

    ghost predicate Holds(b: PouchBlock?, content: Option<seq<byte>>)
      reads b
    {
      if b == null then content == None else content == Some(b.content)
    }

    ghost predicate Valid()
      reads this, live, set b | b in live :: b.data
    {
      && Owned() && live !! freed
      && (forall b :: b in live ==> b.Valid())
      && (forall b, c :: b in live && c in live && b != c ==> b.data != c.data)
      && Holds(wblock, wdata) && Holds(rblock, rdata)
      && |qdata| == |queue| && forall i :: 0 <= i < |queue| ==> qdata[i] == queue[i].content
    }

    /** The session as the value the model talks about. */
    ghost function Model(): State
      reads this
    {
      State(blockIdx, closed, sending, wdata, rdata, qdata, written, sent, ended, starved, bare)
    }

    /** The memory of a session, before its first block is allocated. */
    constructor ()
      ensures Valid() && Model() == FRESH_SESSION.(wblock := None)
      ensures live == {} && freed == {}
    {
      blockIdx, closed, sending := 0, false, false;
      wblock, rblock, queue := null, null, [];
      wdata, rdata, qdata := None, None, [];
      written, sent, ended, starved, bare := [], [], [], false, false;
      live, freed := {}, {};
    }

    /** free() on a block. Only an allocated block may be freed, so each is freed at most once. */
    ghost method Free(b: PouchBlock)
      requires b in live
      modifies this`live, this`freed
      ensures live == old(live) - {b} && freed == old(freed) + {b}
    {
      live, freed := live - {b}, freed + {b};
    }

    /** free(rblock), where rblock may be NULL. */
    method FreeTaken()
      requires Valid()
      modifies this`rblock, this`rdata, this`live, this`freed
      ensures Valid() && rblock == null && Model() == old(Model()).(rblock := None)
      ensures live + freed == old(live + freed) && live <= old(live)
    {
      if rblock != null {
        Free(rblock);
        rblock, rdata := null, None;
      }
    }

    /** free(wblock), where wblock may be NULL. */
    method FreeInHand()
      requires Valid()
      modifies this`wblock, this`wdata, this`live, this`freed
      ensures Valid() && wblock == null && Model() == old(Model()).(wblock := None)
      ensures live + freed == old(live + freed) && live <= old(live)
    {
      if wblock != null {
        Free(wblock);
        wblock, wdata := null, None;
      }
    }

    method FreeHead()
      requires Valid() && queue != []
      modifies this`queue, this`qdata, this`live, this`freed
      ensures Valid() && queue == old(queue)[1..]
      ensures live + freed == old(live + freed) && live <= old(live)
    {
      Free(queue[0]);
      queue, qdata := queue[1..], qdata[1..];
    }

    method FreeQueue()
      requires Valid()
      modifies this`queue, this`qdata, this`live, this`freed
      ensures Valid() && queue == [] && qdata == []
      ensures live + freed == old(live + freed)
    {
      while queue != []
        invariant Valid() && live + freed == old(live + freed)
        decreases |queue|
      {
        FreeHead();
      }
    }

    /** cleanup_uplink: everything the session still owns is given back. */
    method Cleanup()
      requires Valid()
      modifies this`queue, this`qdata, this`wblock, this`wdata, this`rblock, this`rdata, this`live, this`freed
      ensures Valid() && Model() == old(Model()).(queue := [], wblock := None, rblock := None)
      ensures live == {} && freed == old(freed + live)
    {
      FreeQueue();
      FreeInHand();
      FreeTaken();
    }

    /** end_cb, then the cleanup. */
    method End(result: EndResult)
      requires Valid() && ended == []
      modifies this
      ensures Valid() && Model() == Finish(old(Model()), result)
      ensures live == {} && freed == old(freed + live)
    {
      ended := ended + [result];
      Cleanup();
    }

    method TestAndSetSending() returns (was: bool)
      requires Valid()
      modifies this`sending
      ensures Valid() && was == old(sending) && Model() == old(Model()).(sending := true)
    {
      was := sending;
      sending := true;
    }

    method ClearSending()
      requires Valid() && rblock == null
      modifies this`sending
      ensures Valid() && Model() == old(Model()).(sending := false)
    {
      sending := false;
    }

    /** sys_slist_get on the queue, into rblock. */
    method TakeNext()
      requires Valid() && queue != [] && sending && rblock == null
      modifies this`queue, this`qdata, this`rblock, this`rdata
      ensures Valid() && rblock != null
      ensures var m := old(Model()); Model() == m.(queue := m.queue[1..], rblock := Some(m.queue[0]))
    {
      rblock, rdata := queue[0], Some(qdata[0]);
      queue, qdata := queue[1..], qdata[1..];
    }

    /** golioth_gateway_uplink_block on the block taken, and the answer of the cloud client. */
    method SendTaken(last: bool, accept: bool) returns (ok: bool)
      requires Valid() && rblock != null
      modifies this`sent, this`blockIdx
      ensures Valid() && ok == accept
      ensures var m := old(Model());
              Model() == m.(sent := m.sent + [Sent(m.blockIdx, m.rblock.value, last)],
                            blockIdx := (m.blockIdx + 1) % WORD)
    {
      sent := sent + [Sent(blockIdx, rblock.content, last)];
      blockIdx := (blockIdx + 1) % WORD;
      ok := accept;
    }

    method TakenIsEmpty() returns (empty: bool)
      requires Valid() && rblock != null
      ensures rdata.Some? && (empty <==> rdata.value == [])
    {
      empty := rblock.len == 0;
    }

    /** Drops an empty block that was taken. */
    method DropTaken()
      requires Valid() && rblock != null
      modifies this`rblock, this`rdata, this`sending, this`live, this`freed
      ensures Valid() && Model() == old(Model()).(rblock := None, sending := false)
      ensures live + freed == old(live + freed) && live <= old(live)
    {
      FreeTaken();
      ClearSending();
    }

    /** Offers the taken block to the cloud client; a refusal ends the session. */
    method OfferTaken(accept: bool)
      requires Valid() && ended == [] && rblock != null
      modifies this
      ensures Valid() && Model() == Offer(old(Model()), accept)
      ensures live + freed == old(live + freed) && live <= old(live)
      ensures ended != [] ==> live == {}
    {
      var ok := SendTaken(queue == [] && closed, accept);
      if !ok {
        End(ErrorLocal);
      }
    }

    method SendNext(accept: bool)
      requires Valid() && ended == [] && queue != [] && sending && rblock == null
      modifies this
      ensures Valid() && Model() == UplinkModel.SendNext(old(Model()), accept)
      ensures live + freed == old(live + freed) && live <= old(live)
      ensures ended != [] ==> live == {}
    {
      TakeNext();
      var empty := TakenIsEmpty();
      if empty {
        DropTaken();
      } else {
        OfferTaken(accept);
      }
    }

    /** process_uplink. */
    method Process(accept: bool)
      requires Valid() && ended == []
      modifies this
      ensures Valid() && Model() == UplinkModel.Process(old(Model()), accept)
      ensures live + freed == old(live + freed) && live <= old(live)
      ensures ended != [] ==> live == {}
    {
      var busy := TestAndSetSending();
      if busy {
        return;
      }
      if queue == [] {
        if closed {
          End(Success);
          return;
        }
        ClearSending();
        return;
      }
      SendNext(accept);
    }

    /** block_upload_callback. */
    method BlockUploaded(ok: bool, accept: bool)
      requires Valid() && ended == []
      modifies this
      ensures Valid() && Model() == Completed(old(Model()), ok, accept)
      ensures live + freed == old(live + freed) && live <= old(live)
      ensures ended != [] ==> live == {}
    {
      if !sending {
        return;
      }
      FreeTaken();
      ClearSending();
      if !ok {
        End(ErrorCloud);
        return;
      }
      Process(accept);
    }

    /** submit_block. */
    method SubmitBlock()
      requires Valid() && wblock != null
      modifies this`queue, this`qdata, this`wblock, this`wdata
      ensures Valid() && wblock == null && Model() == Submit(old(Model()))
    {
      queue, qdata := queue + [wblock], qdata + [wdata.value];
      wblock, wdata := null, None;
    }

    /** block_alloc, when the heap grants it. */
    method NewBlock()
      requires Valid() && wblock == null
      modifies this`wblock, this`wdata, this`live
      ensures Valid() && Model() == old(Model()).(wblock := Some([]))
      ensures wblock != null && fresh(wblock) && fresh(wblock.data) && live == old(live) + {wblock}
    {
      var block := new PouchBlock();
      wblock, wdata := block, Some([]);
      live := live + {block};
    }

    /** memcpy of part of the payload to the end of the block in hand. */
    method CopyIn(bytes: seq<byte>)
      requires Valid() && wblock != null && wblock.len + |bytes| <= BLOCK_SIZE
      modifies this`wdata, this`written, wblock, wblock.data
      ensures Valid() && Model() == Copied(old(Model()), bytes)
    {
      var block := wblock;
      forall i | 0 <= i < |bytes| {
        block.data[block.len + i] := bytes[i];
      }
      assert block.data[..block.len + |bytes|] == old(block.data[..block.len]) + bytes;
      block.content := block.content + bytes;
      block.len := block.len + |bytes|;
      wdata := Some(block.content);
      written := written + bytes;
    }

    /** The history notes that an allocation failed. */
    ghost method RunDry()
      requires Valid()
      modifies this`starved
      ensures Valid() && Model() == old(Model()).(starved := true)
    {
      starved := true;
    }

    method MakeRoom(allocs: nat) returns (ok: bool, left: nat)
      requires Valid()
      modifies this
      ensures Valid() && (Model(), ok, left) == RoomMade(old(Model()), allocs)
      ensures freed == old(freed) && old(live) <= live && (ok ==> wblock != null)
      ensures forall b :: b in live && b !in old(live) ==> fresh(b) && fresh(b.data)
    {
      if wblock != null && wblock.len == BLOCK_SIZE {
        SubmitBlock();
      }
      if wblock != null {
        return true, allocs;
      }
      if allocs == 0 {
        RunDry();
        return false, 0;
      }
      NewBlock();
      return true, allocs - 1;
    }

    /** The write loop. `allocs` is how many blocks the heap grants before it fails. */
    method TakeIn(payload: seq<byte>, allocs: nat) returns (ok: bool)
      requires Valid()
      modifies this, live, set b | b in live :: b.data
      ensures Valid() && (Model(), ok) == Absorb(old(Model()), payload, allocs)
      ensures freed == old(freed) && old(live) <= live
      ensures forall b :: b in live && b !in old(live) ==> fresh(b) && fresh(b.data)
    {
      var rest, grants := payload, allocs;
      while rest != []
        invariant Valid()
        invariant Absorb(Model(), rest, grants) == Absorb(old(Model()), payload, allocs)
        invariant freed == old(freed) && old(live) <= live
        invariant forall b :: b in live && b !in old(live) ==> fresh(b) && fresh(b.data)
        decreases |rest|
      {
        AbsorbAfterRoom(Model(), rest, grants);
        var room, left := MakeRoom(grants);
        if !room {
          return false;
        }
        grants := left;
        var n := Min(|rest|, BLOCK_SIZE - wblock.len);
        AbsorbAfterCopy(Model(), rest, grants, n);
        CopyIn(rest[..n]);
        rest := rest[n..];
      }
      return true;
    }

    /** pouch_gateway_uplink_write: false stands for -ENOMEM. */
    method Write(payload: seq<byte>, allocs: nat, accept: bool) returns (ok: bool)
      requires Valid() && ended == []
      modifies this, live, set b | b in live :: b.data
      ensures Valid() && (Model(), ok) == UplinkModel.Write(old(Model()), payload, allocs, accept)
      ensures old(live + freed) <= live + freed && (ended != [] ==> live == {})
      ensures forall b :: b in live && b !in old(live) ==> fresh(b) && fresh(b.data)
    {
      ok := TakeIn(payload, allocs);
      if ok {
        Process(accept);
      }
    }

    method TestAndSetClosed() returns (was: bool)
      requires Valid()
      modifies this`closed
      ensures Valid() && was == old(closed) && Model() == old(Model()).(closed := true)
    {
      was := closed;
      closed := true;
    }

    /** The history notes whether a first close found something to submit or send. */
    ghost method NoteBare()
      requires Valid()
      modifies this`bare
      ensures Valid() && Model() == old(Model()).(bare := old(bare) || old(qdata) == [])
    {
      bare := bare || qdata == [];
    }

    /** The first half of a close: a first close submits the block in hand. */
    method MarkClosed()
      requires Valid()
      modifies this
      ensures Valid() && Model() == UplinkModel.MarkClosed(old(Model())) && live == old(live) && freed == old(freed)
    {
      var was := TestAndSetClosed();
      if !was {
        if wblock != null {
          SubmitBlock();
        }
        NoteBare();
      }
    }

    /** pouch_gateway_uplink_close. */
    method Close(accept: bool)
      requires Valid() && ended == []
      modifies this
      ensures Valid() && Model() == UplinkModel.Close(old(Model()), accept)
      ensures live + freed == old(live + freed) && live <= old(live)
      ensures ended != [] ==> live == {}
    {
      MarkClosed();
      Process(accept);
    }
  }

  /** pouch_gateway_uplink_open; the flags say which of its allocations and golioth_gateway_uplink_start
      succeed. `left` is what it has allocated and not freed. A failing call leaves nothing behind, a
      successful one the new session and its one block. */
  method OpenSession(memory: bool, block: bool, started: bool) returns (session: Session?, ghost left: set<object>)
    ensures session != null <==> memory && block && started
    ensures session == null ==> left == {}
    ensures session != null ==>
              && fresh(session) && session.Valid() && session.Model() == FRESH_SESSION
              && left == {session} + session.live && |session.live| == 1 && fresh(session.live)
  {
    session, left := null, {};
    if !memory {
      return;
    }
    var s := new Session();
    left := {s};
    if !block {
      left := left - {s};
      return;
    }
    s.NewBlock();
    left := left + {s.wblock};
    if !started {
      left := left - {s.wblock};
      s.FreeInHand();
      left := left - {s};
      return;
    }
    session := s;
  }
}
