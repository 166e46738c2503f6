/** One downlink context on values: the blocks it holds, its flags, and how bytes leave it. */
module DownlinkModel {
  import opened Bytes

  /** CONFIG_POUCH_GATEWAY_NUM_BLOCKS, left arbitrary. */
  const NUM_BLOCKS: nat

  /** A slab block: its number in the slab, the bytes in it not read yet, and the last flag. */
  datatype Cell = Cell(id: nat, data: seq<byte>, last: bool)

  /** struct pouch_gateway_downlink_context. `held` is what is left of current_block followed by the queue;
      `fetched` says that its head is current_block. Then the history: bytes accepted from the cloud, bytes
      returned to the transport, calls of data_available_cb, and reads that found nothing to return yet. */
  datatype Down = Down(
    held: seq<Cell>, fetched: bool,
    complete: bool, aborted: bool, waiting: bool, coapError: bool,
    received: seq<byte>, returned: seq<byte>, wakeups: nat, dryReads: nat)

  const FRESH_DOWNLINK := Down([], false, false, false, true, false, [], [], 0, 0)

  function Content(cells: seq<Cell>): seq<byte> {
    if cells == [] then [] else cells[0].data + Content(cells[1..])
  }

  function Ids(cells: seq<Cell>): multiset<nat> {
    if cells == [] then multiset{} else multiset{cells[0].id} + Ids(cells[1..])
  }

  lemma {:induction false} ContentConcat(a: seq<Cell>, b: seq<Cell>)
    ensures Content(a + b) == Content(a) + Content(b)
    ensures Ids(a + b) == Ids(a) + Ids(b)
  {
    if a == [] {
      assert a + b == b;
    } else {
      assert (a + b)[0] == a[0] && (a + b)[1..] == a[1..] + b;
      ContentConcat(a[1..], b);
    }
  }

  lemma CellAppended(held: seq<Cell>, cell: Cell)
    ensures Content(held + [cell]) == Content(held) + cell.data
    ensures Ids(held + [cell]) == Ids(held) + multiset{cell.id}
  {
    ContentConcat(held, [cell]);
    assert [cell][1..] == [];
    assert Content([cell]) == cell.data + Content([]) && Ids([cell]) == multiset{cell.id} + Ids([]);
  }

  // ---------------------------------------------------------------- the cloud's side

  datatype Status = Accepted | Nack | NoBlock

  /** Tells a transport that is waiting and has no block in hand that there is something to read. */
  function Wake(d: Down): Down {
    if !d.fetched && d.waiting then d.(waiting := false, wakeups := d.wakeups + 1) else d
  }

  /** pouch_gateway_downlink_block_cb. The slab is a list of free block numbers, taken from the front. */
  function BlockArrives(free: seq<nat>, d: Down, data: seq<byte>, last: bool): (seq<nat>, Down, Status) {
    if d.aborted then (free, d, Nack)
    else if free == [] then (free, d, NoBlock)
    else
      (free[1..],
       Wake(d.(held := d.held + [Cell(free[0], data, last)], received := d.received + data)),
       Accepted)
  }

  /** The part of pouch_gateway_downlink_end_cb that reports an error to a transport still attached. */
  function ErrorEnd(d: Down): Down {
    Wake(d.(coapError := true))
  }

  // ---------------------------------------------------------------- the transport's side

  /** What a read of up to `want` bytes does to the blocks: blocks read to their end go back to the slab,
      and the read stops behind the last block. */
  datatype Drained = Drained(free: seq<nat>, rest: seq<Cell>, out: seq<byte>, last: bool)

  function Drain(free: seq<nat>, held: seq<Cell>, want: nat): Drained
    decreases |held|
  {
    if want == 0 || held == [] then Drained(free, held, [], false)
    else
      var cell := held[0];
      if want < |cell.data| then
        Drained(free, [cell.(data := cell.data[want..])] + held[1..], cell.data[..want], false)
      else if cell.last then
        Drained([cell.id] + free, held[1..], cell.data, true)
      else
        var d := Drain([cell.id] + free, held[1..], want - |cell.data|);
        d.(out := cell.data + d.out)
  }

  datatype Code = Ok | Again | NoData

  datatype Read = Read(free: seq<nat>, down: Down, out: seq<byte>, isLast: bool, code: Code)

  /** The context after a read with outcome `r`. */
  function After(d: Down, r: Drained, want: nat): Down {
    d.(held := r.rest, fetched := if want == 0 then d.fetched else r.rest != [], returned := d.returned + r.out)
  }

  /** What a read that put out `out` reports, with the flags it leaves. */
  function Report(free: seq<nat>, d: Down, out: seq<byte>, last: bool, want: nat): Read {
    if last then Read(free, d.(complete := true), out, true, Ok)
    else if |out| == want then Read(free, d, out, false, Ok)
    else if d.coapError then Read(free, d.(complete := true), out, true, Ok)
    else if out == [] then Read(free, d.(waiting := true, dryReads := d.dryReads + 1), out, false, Again)
    else Read(free, d, out, false, Again)
  }

  /** pouch_gateway_downlink_get_data. */
  function GetData(free: seq<nat>, d: Down, want: nat): Read {
    if d.complete then Read(free, d, [], false, NoData)
    else var r := Drain(free, d.held, want); Report(r.free, After(d, r, want), r.out, r.last, want)
  }

  function FreeAll(free: seq<nat>, cells: seq<Cell>): seq<nat>
    decreases |cells|
  {
    if cells == [] then free else FreeAll([cells[0].id] + free, cells[1..])
  }

  /** The slab after pouch_gateway_downlink_close: the queue is flushed, then current_block is freed. */
  function SlabAfterClose(free: seq<nat>, d: Down): seq<nat> {
    if d.fetched && d.held != [] then [d.held[0].id] + FreeAll(free, d.held[1..])
    else FreeAll(free, d.held)
  }

  // ---------------------------------------------------------------- one block

  /** The answer to the cloud client, exactly: a block is accepted if and only if it is in the context afterwards,
      with its data and flag and as the last, in the block that was the first free one; an aborted context and
      an empty slab refuse it, and nothing changes. */
  lemma BlockAnswers(free: seq<nat>, d: Down, data: seq<byte>, last: bool)
    ensures var (free', d', status) := BlockArrives(free, d, data, last);
            && (status == Nack <==> d.aborted)
            && (status == NoBlock <==> !d.aborted && free == [])
            && (status == Accepted <==> |d'.held| == |d.held| + 1)
            && (status == Accepted ==>
                  && free != [] && free == [free[0]] + free'
                  && d'.held == d.held + [Cell(free[0], data, last)] && d'.received == d.received + data)
            && (status != Accepted ==> (free', d') == (free, d))
  {
  }

  // ---------------------------------------------------------------- one read

  /** A read loses and duplicates no byte, and stops short only for want of blocks or behind the last. */
  lemma {:induction false} DrainConservesBytes(free: seq<nat>, held: seq<Cell>, want: nat)
    ensures var r := Drain(free, held, want);
            && r.out + Content(r.rest) == Content(held)
            && |r.out| <= want
            && (r.last || |r.out| == want || r.rest == [])
    decreases |held|
  {
    if want > 0 && held != [] {
      var cell := held[0];
      if want < |cell.data| {
        var rest := [cell.(data := cell.data[want..])] + held[1..];
        assert rest[1..] == held[1..];
        assert Content(rest) == cell.data[want..] + Content(held[1..]);
        assert cell.data == cell.data[..want] + cell.data[want..];
      } else if !cell.last {
        var d := Drain([cell.id] + free, held[1..], want - |cell.data|);
        DrainConservesBytes([cell.id] + free, held[1..], want - |cell.data|);
        assert cell.data + d.out + Content(d.rest) == cell.data + (d.out + Content(d.rest));
      }
    }
  }

  lemma FreeOne(free: seq<nat>, id: nat)
    ensures multiset([id] + free) == multiset{id} + multiset(free)
  {
  }

  /** A block is either still held or back in the slab. */
  lemma {:induction false} DrainConservesBlocks(free: seq<nat>, held: seq<Cell>, want: nat)
    ensures var r := Drain(free, held, want);
            multiset(r.free) + Ids(r.rest) == multiset(free) + Ids(held)
    decreases |held|
  {
    if want > 0 && held != [] {
      var cell := held[0];
      FreeOne(free, cell.id);
      if want < |cell.data| {
        var rest := [cell.(data := cell.data[want..])] + held[1..];
        assert rest[1..] == held[1..];
      } else if !cell.last {
        DrainConservesBlocks([cell.id] + free, held[1..], want - |cell.data|);
      }
    }
  }

  /** Only the final block may be flagged last; `some` says whether it is. */
  ghost predicate LastAtEnd(held: seq<Cell>, some: bool) {
    forall i :: 0 <= i < |held| ==> (held[i].last <==> some && i == |held| - 1)
  }

  lemma {:induction false} DrainLast(free: seq<nat>, held: seq<Cell>, want: nat, some: bool)
    requires LastAtEnd(held, some)
    ensures var r := Drain(free, held, want);
            && LastAtEnd(r.rest, some)
            && (r.last ==> some && r.rest == [])
            && (some && held != [] && r.rest == [] ==> r.last)
    decreases |held|
  {
    if want > 0 && held != [] && want >= |held[0].data| && !held[0].last {
      DrainLast([held[0].id] + free, held[1..], want - |held[0].data|, some);
    }
  }

  /** A read of `want` bytes reaches block `i`, and reads it to its end. */
  predicate ReadToEnd(held: seq<Cell>, want: nat, i: nat)
    requires i < |held|
  {
    |Content(held[..i])| < want && |Content(held[..i + 1])| <= want
  }

  lemma ContentFirst(held: seq<Cell>, i: nat)
    requires held != [] && i < |held|
    ensures |Content(held[..i + 1])| == |held[0].data| + |Content(held[1..][..i])|
  {
    assert held[..i + 1][0] == held[0] && held[..i + 1][1..] == held[1..][..i];
  }

  lemma {:induction false} ContentGrows(held: seq<Cell>, i: nat, j: nat)
    requires i <= j <= |held|
    ensures |Content(held[..i])| <= |Content(held[..j])|
  {
    assert held[..j] == held[..i] + held[i..j];
    ContentConcat(held[..i], held[i..j]);
  }

  lemma ReadToEndNext(held: seq<Cell>, want: nat, i: nat)
    requires 0 < i < |held| && want >= |held[0].data|
    ensures ReadToEnd(held, want, i) <==> ReadToEnd(held[1..], want - |held[0].data|, i - 1)
  {
    ContentFirst(held, i - 1);
    ContentFirst(held, i);
  }

  /** How many blocks a read takes off. */
  function TakenOff(free: seq<nat>, held: seq<Cell>, want: nat): int {
    |held| - |Drain(free, held, want).rest|
  }

  lemma {:induction false} DrainFrees(free: seq<nat>, held: seq<Cell>, want: nat)
    ensures var n := TakenOff(free, held, want);
            && 0 <= n <= |held| && Drain(free, held, want).free == FreeAll(free, held[..n])
            && (forall i :: n < i < |held| ==> Drain(free, held, want).rest[i - n] == held[i])
    decreases |held|
  {
    assert held[..0] == [];
    if held != [] && want > 0 && want >= |held[0].data| {
      var cell, rest := held[0], held[1..];
      if cell.last {
        assert held[..1][0] == cell && held[..1][1..] == [];
      } else {
        DrainFrees([cell.id] + free, rest, want - |cell.data|);
        var n := TakenOff([cell.id] + free, rest, want - |cell.data|);
        assert held[..n + 1][0] == cell && held[..n + 1][1..] == rest[..n];
      }
    }
  }

  lemma ReadToEndFirst(held: seq<Cell>, want: nat)
    requires held != []
    ensures ReadToEnd(held, want, 0) <==> want > 0 && want >= |held[0].data|
    ensures want < |held[0].data| ==> forall i :: 0 <= i < |held| ==> !ReadToEnd(held, want, i)
  {
    ContentFirst(held, 0);
    assert held[..0] == [] && held[1..][..0] == [];
    forall i | 0 < i < |held| ensures |Content(held[..i])| >= |held[0].data| {
      ContentGrows(held, 1, i);
    }
  }

  lemma {:induction false} DrainReads(free: seq<nat>, held: seq<Cell>, want: nat, some: bool, i: nat)
    requires LastAtEnd(held, some) && i < |held|
    ensures ReadToEnd(held, want, i) <==> i < TakenOff(free, held, want)
    decreases |held|
  {
    ReadToEndFirst(held, want);
    if want >= |held[0].data| && want > 0 && i > 0 {
      assert !held[0].last;
      ReadToEndNext(held, want, i);
      DrainReads([held[0].id] + free, held[1..], want - |held[0].data|, some, i - 1);
    } else if want >= |held[0].data| && want > 0 && !held[0].last {
      DrainFrees([held[0].id] + free, held[1..], want - |held[0].data|);
    }
  }

  lemma DrainReadsAll(free: seq<nat>, held: seq<Cell>, want: nat, some: bool)
    requires LastAtEnd(held, some)
    ensures forall i :: 0 <= i < |held| ==> (ReadToEnd(held, want, i) <==> i < TakenOff(free, held, want))
  {
    forall i | 0 <= i < |held| ensures ReadToEnd(held, want, i) <==> i < TakenOff(free, held, want) {
      DrainReads(free, held, want, some, i);
    }
  }

  /** A read has left `rest` of what was held, and this slab: what was read to its end is free. */
  ghost predicate FreesReadBlocks(free: seq<nat>, held: seq<Cell>, want: nat, free': seq<nat>, rest: seq<Cell>) {
    var n := |held| - |rest|;
    && 0 <= n && free' == FreeAll(free, held[..n])
    && (forall i :: 0 <= i < |held| ==> (ReadToEnd(held, want, i) <==> i < n))
    && (forall i :: n < i < |held| ==> rest[i - n] == held[i])
  }

  /** Which blocks a read frees, exactly: those it reads to their end, in order; all behind the next stay as
      they are. */
  lemma DrainFreesExactly(free: seq<nat>, held: seq<Cell>, want: nat, some: bool)
    requires LastAtEnd(held, some)
    ensures FreesReadBlocks(free, held, want, Drain(free, held, want).free, Drain(free, held, want).rest)
  {
    DrainFrees(free, held, want);
    DrainReadsAll(free, held, want, some);
  }

  /** When a read is told that it was the last, exactly: it reaches the last block and reads it to its end, also
      if that fills the destination. */
  lemma DrainLastExactly(free: seq<nat>, held: seq<Cell>, want: nat, some: bool)
    requires LastAtEnd(held, some)
    ensures Drain(free, held, want).last <==> some && held != [] && ReadToEnd(held, want, |held| - 1)
  {
    DrainLast(free, held, want, some);
    DrainFreesExactly(free, held, want, some);
  }

  lemma {:induction false} FreeAllConserves(free: seq<nat>, cells: seq<Cell>)
    ensures multiset(FreeAll(free, cells)) == multiset(free) + Ids(cells)
    decreases |cells|
  {
    if cells != [] {
      FreeOne(free, cells[0].id);
      FreeAllConserves([cells[0].id] + free, cells[1..]);
    }
  }

  lemma CloseConserves(free: seq<nat>, d: Down)
    ensures multiset(SlabAfterClose(free, d)) == multiset(free) + Ids(d.held)
  {
    if d.fetched && d.held != [] {
      FreeAllConserves(free, d.held[1..]);
      FreeOne(FreeAll(free, d.held[1..]), d.held[0].id);
    } else {
      FreeAllConserves(free, d.held);
    }
  }
}
