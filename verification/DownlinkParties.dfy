/** A downlink context has two parties, the cloud client and the Bluetooth transport. Whoever is done last
    has to close it. Any number of contexts share one slab. */
module DownlinkParties {
  import opened Bytes
  import opened DownlinkModel

  /** `closes` counts the calls of pouch_gateway_downlink_close, which frees the context. `detached`: the
      transport has let go, by closing or aborting. `ended`: end_cb was called. `lastTaken`: a last block was
      accepted. `refused`: a block was refused. `abandoned`: the abort came too late for the cloud side to
      close the context. `misused`: a freed context was accessed. */
  datatype Ctx = Ctx(
    down: Down, closes: nat, detached: bool, ended: bool, lastTaken: bool, refused: bool,
    abandoned: bool, misused: bool)

  const NEW_CTX := Ctx(FRESH_DOWNLINK, 0, false, false, false, false, false, false)

  datatype Event =
    | BlockEv(data: seq<byte>, last: bool)
    | EndEv(ok: bool)
    | ReadEv(want: nat)
    | CompleteEv
    | AbortEv

  /** What the two parties do. The cloud client calls end_cb once, with success exactly if a last block was
      accepted, sends nothing after a last or a refused block, and keeps blocks within the block size. The
      transport reads until it lets go, and completes only what get_data reported complete. */
  predicate Possible(c: Ctx, e: Event) {
    match e
    case BlockEv(data, _) => !c.ended && !c.lastTaken && !c.refused && |data| <= BLOCK_SIZE
    case EndEv(ok) => !c.ended && (ok <==> c.lastTaken)
    case ReadEv(_) => !c.detached
    case CompleteEv => !c.detached && c.down.complete
    case AbortEv => !c.detached
  }

  /** pouch_gateway_downlink_close. */
  function CloseCtx(free: seq<nat>, c: Ctx): (seq<nat>, Ctx) {
    (SlabAfterClose(free, c.down),
     c.(down := c.down.(held := [], fetched := false), closes := c.closes + 1, misused := c.misused || c.closes > 0))
  }

  /** Every entry point reads the context first, except a successful end_cb. */
  function Touch(c: Ctx): Ctx {
    c.(misused := c.misused || c.closes > 0)
  }

  /** pouch_gateway_downlink_end_cb. */
  function EndCtx(free: seq<nat>, c: Ctx, ok: bool): (seq<nat>, Ctx) {
    if ok then (free, c.(ended := true))
    else
      var c' := Touch(c).(ended := true);
      if c.down.aborted then CloseCtx(free, c') else (free, c'.(down := ErrorEnd(c.down)))
  }

  /** pouch_gateway_downlink_abort. */
  function AbortCtx(free: seq<nat>, c: Ctx): (seq<nat>, Ctx) {
    var c' := Touch(c).(down := c.down.(aborted := true), detached := true,
                        abandoned := !c.down.complete && (c.ended || c.lastTaken));
    if c.down.complete then CloseCtx(free, c') else (free, c')
  }

  function Step(free: seq<nat>, c: Ctx, e: Event): (seq<nat>, Ctx) {
    match e
    case BlockEv(data, last) =>
      var (free', d, status) := BlockArrives(free, c.down, data, last);
      (free', Touch(c).(down := d, lastTaken := c.lastTaken || (status == Accepted && last),
                        refused := c.refused || status != Accepted))
    case EndEv(ok) => EndCtx(free, c, ok)
    case ReadEv(want) =>
      var r := GetData(free, c.down, want);
      (r.free, Touch(c).(down := r.down))
    case CompleteEv => CloseCtx(free, c.(detached := true))
    case AbortEv => AbortCtx(free, c)
  }

  // ---------------------------------------------------------------- invariants of one context

  /** Bytes: what was returned and what is held make up what was received; a complete context has returned
      everything, even after it was closed. */
  ghost predicate StreamInv(c: Ctx) {
    var d := c.down;
    && (c.closes == 0 ==> d.received == d.returned + Content(d.held))
    && (d.complete ==> d.received == d.returned && d.held == [])
    && LastAtEnd(d.held, c.lastTaken)
    && (c.lastTaken && !d.complete && c.closes == 0 ==> d.held != [])
    && (d.fetched ==> d.held != [])
    && (c.closes > 0 ==> d.held == [])
  }

  /** Wake-ups: the transport waits only while there is nothing to read and no error to report. */
  ghost predicate WakeInv(c: Ctx) {
    var d := c.down;
    && (d.waiting ==> d.held == [] && !d.coapError && !d.complete)
    && d.wakeups + (if d.waiting then 1 else 0) <= 1 + d.dryReads
  }

  /** Parties: who closed the context, and who still will. */
  ghost predicate PartyInv(c: Ctx) {
    var d := c.down;
    && !c.misused
    && (d.coapError ==> c.ended && !c.lastTaken)
    && (c.ended && !c.lastTaken ==> d.coapError || d.aborted)
    && (c.refused ==> !c.lastTaken)
    && (d.complete ==> c.lastTaken || d.coapError)
    && (d.aborted ==> c.detached)
    && (!c.detached ==> c.closes == 0 && !c.abandoned)
    && (c.detached && d.complete ==> c.closes == 1 && !c.abandoned)
    && (c.detached && !d.complete ==>
          && d.aborted
          && c.closes == (if c.ended && !c.abandoned then 1 else 0)
          && (c.abandoned <==> c.lastTaken || d.coapError))
  }

  ghost predicate CtxInv(c: Ctx) {
    StreamInv(c) && WakeInv(c) && PartyInv(c)
  }

  lemma TakeOne(free: seq<nat>)
    requires free != []
    ensures multiset(free) == multiset{free[0]} + multiset(free[1..])
  {
    assert free == [free[0]] + free[1..];
  }

  lemma BlockTaken(free: seq<nat>, d: Down, data: seq<byte>, last: bool)
    requires free != [] && !d.aborted && d.received == d.returned + Content(d.held)
    ensures var d' := BlockArrives(free, d, data, last).1;
            && d'.held == d.held + [Cell(free[0], data, last)] && d'.returned == d.returned
            && d'.received == d'.returned + Content(d'.held)
  {
    CellAppended(d.held, Cell(free[0], data, last));
    assert d.returned + Content(d.held) + data == d.returned + (Content(d.held) + data);
  }

  lemma BlockMoved(free: seq<nat>, held: seq<Cell>, data: seq<byte>, last: bool)
    requires free != []
    ensures multiset(free[1..]) + Ids(held + [Cell(free[0], data, last)]) == multiset(free) + Ids(held)
  {
    CellAppended(held, Cell(free[0], data, last));
    TakeOne(free);
  }

  lemma BlockKeeps(free: seq<nat>, c: Ctx, data: seq<byte>, last: bool)
    requires CtxInv(c) && Possible(c, BlockEv(data, last))
    ensures var (free', c') := Step(free, c, BlockEv(data, last));
            CtxInv(c') && multiset(free') + Ids(c'.down.held) == multiset(free) + Ids(c.down.held)
  {
    if !c.down.aborted && free != [] {
      BlockTaken(free, c.down, data, last);
      BlockMoved(free, c.down.held, data, last);
    }
  }

  lemma EndKeeps(free: seq<nat>, c: Ctx, ok: bool)
    requires CtxInv(c) && Possible(c, EndEv(ok))
    ensures var (free', c') := Step(free, c, EndEv(ok));
            CtxInv(c') && multiset(free') + Ids(c'.down.held) == multiset(free) + Ids(c.down.held)
  {
    CloseConserves(free, c.down);
  }

  /** Reporting a read changes flags only. */
  lemma ReportKeepsBlocks(free: seq<nat>, d: Down, out: seq<byte>, last: bool, want: nat)
    ensures var r := Report(free, d, out, last, want);
            && r.free == free && r.out == out && r.down.held == d.held && r.down.fetched == d.fetched
            && r.down.received == d.received && r.down.returned == d.returned
            && (r.down.complete ==> d.complete || last || (|out| != want && d.coapError))
  {
  }

  lemma ReadKeepsBlocks(free: seq<nat>, d: Down, want: nat)
    ensures var r := GetData(free, d, want);
            multiset(r.free) + Ids(r.down.held) == multiset(free) + Ids(d.held)
  {
    if !d.complete {
      var r := Drain(free, d.held, want);
      DrainConservesBlocks(free, d.held, want);
      ReportKeepsBlocks(r.free, After(d, r, want), r.out, r.last, want);
    }
  }

  lemma ReadKeepsStream(free: seq<nat>, c: Ctx, want: nat)
    requires CtxInv(c) && Possible(c, ReadEv(want))
    ensures StreamInv(Step(free, c, ReadEv(want)).1)
  {
    var d := c.down;
    if !d.complete {
      var r := Drain(free, d.held, want);
      DrainConservesBytes(free, d.held, want);
      DrainLast(free, d.held, want, c.lastTaken);
      ReportKeepsBlocks(r.free, After(d, r, want), r.out, r.last, want);
      assert d.received == d.returned + (r.out + Content(r.rest)) == d.returned + r.out + Content(r.rest);
      assert r.rest == [] ==> d.returned + r.out + [] == d.returned + r.out;
    }
  }

  lemma ReadKeeps(free: seq<nat>, c: Ctx, want: nat)
    requires CtxInv(c) && Possible(c, ReadEv(want))
    ensures var (free', c') := Step(free, c, ReadEv(want));
            CtxInv(c') && multiset(free') + Ids(c'.down.held) == multiset(free) + Ids(c.down.held)
  {
    ReadKeepsStream(free, c, want);
    ReadKeepsBlocks(free, c.down, want);
    DrainConservesBytes(free, c.down.held, want);
    DrainLast(free, c.down.held, want, c.lastTaken);
  }

  lemma LetGoKeeps(free: seq<nat>, c: Ctx, e: Event)
    requires CtxInv(c) && Possible(c, e) && (e.CompleteEv? || e.AbortEv?)
    ensures var (free', c') := Step(free, c, e);
            CtxInv(c') && multiset(free') + Ids(c'.down.held) == multiset(free) + Ids(c.down.held)
  {
    CloseConserves(free, c.down);
    CloseConserves(free, c.down.(aborted := true));
  }

  lemma StepKeeps(free: seq<nat>, c: Ctx, e: Event)
    requires CtxInv(c) && Possible(c, e)
    ensures var (free', c') := Step(free, c, e);
            CtxInv(c') && multiset(free') + Ids(c'.down.held) == multiset(free) + Ids(c.down.held)
  {
    match e
    case BlockEv(data, last) => BlockKeeps(free, c, data, last);
    case EndEv(ok) => EndKeeps(free, c, ok);
    case ReadEv(want) => ReadKeeps(free, c, want);
    case CompleteEv => LetGoKeeps(free, c, e);
    case AbortEv => LetGoKeeps(free, c, e);
  }
}
