/** All downlink contexts of the gateway as objects over the one slab. A step on one of them leaves the others
    as they are, because no two hold the same block. */
module Gateway {
  import opened Bytes
  import opened DownlinkModel
  import opened DownlinkParties
  import opened DownlinkSystem
  import opened BlockSlab
  import opened Downlink

  /** What the blocks of the slab hold. */
  ghost function Cells(slab: Slab): (cells: seq<Cell>)
    requires |slab.blocks| == NUM_BLOCKS
    reads slab, slab.blocks
    ensures |cells| == NUM_BLOCKS && forall k :: 0 <= k < NUM_BLOCKS ==> cells[k] == slab.CellOf(k)
  {
    seq(NUM_BLOCKS, k requires 0 <= k < NUM_BLOCKS reads slab, slab.blocks => slab.CellOf(k))
  }

  /** The context's own part of Context.Valid: its blocks are not free, distinct, and hold what it expects. */
  ghost predicate Backed(c: Context, cells: seq<Cell>, free: seq<nat>)
    requires |cells| == NUM_BLOCKS
    reads c
  {
    && !c.freed && |c.tail| == |c.queue|
    && (forall k :: 0 <= k < |c.queue| ==>
          c.queue[k] < NUM_BLOCKS && c.queue[k] !in free && c.tail[k] == cells[c.queue[k]])
    && (forall j, k :: 0 <= j < k < |c.queue| ==> c.queue[j] != c.queue[k])
    && if c.current == None then c.offset == 0 && c.head == []
       else
         var id := c.current.value;
         && id < NUM_BLOCKS && id !in free && id !in c.queue
         && c.offset <= |cells[id].data|
         && c.head == [cells[id].(data := cells[id].data[c.offset..])]
  }

  lemma BackedIsValid(c: Context)
    requires c.slab.Valid()
    ensures c.Valid() <==> Backed(c, Cells(c.slab), c.slab.free)
  {
  }

  /** The object is what the model says of context `ctx`, until that is closed. */
  ghost predicate Ties(c: Context, ctx: Ctx, cells: seq<Cell>, free: seq<nat>)
    requires |cells| == NUM_BLOCKS
    reads c
  {
    if ctx.closes == 0 then Backed(c, cells, free) && c.Model() == ctx.down else c.freed
  }

  lemma {:induction false} IdOf(cells: seq<Cell>, k: nat)
    requires k < |cells|
    ensures cells[k].id in Ids(cells)
  {
    if k > 0 {
      IdOf(cells[1..], k - 1);
    }
  }

  /** The blocks a context names are those its value holds. */
  lemma NamedAreHeld(c: Context, cells: seq<Cell>, free: seq<nat>, id: nat)
    requires |cells| == NUM_BLOCKS && forall k :: 0 <= k < NUM_BLOCKS ==> cells[k].id == k
    requires Backed(c, cells, free) && (id in c.queue || c.current == Some(id))
    ensures id in Ids(c.Model().held)
  {
    var held := c.Model().held;
    if c.current == Some(id) {
      assert held[0].id == id;
      IdOf(held, 0);
    } else {
      var k: nat :| k < |c.queue| && c.queue[k] == id;
      assert held[|c.head| + k] == c.tail[k];
      IdOf(held, |c.head| + k);
    }
  }

  /** A step that leaves blocks in use as they are, and frees none but blocks in `own`, keeps a context that
      uses none of these backed. */
  lemma StaysBacked(c: Context, cells: seq<Cell>, free: seq<nat>,
                    cells': seq<Cell>, free': seq<nat>, own: multiset<nat>)
    requires |cells| == |cells'| == NUM_BLOCKS && Backed(c, cells, free)
    requires forall k :: 0 <= k < NUM_BLOCKS && k !in free ==> cells'[k] == cells[k]
    requires forall k :: k in free' ==> k in free || k in own
    requires forall k :: k in own ==> k !in c.queue && c.current != Some(k)
    ensures Backed(c, cells', free')
  {
  }

  /** So a step on context `i` leaves the object of any other context `j` what it was. */
  lemma OtherStaysTied(s: System, i: nat, e: Event, j: nat, c: Context,
                       cells: seq<Cell>, cells': seq<Cell>, free': seq<nat>)
    requires SysInv(s) && i < |s.ctxs| && j < |s.ctxs| && i != j && Possible(s.ctxs[i], e)
    requires |cells| == |cells'| == NUM_BLOCKS && Ties(c, s.ctxs[j], cells, s.free)
    requires forall k :: 0 <= k < NUM_BLOCKS ==> cells[k].id == k
    requires forall k :: 0 <= k < NUM_BLOCKS && k !in s.free ==> cells'[k] == cells[k]
    requires free' == Step(s.free, s.ctxs[i], e).0
    ensures Ties(c, s.ctxs[j], cells', free')
  {
    var own := Ids(s.ctxs[i].down.held);
    if s.ctxs[j].closes == 0 {
      forall k | k in free' ensures k in s.free || k in own {
        FreesOwn(s, i, e, k);
      }
      forall k | k in own ensures k !in c.queue && c.current != Some(k) {
        HeldApart(s, i, j, k);
        if k in c.queue || c.current == Some(k) {
          NamedAreHeld(c, cells, s.free, k);
        }
      }
      StaysBacked(c, cells, s.free, cells', free', own);
    }
  }

  /** `contexts` are those opened so far, in order; ghost: what each party has done with them. */
  class Downlinks {
    const slab: Slab
    var contexts: seq<Context>
    ghost var ctxs: seq<Ctx>

    /** The slab and the contexts' objects, distinct and all on this slab. */
    ghost predicate Laid()
      reads this, slab, slab.blocks, set b | b in slab.blocks :: b.data
    {
      && slab.Valid() && |contexts| == |ctxs|
      && (forall i, j :: 0 <= i < j < |contexts| ==> contexts[i] != contexts[j])
      && (forall i :: 0 <= i < |contexts| ==> contexts[i].slab == slab)
    }

    /** Every context but `i` is tied to its object, given these blocks and free list. */
    ghost predicate OthersTied(i: nat, cells: seq<Cell>, free: seq<nat>)
      requires |contexts| == |ctxs| && |cells| == NUM_BLOCKS
      reads this, contexts
    {
      forall j :: 0 <= j < |contexts| && j != i ==> Ties(contexts[j], ctxs[j], cells, free)
    }

    ghost predicate TiedAt(i: nat, ctx: Ctx)
      requires Laid() && i < |contexts|
      reads this, contexts, slab, slab.blocks, set b | b in slab.blocks :: b.data
    {
      Ties(contexts[i], ctx, Cells(slab), slab.free)
    }

    ghost predicate Tied()
      requires Laid()
      reads this, contexts, slab, slab.blocks, set b | b in slab.blocks :: b.data
    {
      OthersTied(|contexts|, Cells(slab), slab.free)
    }

    ghost predicate Valid()
      reads this, contexts, slab, slab.blocks, set b | b in slab.blocks :: b.data
    {
      Laid() && Tied() && SysInv(Model())
    }

    ghost function Model(): System
      reads this, slab
    {
      System(slab.free, ctxs)
    }

    constructor ()
      ensures Valid() && Model() == BOOT && contexts == []
    {
      var blocks := new Slab();
      slab, contexts, ctxs := blocks, [], [];
    }

    /** What a step on context `i` finds. */
    lemma Ready(i: nat, e: Event)
      requires Valid() && i < |ctxs| && Possible(ctxs[i], e)
      ensures SysInv(SysStep(Model(), At(i, e))) && OthersTied(i, Cells(slab), slab.free)
      ensures e != EndEv(true) ==>
                ctxs[i].closes == 0 && contexts[i].Valid() && contexts[i].Model() == ctxs[i].down
    {
      SysStepKeeps(Model(), At(i, e));
      if e != EndEv(true) {
        StepFindsOpen(Model(), i, e);
        BackedIsValid(contexts[i]);
      }
    }

    /** What it leaves: the other objects are still what the model says. */
    lemma Followed(s: System, cells: seq<Cell>, i: nat, e: Event)
      requires Laid() && ctxs == s.ctxs && SysInv(s) && i < |ctxs| && Possible(ctxs[i], e)
      requires slab.free == Step(s.free, ctxs[i], e).0
      requires |cells| == NUM_BLOCKS && forall k :: 0 <= k < NUM_BLOCKS ==> cells[k].id == k
      requires forall k :: 0 <= k < NUM_BLOCKS && k !in s.free ==> Cells(slab)[k] == cells[k]
      requires OthersTied(i, cells, s.free)
      ensures OthersTied(i, Cells(slab), slab.free)
    {
      forall j | 0 <= j < |contexts| && j != i ensures Ties(contexts[j], ctxs[j], Cells(slab), slab.free) {
        OtherStaysTied(s, i, e, j, contexts[j], cells, Cells(slab), slab.free);
      }
    }

    /** Enters what was done in the history of context `i`. */
    ghost method Record(i: nat, ctx: Ctx)
      requires Laid() && i < |ctxs| && OthersTied(i, Cells(slab), slab.free) && TiedAt(i, ctx)
      modifies `ctxs
      ensures Laid() && Tied() && ctxs == old(ctxs)[i := ctx]
    {
      ctxs := ctxs[i := ctx];
    }

    method Add(context: Context)
      requires Laid() && Tied() && context !in contexts
      requires context.slab == slab && Ties(context, NEW_CTX, Cells(slab), slab.free)
      modifies this
      ensures Laid() && Tied() && contexts == old(contexts) + [context] && ctxs == old(ctxs) + [NEW_CTX]
    {
      contexts, ctxs := contexts + [context], ctxs + [NEW_CTX];
    }

    /** A new downlink. */
    method Open() returns (i: nat)
      requires Valid()
      modifies this
      ensures Valid() && Model() == SysStep(old(Model()), OpenEv) && i == |old(contexts)|
    {
      SysStepKeeps(Model(), OpenEv);
      var context := new Context(slab);
      BackedIsValid(context);
      i := |contexts|;
      Add(context);
    }

    method BlockAt(i: nat, ghost cells: seq<Cell>, data: seq<byte>, last: bool) returns (status: Status)
      requires Laid() && i < |contexts| && contexts[i].Valid() && |data| <= BLOCK_SIZE && cells == Cells(slab)
      requires OthersTied(i, cells, slab.free)
      modifies contexts[i], slab`free
      modifies if slab.free == [] then {} else {slab.blocks[slab.free[0]], slab.blocks[slab.free[0]].data}
      ensures Laid() && contexts[i].Valid() && OthersTied(i, cells, old(slab.free))
      ensures (slab.free, contexts[i].Model(), status)
           == BlockArrives(old(slab.free), old(contexts[i].Model()), data, last)
      ensures forall k :: 0 <= k < NUM_BLOCKS && k !in old(slab.free) ==> Cells(slab)[k] == cells[k]
    {
      status := contexts[i].BlockCallback(data, last);
    }

    method Block(i: nat, data: seq<byte>, last: bool) returns (status: Status)
      requires Valid() && i < |contexts| && Possible(ctxs[i], BlockEv(data, last))
      modifies this`ctxs, contexts[i], slab`free
      modifies if slab.free == [] then {} else {slab.blocks[slab.free[0]], slab.blocks[slab.free[0]].data}
      ensures Valid() && Model() == SysStep(old(Model()), At(i, BlockEv(data, last)))
      ensures status == BlockArrives(old(slab.free), old(ctxs)[i].down, data, last).2
    {
      ghost var s, cells, e := Model(), Cells(slab), BlockEv(data, last);
      Ready(i, e);
      status := BlockAt(i, cells, data, last);
      Followed(s, cells, i, e);
      BackedIsValid(contexts[i]);
      Record(i, Step(s.free, ctxs[i], e).1);
    }

    method ReadAt(i: nat, ghost cells: seq<Cell>, dst: array<byte>, room: nat)
      returns (len: nat, isLast: bool, code: Code)
      requires Laid() && i < |contexts| && contexts[i].Valid() && cells == Cells(slab)
      requires room <= dst.Length && forall b :: b in slab.blocks ==> b.data != dst
      requires OthersTied(i, cells, slab.free)
      modifies contexts[i], slab`free, dst
      ensures Laid() && contexts[i].Valid() && OthersTied(i, cells, old(slab.free)) && Cells(slab) == cells
      ensures len <= room
      ensures var out := if code == NoData then [] else dst[..len];
              DownlinkModel.Read.Read(slab.free, contexts[i].Model(), out, isLast, code)
                == DownlinkModel.GetData(old(slab.free), old(contexts[i].Model()), room)
    {
      len, isLast, code := contexts[i].GetData(dst, room);
    }

    /** The transport reads up to `room` bytes. */
    method Read(i: nat, dst: array<byte>, room: nat) returns (len: nat, isLast: bool, code: Code)
      requires Valid() && i < |contexts| && Possible(ctxs[i], ReadEv(room))
      requires room <= dst.Length && forall b :: b in slab.blocks ==> b.data != dst
      modifies this`ctxs, contexts[i], slab`free, dst
      ensures Valid() && Model() == SysStep(old(Model()), At(i, ReadEv(room)))
      ensures len <= room
      ensures var r := DownlinkModel.GetData(old(slab.free), old(ctxs)[i].down, room);
              r.isLast == isLast && r.code == code && (code != NoData ==> r.out == dst[..len])
    {
      ghost var s, cells, e := Model(), Cells(slab), ReadEv(room);
      Ready(i, e);
      len, isLast, code := ReadAt(i, cells, dst, room);
      Followed(s, cells, i, e);
      BackedIsValid(contexts[i]);
      Record(i, Step(s.free, ctxs[i], e).1);
    }

    method CloseAt(i: nat, ghost cells: seq<Cell>)
      requires Laid() && i < |contexts| && contexts[i].Valid() && cells == Cells(slab)
      requires OthersTied(i, cells, slab.free)
      modifies contexts[i], slab`free
      ensures Laid() && contexts[i].freed && OthersTied(i, cells, old(slab.free)) && Cells(slab) == cells
      ensures slab.free == SlabAfterClose(old(slab.free), old(contexts[i].Model()))
    {
      contexts[i].Close();
    }

    /** The transport closes a downlink it was told is complete. */
    method Complete(i: nat)
      requires Valid() && i < |contexts| && Possible(ctxs[i], CompleteEv)
      modifies this`ctxs, contexts[i], slab`free
      ensures Valid() && Model() == SysStep(old(Model()), At(i, CompleteEv))
    {
      ghost var s, cells, e := Model(), Cells(slab), CompleteEv;
      Ready(i, e);
      CloseAt(i, cells);
      Followed(s, cells, i, e);
      Record(i, Step(s.free, ctxs[i], e).1);
    }

    method AbortAt(i: nat, ghost cells: seq<Cell>)
      requires Laid() && i < |contexts| && contexts[i].Valid() && cells == Cells(slab)
      requires OthersTied(i, cells, slab.free)
      modifies contexts[i], slab`free
      ensures Laid() && OthersTied(i, cells, old(slab.free)) && Cells(slab) == cells
      ensures var d := old(contexts[i].Model());
              if d.complete then contexts[i].freed && slab.free == SlabAfterClose(old(slab.free), d)
              else contexts[i].Valid() && contexts[i].Model() == d.(aborted := true) && slab.free == old(slab.free)
    {
      contexts[i].Abort();
    }

    /** The transport gives up. */
    method Abort(i: nat)
      requires Valid() && i < |contexts| && Possible(ctxs[i], AbortEv)
      modifies this`ctxs, contexts[i], slab`free
      ensures Valid() && Model() == SysStep(old(Model()), At(i, AbortEv))
    {
      ghost var s, cells, e := Model(), Cells(slab), AbortEv;
      Ready(i, e);
      AbortAt(i, cells);
      Followed(s, cells, i, e);
      BackedIsValid(contexts[i]);
      Record(i, Step(s.free, ctxs[i], e).1);
    }

    method ErrorAt(i: nat, ghost cells: seq<Cell>)
      requires Laid() && i < |contexts| && contexts[i].Valid() && cells == Cells(slab)
      requires OthersTied(i, cells, slab.free)
      modifies contexts[i], slab`free
      ensures Laid() && OthersTied(i, cells, old(slab.free)) && Cells(slab) == cells
      ensures var d := old(contexts[i].Model());
              if d.aborted then contexts[i].freed && slab.free == SlabAfterClose(old(slab.free), d)
              else contexts[i].Valid() && contexts[i].Model() == ErrorEnd(d) && slab.free == old(slab.free)
    {
      contexts[i].EndCallback(false);
    }

    /** The transfer fails. */
    method EndWithError(i: nat)
      requires Valid() && i < |contexts| && Possible(ctxs[i], EndEv(false))
      modifies this`ctxs, contexts[i], slab`free
      ensures Valid() && Model() == SysStep(old(Model()), At(i, EndEv(false)))
    {
      ghost var s, cells, e := Model(), Cells(slab), EndEv(false);
      Ready(i, e);
      ErrorAt(i, cells);
      Followed(s, cells, i, e);
      BackedIsValid(contexts[i]);
      Record(i, Step(s.free, ctxs[i], e).1);
    }

    /** The transfer ends well. The context may be closed by then. */
    method EndWithSuccess(i: nat)
      requires Valid() && i < |contexts| && Possible(ctxs[i], EndEv(true))
      modifies this`ctxs, contexts[i], slab`free
      ensures Valid() && Model() == SysStep(old(Model()), At(i, EndEv(true)))
    {
      Ready(i, EndEv(true));
      contexts[i].EndCallback(true);
      Record(i, Step(slab.free, ctxs[i], EndEv(true)).1);
    }

    /** A block that one context names is neither free nor named by another. */
    lemma OneOwner(i: nat, j: nat, id: nat)
      requires Valid() && i < |contexts| && j < |contexts| && i != j && ctxs[i].closes == 0 && ctxs[j].closes == 0
      requires id in contexts[i].queue || contexts[i].current == Some(id)
      ensures id !in slab.free && id !in contexts[j].queue && contexts[j].current != Some(id)
    {
      NamedAreHeld(contexts[i], Cells(slab), slab.free, id);
      HeldApart(Model(), i, j, id);
      if id in contexts[j].queue || contexts[j].current == Some(id) {
        NamedAreHeld(contexts[j], Cells(slab), slab.free, id);
      }
    }
  }
}
