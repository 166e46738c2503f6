/** lib/block.c: the slab of fixed-size blocks that all downlinks share. */
module BlockSlab {
  import opened Bytes
  import opened DownlinkModel

  /** struct block; `content` is what its first `len` bytes hold. */
  class Block {
    var len: nat
    var isLast: bool
    const data: array<byte>
    ghost var content: seq<byte>

    constructor ()
      ensures Valid() && fresh(data)
    {
      data := new byte[BLOCK_SIZE];
      len, isLast, content := 0, false, [];
    }

    ghost predicate Valid()
      reads this, data
    {
      data.Length == BLOCK_SIZE && |content| == len <= BLOCK_SIZE && content == data[..len]
    }

    /** block_append. It checks no bound; its caller must. */
    method Append(bytes: seq<byte>)
      requires Valid() && len + |bytes| <= BLOCK_SIZE
      modifies `len, `content, data
      ensures Valid() && content == old(content) + bytes
    {
      forall i | 0 <= i < |bytes| {
        data[len + i] := bytes[i];
      }
      assert data[..len + |bytes|] == old(data[..len]) + bytes;
      len, content := len + |bytes|, content + bytes;
    }

    /** block_get into `dst` from `at` on: false stands for -EINVAL. The bytes need not lie below `len`. */
    method Get(offset: nat, dst: array<byte>, at: nat, n: nat) returns (ok: bool)
      requires Valid() && at + n <= dst.Length && dst != data
      modifies dst
      ensures ok <==> offset + n <= BLOCK_SIZE
      ensures ok ==> dst[at..at + n] == data[offset..offset + n]
      ensures ok && offset + n <= len ==> dst[at..at + n] == content[offset..offset + n]
      ensures forall k :: 0 <= k < dst.Length && !(ok && at <= k < at + n) ==> dst[k] == old(dst[k])
    {
      if offset + n > BLOCK_SIZE {
        return false;
      }
      forall i | 0 <= i < n {
        dst[at + i] := data[offset + i];
      }
      assert offset + n <= len ==> content[offset..offset + n] == data[offset..offset + n];
      return true;
    }
  }

  /** The slab. A block is named by its number; `free` is the list of free ones, used from the front. */
  class Slab {
    const blocks: seq<Block>
    var free: seq<nat>

    ghost predicate Valid()
      reads this, blocks, set b | b in blocks :: b.data
    {
      && |blocks| == NUM_BLOCKS
      && (forall i, j :: 0 <= i < j < |blocks| ==> blocks[i] != blocks[j] && blocks[i].data != blocks[j].data)
      && (forall i :: 0 <= i < |blocks| ==> blocks[i].Valid())
      && (forall i :: 0 <= i < |free| ==> free[i] < NUM_BLOCKS)
      && (forall i, j :: 0 <= i < j < |free| ==> free[i] != free[j])
    }

    ghost function CellOf(id: nat): Cell
      requires id < |blocks|
      reads this, blocks[id]
    {
      Cell(id, blocks[id].content, blocks[id].isLast)
    }

    /** K_MEM_SLAB_DEFINE_STATIC: every block is free. */
    constructor ()
      ensures Valid() && free == Numbers(NUM_BLOCKS)
      ensures fresh(blocks) && fresh(set b | b in blocks :: b.data)
    {
      var bs: seq<Block> := [];
      while |bs| < NUM_BLOCKS
        invariant |bs| <= NUM_BLOCKS && fresh(bs) && fresh(set b | b in bs :: b.data)
        invariant forall i, j :: 0 <= i < j < |bs| ==> bs[i] != bs[j] && bs[i].data != bs[j].data
        invariant forall i :: 0 <= i < |bs| ==> bs[i].Valid()
      {
        var b := new Block();
        bs := bs + [b];
      }
      blocks, free := bs, Numbers(NUM_BLOCKS);
      NumbersInOrder(NUM_BLOCKS);
    }

    /** block_alloc: takes the first free block and resets it. None if the slab stays empty. */
    method Alloc() returns (id: Option<nat>)
      requires Valid()
      modifies this`free, if free == [] then {} else {blocks[free[0]]}
      ensures Valid()
      ensures id == if old(free) == [] then None else Some(old(free)[0])
      ensures free == if old(free) == [] then [] else old(free)[1..]
      ensures id.Some? ==> id.value < NUM_BLOCKS && CellOf(id.value) == Cell(id.value, [], false)
      ensures forall k :: 0 <= k < NUM_BLOCKS && id != Some(k) ==> CellOf(k) == old(CellOf(k))
    {
      if free == [] {
        return None;
      }
      var block := blocks[free[0]];
      block.isLast, block.len, block.content := false, 0, [];
      id := Some(free[0]);
      free := free[1..];
    }

    /** block_append to a block just allocated, and block_mark_last if it is the last. */
    method Store(id: nat, data: seq<byte>, last: bool)
      requires Valid() && id < NUM_BLOCKS && CellOf(id) == Cell(id, [], false) && |data| <= BLOCK_SIZE
      modifies blocks[id], blocks[id].data
      ensures Valid() && CellOf(id) == Cell(id, data, last)
      ensures forall k :: 0 <= k < NUM_BLOCKS && k != id ==> CellOf(k) == old(CellOf(k))
    {
      blocks[id].Append(data);
      if last {
        blocks[id].isLast := true;
      }
    }

    /** block_free. The block must not be free already. */
    method Free(id: nat)
      requires Valid() && id < NUM_BLOCKS && id !in free
      modifies this`free
      ensures Valid() && free == [id] + old(free)
    {
      free := [id] + free;
    }
  }
}
