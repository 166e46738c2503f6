/** The pure chunker the uplink is measured against: cut a byte string into blocks of BLOCK_SIZE. */
module Chunking {
  import opened Bytes

  function Chunk(s: seq<byte>): seq<seq<byte>> {
    if s == [] then []
    else if |s| <= BLOCK_SIZE then [s]
    else [s[..BLOCK_SIZE]] + Chunk(s[BLOCK_SIZE..])
  }

  ghost predicate AllFull(cs: seq<seq<byte>>) {
    forall i :: 0 <= i < |cs| ==> |cs[i]| == BLOCK_SIZE
  }

  /** What a blockwise transfer of `s` has to look like, said without computing it. */
  ghost predicate IsChunking(cs: seq<seq<byte>>, s: seq<byte>) {
    && Flatten(cs) == s
    && (forall i :: 0 <= i < |cs| - 1 ==> |cs[i]| == BLOCK_SIZE)
    && (cs != [] ==> 0 < |cs[|cs| - 1]| <= BLOCK_SIZE)
  }

  lemma {:induction false} ChunkIsChunking(s: seq<byte>)
    ensures IsChunking(Chunk(s), s)
    ensures s != [] ==> Chunk(s) != []
  {
    if |s| > BLOCK_SIZE {
      ChunkIsChunking(s[BLOCK_SIZE..]);
    }
  }

  /** Full blocks in front do not disturb the cut behind them: the fact the lazy submit relies on. */
  lemma {:induction false} ChunkAfterFull(full: seq<seq<byte>>, s: seq<byte>)
    requires AllFull(full)
    ensures Chunk(Flatten(full) + s) == full + Chunk(s)
  {
    if full == [] {
      assert Flatten(full) + s == s;
    } else {
      var rest := Flatten(full[1..]) + s;
      assert Flatten(full) + s == full[0] + rest;
      ChunkAfterFull(full[1..], s);
      if rest == [] {
        assert full[0] + rest == full[0];
      } else {
        assert (full[0] + rest)[..BLOCK_SIZE] == full[0] && (full[0] + rest)[BLOCK_SIZE..] == rest;
      }
    }
  }

  /** The cut is unique: whatever has the shape of a chunking is the chunking. */
  lemma {:induction false} ChunkingIsUnique(cs: seq<seq<byte>>, s: seq<byte>)
    ensures IsChunking(cs, s) <==> cs == Chunk(s)
  {
    ChunkIsChunking(s);
    if IsChunking(cs, s) && cs != [] {
      var n := |cs| - 1;
      assert cs == cs[..n] + [cs[n]];
      FlattenConcat(cs[..n], [cs[n]]);
      assert Flatten([cs[n]]) == cs[n];
      ChunkAfterFull(cs[..n], cs[n]);
    }
  }

  /** There are ceil(|s| / BLOCK_SIZE) blocks. */
  lemma {:induction false} ChunkCount(s: seq<byte>)
    ensures |s| <= |Chunk(s)| * BLOCK_SIZE
    ensures s != [] ==> (|Chunk(s)| - 1) * BLOCK_SIZE < |s|
  {
    if |s| > BLOCK_SIZE {
      var n := |Chunk(s[BLOCK_SIZE..])|;
      ChunkCount(s[BLOCK_SIZE..]);
      assert (n - 1) * BLOCK_SIZE + BLOCK_SIZE == n * BLOCK_SIZE;
      assert n * BLOCK_SIZE + BLOCK_SIZE == (n + 1) * BLOCK_SIZE;
    }
  }
}
