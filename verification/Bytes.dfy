/** Vocabulary shared by every part of the gateway model. */
module Bytes {

  newtype byte = x: int | 0 <= x < 256

  type Pos = x: nat | x > 0 witness 1

  /** CONFIG_GOLIOTH_BLOCKWISE_UPLOAD_MAX_BLOCK_SIZE: left arbitrary, so every result holds for all sizes. */
  const BLOCK_SIZE: Pos

  /** Counters of the source are 32 bits wide and wrap. */
  const WORD := 0x1_0000_0000

  datatype Option<+T> = None | Some(value: T)

  function Min(a: nat, b: nat): nat {
    if a < b then a else b
  }

  /** 0, 1, ..., n - 1. */
  function Numbers(n: nat): seq<nat> {
    if n == 0 then [] else Numbers(n - 1) + [n - 1]
  }

  lemma {:induction false} NumbersInOrder(n: nat)
    ensures |Numbers(n)| == n && forall i :: 0 <= i < n ==> Numbers(n)[i] == i
  {
    if n > 0 {
      NumbersInOrder(n - 1);
    }
  }

  function Flatten(cs: seq<seq<byte>>): seq<byte> {
    if cs == [] then [] else cs[0] + Flatten(cs[1..])
  }

  lemma ConcatAssociates(a: seq<byte>, b: seq<byte>, c: seq<byte>)
    ensures a + b + c == a + (b + c)
  {
  }

  lemma {:induction false} FlattenConcat(a: seq<seq<byte>>, b: seq<seq<byte>>)
    ensures Flatten(a + b) == Flatten(a) + Flatten(b)
  {
    if a == [] {
      assert a + b == b;
    } else {
      assert (a + b)[0] == a[0] && (a + b)[1..] == a[1..] + b;
      FlattenConcat(a[1..], b);
    }
  }
}
