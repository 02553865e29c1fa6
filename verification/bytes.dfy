// Bytes and byte streams shared by every lane of the model.
module Bytes {

  type byte = b: int | 0 <= b < 256

  const U32: int := 0x1_0000_0000

  datatype Option<+T> = None | Some(value: T)

  function Min(a: int, b: int): int { if a < b then a else b }

  // Writing `data` over the front of a fixed buffer leaves the stale tail in place.
  function Overwrite(buffer: seq<byte>, data: seq<byte>): (r: seq<byte>)
    ensures |data| <= |buffer| ==> |r| == |buffer|
    ensures |data| <= |r| && r[..|data|] == data
  {
    if |data| <= |buffer| then data + buffer[|data|..] else data
  }

  // The ids 0 .. n - 1.
  function IdSet(n: nat): (r: set<nat>)
    ensures forall x: nat :: x in r <==> x < n
  {
    if n == 0 then {} else IdSet(n - 1) + {n - 1}
  }

  // Every bounded non-repeating sequence of ids is no longer than its bound.
  lemma {:induction false} DistinctBound(ids: seq<nat>, bound: nat)
    requires forall i :: 0 <= i < |ids| ==> ids[i] < bound
    requires forall i, j :: 0 <= i < j < |ids| ==> ids[i] != ids[j]
    ensures |ids| <= bound
    decreases bound
  {
    if ids == [] {
    } else if k :| 0 <= k < |ids| && ids[k] == bound - 1 {
      DistinctBound(ids[..k] + ids[k + 1..], bound - 1);
    } else {
      assert 0 <= ids[0] < bound;
      DistinctBound(ids, bound - 1);
    }
  }

  // Reduction modulo 2^32, from the quotient and the remainder.
  lemma ModUnique(x: int, q: int, r: int)
    requires x == U32 * q + r && 0 <= r < U32
    ensures x % U32 == r
  {}
}
