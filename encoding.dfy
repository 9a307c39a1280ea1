/** Byte-level encoding of a subscription ID as the call data of a LINK
    `transferAndCall`: brownie's `convert.to_bytes(value)` writes an int as a
    32-byte big-endian word, and the VRF coordinator's `onTokenTransfer` reads
    that word back as a `uint64` (Solidity ABI decoding, which rejects a word
    of the wrong length or a value that does not fit). */
module Encoding {
  import opened Wrappers

  newtype uint8 = x: int | 0 <= x < 256

  /** Number of bytes in an ABI word (`bytes32`). */
  const WordBytes: nat := 32

  /** Number of bytes of a `uint64`. */
  const Uint64Bytes: nat := 8

  function Pow256(k: nat): (r: nat)
    ensures r > 0
  {
    if k == 0 then 1 else 256 * Pow256(k - 1)
  }

  lemma {:induction false} Pow256Monotone(i: nat, j: nat)
    requires i <= j
    ensures Pow256(i) <= Pow256(j)
  {
    if i < j {
      Pow256Monotone(i, j - 1);
    }
  }

  /** The unsigned integer a big-endian byte string denotes. */
  function UintOf(s: seq<uint8>): (r: nat)
    ensures r < Pow256(|s|)
  {
    if s == [] then 0
    else
      var high := UintOf(s[..|s| - 1]);
      assert high * 256 + 255 < Pow256(|s|) by {
        assert high + 1 <= Pow256(|s| - 1);
        assert (high + 1) * 256 <= Pow256(|s| - 1) * 256;
      }
      high * 256 + s[|s| - 1] as nat
  }

  /** The `k` low-order bytes of `n`, most significant first. */
  function BigEndian(n: nat, k: nat): (r: seq<uint8>)
    ensures |r| == k
  {
    if k == 0 then [] else BigEndian(n / 256, k - 1) + [(n % 256) as uint8]
  }

  lemma {:induction false} UintOfBigEndian(n: nat, k: nat)
    requires n < Pow256(k)
    ensures UintOf(BigEndian(n, k)) == n
  {
    if k > 0 {
      var s := BigEndian(n, k);
      assert s[..k - 1] == BigEndian(n / 256, k - 1);
      assert n / 256 < Pow256(k - 1);
      UintOfBigEndian(n / 256, k - 1);
    }
  }

  /** `convert.to_bytes(n)`: the 32-byte word of `n`, or `None` for the
      OverflowError raised when `n` does not fit in 32 bytes. */
  function ToBytes32(n: nat): (r: Option<seq<uint8>>)
    ensures r.Some? <==> n < Pow256(WordBytes)
    ensures r.Some? ==> |r.value| == WordBytes && UintOf(r.value) == n
  {
    if n < Pow256(WordBytes) then
      UintOfBigEndian(n, WordBytes);
      Some(BigEndian(n, WordBytes))
    else None
  }

  /** `abi.decode(data, (uint64))` after the coordinator's length check;
      `None` is a revert. */
  function DecodeUint64(data: seq<uint8>): (r: Option<nat>)
    ensures r.Some? ==> r.value < Pow256(Uint64Bytes)
    ensures r.Some? ==> |data| == WordBytes && UintOf(data) == r.value
  {
    if |data| != WordBytes then None
    else
      var v := UintOf(data);
      if v < Pow256(Uint64Bytes) then Some(v) else None
  }

  /** The call data built from a subscription ID decodes to that same ID. */
  lemma SubscriptionIdRoundTrip(id: nat)
    requires id < Pow256(Uint64Bytes)
    ensures ToBytes32(id).Some?
    ensures DecodeUint64(ToBytes32(id).value) == Some(id)
  {
    Pow256Monotone(Uint64Bytes, WordBytes);
  }
}
