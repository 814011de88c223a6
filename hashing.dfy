/**
 * SHA-256 as the program uses it. `hash` is an oracle of the model (a total
 * function to 32 bytes, nothing else is assumed of it); `hashv(parts)` is the
 * hash of the parts' concatenation, as in `solana_program::hash::hashv`.
 */
module Hashing {
  import opened Common

  type Hasher = seq<byte> -> Bytes32

  function Flatten(parts: seq<seq<byte>>): (r: seq<byte>)
    ensures parts == [] ==> r == []
  {
    if parts == [] then [] else parts[0] + Flatten(parts[1..])
  }

  /** `hashv(&[p0, p1, ...])`. */
  function Hashv(h: Hasher, parts: seq<seq<byte>>): Bytes32
  {
    h(Flatten(parts))
  }

  lemma FlattenTwo(a: seq<byte>, b: seq<byte>)
    ensures Flatten([a, b]) == a + b
  {
    assert [a, b][1..] == [b];
    assert Flatten([b]) == b + Flatten([]);
  }

  lemma FlattenThree(a: seq<byte>, b: seq<byte>, c: seq<byte>)
    ensures Flatten([a, b, c]) == a + b + c
  {
    assert [a, b, c][1..] == [b, c];
    FlattenTwo(b, c);
  }

  /**
   * `H` applied `n` times to `x`: the provider's hash chain. A provider that
   * committed to `ChainHash(h, seed, L)` reveals `ChainHash(h, seed, L - k)`
   * for its k-th random number.
   */
  function ChainHash(h: Hasher, x: Bytes32, n: nat): Bytes32
  {
    if n == 0 then x else h(ChainHash(h, x, n - 1))
  }

  /** Hashing `m` times and then `n` more times is hashing `m + n` times. */
  lemma {:induction false} ChainHashAdd(h: Hasher, x: Bytes32, m: nat, n: nat)
    ensures ChainHash(h, ChainHash(h, x, m), n) == ChainHash(h, x, m + n)
  {
    if n > 0 {
      ChainHashAdd(h, x, m, n - 1);
    }
  }

  /**
   * The chain links compose: a value `y` that hashes to `x` in `m` steps,
   * where `x` hashes to the commitment `c` in `n` steps, hashes to `c` in
   * `m + n` steps. This is why a provider may advance its chain head to any
   * revealed value and still verify later revelations against the new head.
   */
  lemma ChainHashLinks(h: Hasher, y: Bytes32, x: Bytes32, c: Bytes32, m: nat, n: nat)
    requires ChainHash(h, y, m) == x && ChainHash(h, x, n) == c
    ensures ChainHash(h, y, m + n) == c
  {
    ChainHashAdd(h, y, m, n);
  }
}
