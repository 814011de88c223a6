/**
 * Byte-level building blocks shared by the whole Entropy model: fixed-width
 * unsigned integers, little-endian encodings (Rust's `to_le_bytes` /
 * `from_le_bytes`), 32-byte keys and hashes, and the errors an instruction
 * returns.
 */
module Common {

  type byte = x: int | 0 <= x < 0x100
  type u16 = x: int | 0 <= x < 0x1_0000
  type u32 = x: int | 0 <= x < 0x1_0000_0000
  type u64 = x: int | 0 <= x < 0x1_0000_0000_0000_0000

  const U32_MAX: int := 0xFFFF_FFFF
  const U64_MAX: int := 0xFFFF_FFFF_FFFF_FFFF

  /** `count` zero bytes. */
  function Zeros(count: nat): (r: seq<byte>)
    ensures |r| == count && forall i :: 0 <= i < count ==> r[i] == 0
  {
    seq(count, _ => 0)
  }

  /** A 32-byte value: a public key, a hash, a commitment. */
  type Bytes32 = s: seq<byte> | |s| == 32 witness Zeros(32)
  type Pubkey = Bytes32

  /** `Pubkey::default()`, also the system program id. */
  const ZERO32: Bytes32 := Zeros(32)

  /** ASCII byte string of a seed literal such as `b"config"`. */
  function Ascii(s: string): (r: seq<byte>)
    requires forall i :: 0 <= i < |s| ==> s[i] as int < 0x100
    ensures |r| == |s| && forall i :: 0 <= i < |s| ==> r[i] == s[i] as int
  {
    seq(|s|, i requires 0 <= i < |s| => s[i] as int)
  }

  // ---------------------------------------------------------------------
  // Little-endian integers
  // ---------------------------------------------------------------------

  function Pow256(n: nat): (r: nat)
    ensures r > 0
  {
    if n == 0 then 1 else 256 * Pow256(n - 1)
  }

  /** The `n`-byte little-endian encoding of `x`. */
  function LeBytes(x: nat, n: nat): (r: seq<byte>)
    requires x < Pow256(n)
    ensures |r| == n
  {
    if n == 0 then [] else [x % 256] + LeBytes(x / 256, n - 1)
  }

  /** The unsigned value of a little-endian byte string; it fits in `|s|` bytes. */
  function LeValue(s: seq<byte>): (r: nat)
    ensures r < Pow256(|s|)
  {
    if s == [] then 0 else s[0] + 256 * LeValue(s[1..])
  }

  lemma {:induction false} LeValueOfLeBytes(x: nat, n: nat)
    requires x < Pow256(n)
    ensures LeValue(LeBytes(x, n)) == x
  {
    if n > 0 {
      LeValueOfLeBytes(x / 256, n - 1);
      assert LeBytes(x, n)[1..] == LeBytes(x / 256, n - 1);
    }
  }

  lemma {:induction false} LeBytesOfLeValue(s: seq<byte>)
    ensures LeBytes(LeValue(s), |s|) == s
  {
    if s != [] {
      LeBytesOfLeValue(s[1..]);
      assert LeValue(s) % 256 == s[0] && LeValue(s) / 256 == LeValue(s[1..]);
    }
  }

  /** Equal encodings of the same width come from equal values. */
  lemma LeBytesInjective(x: nat, y: nat, n: nat)
    requires x < Pow256(n) && y < Pow256(n)
    requires LeBytes(x, n) == LeBytes(y, n)
    ensures x == y
  {
    LeValueOfLeBytes(x, n);
    LeValueOfLeBytes(y, n);
  }

  function U16Le(x: u16): (r: seq<byte>) ensures |r| == 2 { LeBytes(x, 2) }
  function U32Le(x: u32): (r: seq<byte>) ensures |r| == 4 { LeBytes(x, 4) }
  function U64Le(x: u64): (r: seq<byte>) ensures |r| == 8 { LeBytes(x, 8) }

  /** `u32::from_le_bytes` of four bytes. */
  function U32From(s: seq<byte>): (r: u32)
    requires |s| == 4
  {
    LeValue(s)
  }

  /** `u64::from_le_bytes` of eight bytes. */
  function U64From(s: seq<byte>): (r: u64)
    requires |s| == 8
  {
    LeValue(s)
  }

  lemma U32RoundTrip(x: u32)
    ensures U32From(U32Le(x)) == x
  {
    LeValueOfLeBytes(x, 4);
  }

  lemma U64RoundTrip(x: u64)
    ensures U64From(U64Le(x)) == x
  {
    LeValueOfLeBytes(x, 8);
  }

  lemma U32BytesRoundTrip(s: seq<byte>)
    requires |s| == 4
    ensures U32Le(U32From(s)) == s
  {
    LeBytesOfLeValue(s);
  }

  lemma U64BytesRoundTrip(s: seq<byte>)
    requires |s| == 8
    ensures U64Le(U64From(s)) == s
  {
    LeBytesOfLeValue(s);
  }

  // ---------------------------------------------------------------------
  // Errors
  // ---------------------------------------------------------------------

  /**
   * The errors the handlers return: `ProgramError` variants of the Solana
   * runtime, the program's own `EntropyError` variants, and the failure of a
   * cross-program invocation (system program or callback), whose error code
   * comes from the callee.
   */
  datatype Error =
    | InvalidInstructionData
    | InvalidArgument
    | InvalidAccountData
    | MissingRequiredSignature
    | InvalidSeeds
    | InvalidAccount
    | InvalidPda
    | NotImplemented
    | OutOfRandomness
    | LastRevealedTooOld
    | IncorrectRevelation
    | BlockhashUnavailable
    | InvalidRevealCall
    | CpiFailed

  datatype Option<T> = None | Some(value: T)

  datatype Result<T> = Ok(value: T) | Err(error: Error)
  {
    predicate IsFailure() { Err? }

    function PropagateFailure<U>(): Result<U>
      requires Err?
    {
      Err(error)
    }

    function Extract(): T
      requires Ok?
    {
      value
    }
  }

  /** The larger of two values. */
  function Max(a: int, b: int): int
  {
    if a < b then b else a
  }

  /** Rust's `checked_add` on u64. */
  function CheckedAdd(a: u64, b: u64): (r: Result<u64>)
    ensures r.Ok? <==> a + b <= U64_MAX
    ensures r.Ok? ==> r.value == a + b
    ensures r.Err? ==> r.error == InvalidArgument
  {
    if a + b <= U64_MAX then Ok(a + b) else Err(InvalidArgument)
  }
}
