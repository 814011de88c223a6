/**
 * Account discriminators of the `entropy/programs/entropy` draft: the first
 * eight bytes of a record are the little-endian encoding of the record
 * kind's ordinal.
 */
module Discriminator {
  import opened Common

  function AccountDiscriminator(ordinal: u64): (d: seq<byte>)
    ensures |d| == 8 && U64From(d) == ordinal
  {
    U64RoundTrip(ordinal);
    U64Le(ordinal)
  }

  function ConfigDiscriminator(): seq<byte> { AccountDiscriminator(0) }
  function ProviderDiscriminator(): seq<byte> { AccountDiscriminator(1) }
  function RequestDiscriminator(): seq<byte> { AccountDiscriminator(2) }

  /** Distinct ordinals never share a discriminator. */
  lemma DiscriminatorInjective(a: u64, b: u64)
    requires AccountDiscriminator(a) == AccountDiscriminator(b)
    ensures a == b
  {
    LeBytesInjective(a, b, 8);
  }

  /** The config discriminator is eight zero bytes. */
  lemma ConfigDiscriminatorIsZero()
    ensures ConfigDiscriminator() == Zeros(8)
  {
    LeBytesOfLeValue(Zeros(8));
    assert LeValue(Zeros(8)) == 0 by {
      ZerosValue(8);
    }
  }

  lemma {:induction false} ZerosValue(n: nat)
    ensures LeValue(Zeros(n)) == 0
  {
    if n > 0 {
      assert Zeros(n)[1..] == Zeros(n - 1);
      ZerosValue(n - 1);
    }
  }

  /** The three record kinds are told apart by their discriminators. */
  lemma DiscriminatorsDistinct()
    ensures ConfigDiscriminator() != ProviderDiscriminator()
    ensures ConfigDiscriminator() != RequestDiscriminator()
    ensures ProviderDiscriminator() != RequestDiscriminator()
  {
  }
}
