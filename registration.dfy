/**
 * What initialisation and registration write, shared by the three drafts
 * that implement them: the config record of `process_initialize`, the
 * argument bounds of `process_register_provider`, and the record a
 * registration starts from.
 */
module Registration {
  import opened Common
  import opened Accounts
  import opened ProviderChain
  import Instruction

  /**
   * The config record written at initialisation: the given admin, fee and
   * default provider, no accrued fees, no proposed admin, a zero seed and
   * the config PDA's bump.
   */
  function NewConfig(args: Instruction.InitializeArgs, bump: byte): Config
  {
    Config(
      admin := args.admin,
      pythFeeLamports := args.pythFeeLamports,
      accruedPythFeesLamports := 0,
      defaultProvider := args.defaultProvider,
      proposedAdmin := ZERO32,
      seed := ZERO32,
      bump := bump)
  }

  /** The argument checks every registration makes before looking at accounts. */
  predicate ValidRegistrationArgs(args: Instruction.RegisterProviderArgs)
  {
    args.chainLength > 0
    && args.commitmentMetadataLen as nat <= COMMITMENT_METADATA_LEN
    && args.uriLen as nat <= URI_LEN
  }

  /**
   * The record a registration rotates: the stored provider, or the zeroed
   * record of an account created by the registration itself.
   */
  function Previous(d: AccountData): Provider
  {
    if d.ProviderData? then d.provider else ZERO_PROVIDER
  }

  /**
   * The provider account a two-file registration can write: a system-owned
   * empty account, which it creates, or a program-owned provider record of
   * the signing authority, which it rotates.
   */
  predicate ProviderReady(env: Env, authority: Pubkey, provider: Account)
    reads provider
  {
    if provider.owner == SYSTEM_PROGRAM_ID then provider.data == Empty
    else LoadProvider(provider, env.programId).Ok? && provider.data.provider.providerAuthority == authority
  }

  /**
   * What a two-file registration costs the authority: the rent top-up of a
   * provider account it creates, and that of the vault.
   */
  function RegisterCost(env: Env, provider: Account, vault: Account): int
    reads provider, vault
  {
    (if provider.owner == SYSTEM_PROGRAM_ID then Max(provider.lamports, env.providerRent) - provider.lamports else 0)
    + (Max(vault.lamports, env.vaultRent) - vault.lamports)
  }

  /**
   * The provider account's step in a two-file registration: a system-owned
   * account must be empty (InvalidAccount) and is brought to its rent
   * minimum by the authority (CpiFailed when it cannot pay); any other must
   * hold a provider record (InvalidAccount) of the signing authority
   * (InvalidAccount). The result is what the authority has left.
   */
  function ProviderStep(env: Env, authority: Account, provider: Account): Result<u64>
    reads authority, provider
  {
    if provider.owner == SYSTEM_PROGRAM_ID then
      if provider.data != Empty then Err(InvalidAccount)
      else
        var init :- InitPdaBalances(authority.lamports, provider.lamports, env.providerRent);
        Ok(init.0)
    else
      var record :- LoadProvider(provider, env.programId);
      if record.providerAuthority != authority.key then Err(InvalidAccount) else Ok(authority.lamports)
  }

  /**
   * The steps of a two-file registration after its account checks, in the
   * source's order: the provider account's step, then the vault, which must
   * be system-owned and empty (InvalidAccount) and is topped up from what
   * the authority has left (CpiFailed), then the end of the new window,
   * which must not overflow (InvalidArgument).
   */
  function RegisterTail(env: Env, args: Instruction.RegisterProviderArgs,
                        authority: Account, provider: Account, vault: Account): Result<()>
    requires args.chainLength > 0
    reads authority, provider, vault
  {
    var left :- ProviderStep(env, authority, provider);
    if !Uninitialized(vault) then Err(InvalidAccount)
    else
      var _ :- InitVaultBalances(left, vault.lamports, env.vaultRent);
      var _ :- Rotate(Previous(provider.data), authority.key, args, ProviderPda(env, authority.key).bump);
      Ok(())
  }

  /**
   * The field-by-field update of `register_provider.rs` in both drafts,
   * applied to the record in place: authority, fee, both commitments at
   * the current sequence number, metadata and URI, then the checked end of
   * the window, the increment of `sequence_number`, and the bump. Fields it
   * does not assign keep their values.
   */
  method RotateInPlace(p: Provider, authority: Pubkey, args: Instruction.RegisterProviderArgs, bump: byte)
    returns (r: Result<Provider>)
    requires args.chainLength > 0
    ensures r == Rotate(p, authority, args, bump)
  {
    var q := p;
    q := q.(providerAuthority := authority);
    q := q.(feeLamports := args.feeLamports);
    q := q.(originalCommitment := args.commitment);
    q := q.(originalCommitmentSequenceNumber := q.sequenceNumber);
    q := q.(currentCommitment := args.commitment);
    q := q.(currentCommitmentSequenceNumber := q.sequenceNumber);
    q := q.(commitmentMetadataLen := args.commitmentMetadataLen);
    q := q.(commitmentMetadata := args.commitmentMetadata);
    q := q.(uriLen := args.uriLen);
    q := q.(uri := args.uri);
    var end :- CheckedAdd(q.sequenceNumber, args.chainLength);
    q := q.(endSequenceNumber := end);
    q := q.(sequenceNumber := q.sequenceNumber + 1);
    q := q.(bump := bump);
    return Ok(q);
  }
}
