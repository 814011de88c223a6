/**
 * `programs/entropy/src/processor/register_provider.rs`: registration
 * through the shared PDA helpers of the `programs/entropy` draft, with the
 * provider record updated field by field in place.
 */
module NativeRegister {
  import opened Common
  import opened Accounts
  import opened ProviderChain
  import opened Registration
  import Instruction

  /** The account checks of lines 48-84. */
  predicate AccountsOk(env: Env, authority: Account, provider: Account, vault: Account,
                       config: Account, systemProgram: Account)
    reads config
  {
    authority.isSigner
    && authority.isWritable && provider.isWritable && vault.isWritable && config.isWritable
    && systemProgram.key == SYSTEM_PROGRAM_ID
    && provider.key == ProviderPda(env, authority.key).address
    && vault.key == ProviderVaultPda(env, authority.key).address
    && config.key == ConfigPda(env).address
    && LoadConfig(config, env.programId).Ok?
  }

  /**
   * The answer of `process_register_provider`, decided on the accounts
   * before it runs, with the source's checks in its order: the chain length
   * (InvalidArgument), the metadata and URI lengths (InvalidInstructionData),
   * the signature (MissingRequiredSignature), the writable flags and the
   * system program (InvalidAccount), the three PDAs (InvalidPda), the config record (InvalidAccount), then `RegisterTail`.
   */
  function RegisterOutcome(env: Env, args: Instruction.RegisterProviderArgs, authority: Account, provider: Account, vault: Account,
                           config: Account, systemProgram: Account): Result<()>
    reads authority, provider, vault, config
  {
    if args.chainLength == 0 then Err(InvalidArgument)
    else if args.commitmentMetadataLen as nat > COMMITMENT_METADATA_LEN || args.uriLen as nat > URI_LEN then
      Err(InvalidInstructionData)
    else if !authority.isSigner then Err(MissingRequiredSignature)
    else if !authority.isWritable || !provider.isWritable || !vault.isWritable || !config.isWritable then Err(InvalidAccount)
    else if systemProgram.key != SYSTEM_PROGRAM_ID then Err(InvalidAccount)
    else if provider.key != ProviderPda(env, authority.key).address
              || vault.key != ProviderVaultPda(env, authority.key).address
              || config.key != ConfigPda(env).address then
      Err(InvalidPda)
    else
      var _ :- LoadConfig(config, env.programId);
      RegisterTail(env, args, authority, provider, vault)
  }

  /**
   * `process_register_provider`: a system-owned provider account must be
   * empty and is brought to its rent minimum, allocated and assigned (a
   * zeroed record); any other account must hold a provider record of the
   * signing authority. The vault must be system-owned and empty and is
   * topped up to its rent minimum. The record is rotated in place. It
   * succeeds exactly when the arguments are valid, the account checks pass,
   * both accounts are as described, the window end does not overflow and
   * the authority can pay.
   */
  method ProcessRegisterProvider(env: Env, args: Instruction.RegisterProviderArgs,
                                 authority: Account, provider: Account, vault: Account,
                                 config: Account, systemProgram: Account)
    returns (r: Result<()>)
    requires authority != provider && authority != vault && provider != vault
    modifies authority, provider, vault
    ensures r.Err? ==> unchanged(authority, provider, vault)
    ensures r == old(RegisterOutcome(env, args, authority, provider, vault, config, systemProgram))
    ensures unchanged(authority`owner, authority`data)
    ensures args.chainLength == 0 ==> r == Err(InvalidArgument)
    ensures args.chainLength > 0 && !ValidRegistrationArgs(args) ==> r == Err(InvalidInstructionData)
    ensures ValidRegistrationArgs(args) && !authority.isSigner ==> r == Err(MissingRequiredSignature)
    ensures r.Ok? <==> ValidRegistrationArgs(args)
                       && old(AccountsOk(env, authority, provider, vault, config, systemProgram))
                       && old(ProviderReady(env, authority.key, provider)) && old(Uninitialized(vault))
                       && Rotate(old(Previous(provider.data)), authority.key, args,
                                 ProviderPda(env, authority.key).bump).Ok?
                       && old(RegisterCost(env, provider, vault)) <= old(authority.lamports)
    ensures r.Ok? && old(provider.owner) != SYSTEM_PROGRAM_ID ==>
              old(provider.owner) == env.programId && old(provider.data).ProviderData?
              && old(provider.data).provider.providerAuthority == authority.key
              && provider.lamports == old(provider.lamports)
    ensures r.Ok? && old(provider.owner) == SYSTEM_PROGRAM_ID ==>
              old(provider.data) == Empty && provider.lamports == Max(old(provider.lamports), env.providerRent)
    ensures r.Ok? ==> args.chainLength > 0
                      && provider.owner == env.programId
                      && var q := Rotate(old(Previous(provider.data)), authority.key, args,
                                         ProviderPda(env, authority.key).bump);
                         q.Ok? && provider.data == ProviderData(q.value)
    ensures r.Ok? ==> old(Uninitialized(vault)) && vault.owner == old(vault.owner) && vault.data == Empty
                      && vault.lamports == Max(old(vault.lamports), env.vaultRent)
    ensures r.Ok? ==> authority.lamports + provider.lamports + vault.lamports
                      == old(authority.lamports + provider.lamports + vault.lamports)
  {
    if args.chainLength == 0 {
      return Err(InvalidArgument);
    }
    if args.commitmentMetadataLen as nat > COMMITMENT_METADATA_LEN || args.uriLen as nat > URI_LEN {
      return Err(InvalidInstructionData);
    }
    if !authority.isSigner {
      return Err(MissingRequiredSignature);
    }
    if !authority.isWritable || !provider.isWritable || !vault.isWritable || !config.isWritable {
      return Err(InvalidAccount);
    }
    if systemProgram.key != SYSTEM_PROGRAM_ID {
      return Err(InvalidAccount);
    }
    var providerPda := ProviderPda(env, authority.key);
    if provider.key != providerPda.address {
      return Err(InvalidPda);
    }
    if vault.key != ProviderVaultPda(env, authority.key).address {
      return Err(InvalidPda);
    }
    if config.key != ConfigPda(env).address {
      return Err(InvalidPda);
    }
    var _ :- LoadConfig(config, env.programId);

    var authorityLamports, providerLamports := authority.lamports, provider.lamports;
    var record := ZERO_PROVIDER;
    if provider.owner == SYSTEM_PROGRAM_ID {
      // init_pda_mut
      if provider.data != Empty {
        return Err(InvalidAccount);
      }
      var init :- InitPdaBalances(authorityLamports, providerLamports, env.providerRent);
      authorityLamports, providerLamports := init.0, init.1;
    } else {
      record :- LoadProvider(provider, env.programId);
      if record.providerAuthority != authority.key {
        return Err(InvalidAccount);
      }
    }

    // init_vault_pda
    if vault.owner != SYSTEM_PROGRAM_ID || vault.data != Empty {
      return Err(InvalidAccount);
    }
    var topUp :- InitVaultBalances(authorityLamports, vault.lamports, env.vaultRent);

    record :- RotateInPlace(record, authority.key, args, providerPda.bump);

    authority.lamports := topUp.0;
    provider.lamports := providerLamports;
    vault.lamports := topUp.1;
    provider.owner := env.programId;
    provider.data := ProviderData(record);
    return Ok(());
  }
}
