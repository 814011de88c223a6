/**
 * `programs/entropy/src/processor.rs`: the single-file processor of the
 * `programs/entropy` draft. It dispatches on the instruction tag, implements
 * initialisation and provider registration with explicit system-program
 * calls, and answers NotImplemented for every other instruction.
 *
 * Each handler takes its accounts in the order the source reads them and
 * checks them in the source's order. Nothing is written before the last
 * check: the new balances and records are computed first and committed at
 * the end, which is what the runtime's rollback of a failed instruction
 * makes observable.
 */
module LegacyProcessor {
  import opened Common
  import opened Accounts
  import opened ProviderChain
  import opened Registration
  import Instruction

  /** The handlers this processor implements. */
  datatype Handler = InitializeHandler(payload: seq<byte>) | RegisterProviderHandler(payload: seq<byte>)

  /**
   * `process_instruction`'s dispatch: a tag that does not parse is
   * InvalidInstructionData; the tags past RegisterProvider are
   * NotImplemented.
   */
  function Dispatch(data: seq<byte>): (r: Result<Handler>)
    ensures r.Ok? <==> data != [] && data[0] <= 1
    ensures data != [] && data[0] == 0 ==> r == Ok(InitializeHandler(data[1..]))
    ensures data != [] && data[0] == 1 ==> r == Ok(RegisterProviderHandler(data[1..]))
    ensures data != [] && 2 <= data[0] <= 9 ==> r == Err(NotImplemented)
    ensures (data == [] || data[0] > 9) ==> r == Err(InvalidInstructionData)
  {
    var (instruction, payload) :- Instruction.Parse(data);
    match instruction
    case Initialize => Ok(InitializeHandler(payload))
    case RegisterProvider => Ok(RegisterProviderHandler(payload))
    case _ => Err(NotImplemented)
  }

  /** The account checks `process_initialize` makes (lines 62-90). */
  predicate InitializeAccountsOk(env: Env, payer: Account, config: Account, vault: Account, systemProgram: Account)
    reads config, vault
  {
    payer.isSigner
    && payer.isWritable && config.isWritable && vault.isWritable
    && systemProgram.key == SYSTEM_PROGRAM_ID
    && config.key == ConfigPda(env).address
    && vault.key == PythFeeVaultPda(env).address
    && Uninitialized(config) && Uninitialized(vault)
  }

  /**
   * `process_initialize`: after the argument and account checks the config
   * account is created with exactly its rent minimum (which fails if it
   * already holds lamports), the fee vault is topped up to the rent minimum
   * only when below it, and the config record is written. It succeeds
   * exactly when the arguments name an admin and a default provider, the
   * account checks pass, the config account holds no lamports and the payer
   * can pay both.
   */
  method ProcessInitialize(env: Env, args: Instruction.InitializeArgs,
                           payer: Account, config: Account, vault: Account, systemProgram: Account)
    returns (r: Result<()>)
    requires payer != config && payer != vault && config != vault
    modifies payer, config, vault
    ensures r.Err? ==> unchanged(payer, config, vault)
    ensures unchanged(payer`owner, payer`data)
    ensures args.admin == ZERO32 || args.defaultProvider == ZERO32 ==> r == Err(InvalidArgument)
    ensures args.admin != ZERO32 && args.defaultProvider != ZERO32 && !payer.isSigner
            ==> r == Err(MissingRequiredSignature)
    ensures r.Ok? <==> args.admin != ZERO32 && args.defaultProvider != ZERO32
                       && old(InitializeAccountsOk(env, payer, config, vault, systemProgram))
                       && old(config.lamports) == 0
                       && env.configRent + (Max(old(vault.lamports), env.vaultRent) - old(vault.lamports))
                          <= old(payer.lamports)
    ensures r.Ok? ==> old(config.lamports) == 0 && config.lamports == env.configRent
    ensures r.Ok? ==> config.owner == env.programId
                      && config.data == ConfigData(NewConfig(args, ConfigPda(env).bump))
    ensures r.Ok? ==> vault.lamports == Max(old(vault.lamports), env.vaultRent)
                      && vault.owner == old(vault.owner) && vault.data == old(vault.data)
    ensures r.Ok? ==> payer.lamports + config.lamports + vault.lamports
                      == old(payer.lamports + config.lamports + vault.lamports)
  {
    if args.admin == ZERO32 || args.defaultProvider == ZERO32 {
      return Err(InvalidArgument);
    }
    if !payer.isSigner {
      return Err(MissingRequiredSignature);
    }
    if !payer.isWritable || !config.isWritable || !vault.isWritable {
      return Err(InvalidAccount);
    }
    if systemProgram.key != SYSTEM_PROGRAM_ID {
      return Err(InvalidAccount);
    }
    var configPda := ConfigPda(env);
    if config.key != configPda.address {
      return Err(InvalidPda);
    }
    if vault.key != PythFeeVaultPda(env).address {
      return Err(InvalidPda);
    }
    if config.owner != SYSTEM_PROGRAM_ID || config.data != Empty {
      return Err(InvalidAccount);
    }
    if vault.owner != SYSTEM_PROGRAM_ID || vault.data != Empty {
      return Err(InvalidAccount);
    }
    var create :- CreateAccount(payer.lamports, config.lamports, env.configRent);
    var payerLamports, configLamports, vaultLamports := create.0, create.1, vault.lamports;
    if vaultLamports < env.vaultRent {
      var topUp :- Transfer(payerLamports, vaultLamports, env.vaultRent - vaultLamports);
      payerLamports, vaultLamports := topUp.0, topUp.1;
    }
    payer.lamports := payerLamports;
    config.lamports := configLamports;
    vault.lamports := vaultLamports;
    config.owner := env.programId;
    config.data := ConfigData(NewConfig(args, configPda.bump));
    return Ok(());
  }

  /** The account checks `process_register_provider` makes before touching the provider (lines 166-206). */
  predicate RegisterAccountsOk(env: Env, authority: Account, provider: Account, vault: Account,
                               config: Account, systemProgram: Account)
    reads config
  {
    authority.isSigner
    && authority.isWritable && provider.isWritable && vault.isWritable && config.isWritable
    && systemProgram.key == SYSTEM_PROGRAM_ID
    && provider.key == ProviderPda(env, authority.key).address
    && vault.key == ProviderVaultPda(env, authority.key).address
    && config.key == ConfigPda(env).address
    && LoadConfig(config, env.programId).Ok?
  }

  /**
   * The provider account this registration can write: an uncreated account
   * without lamports, which it creates, or a program-owned provider record
   * of the signing authority, which it rotates.
   */
  predicate RegisterProviderReady(env: Env, authority: Pubkey, provider: Account)
    reads provider
  {
    if Uninitialized(provider) then provider.lamports == 0
    else provider.owner == env.programId && provider.data.ProviderData?
         && provider.data.provider.providerAuthority == authority
  }

  /** What this registration costs the authority: the rent of each account it creates. */
  function RegisterCost(env: Env, provider: Account, vault: Account): int
    reads provider, vault
  {
    (if Uninitialized(provider) then env.providerRent else 0) + (if vault.lamports == 0 then env.vaultRent else 0)
  }

  /**
   * The creation steps of this registration, in the source's order, with
   * what the authority has left: an uncreated provider account must hold
   * no lamports (InvalidAccount) and is created (CpiFailed when the
   * authority cannot pay); otherwise it must be a program-owned provider
   * record (InvalidAccount). An uncreated vault without lamports is created
   * the same way; any other vault must at least be system-owned and empty
   * (InvalidAccount).
   */
  function CreateSteps(env: Env, authority: Account, provider: Account, vault: Account): Result<u64>
    reads authority, provider, vault
  {
    var left :-
      if Uninitialized(provider) then
        if provider.lamports != 0 then Err(InvalidAccount)
        else
          var create :- CreateAccount(authority.lamports, provider.lamports, env.providerRent);
          Ok(create.0)
      else if provider.owner != env.programId || !provider.data.ProviderData? then Err(InvalidAccount)
      else Ok(authority.lamports);
    if Uninitialized(vault) && vault.lamports == 0 then
      var create :- CreateAccount(left, vault.lamports, env.vaultRent);
      Ok(create.0)
    else if !Uninitialized(vault) then Err(InvalidAccount)
    else Ok(left)
  }

  /**
   * The answer of `process_register_provider`, decided on the accounts
   * before it runs, with the source's checks in its order: the chain length
   * (InvalidArgument), the metadata and URI lengths (InvalidInstructionData),
   * the signature (MissingRequiredSignature), the writable flags and the
   * system program (InvalidAccount), the three PDAs (InvalidPda), the config
   * record (InvalidAccount), the creation steps, the authority of a stored
   * record (InvalidAccount) and the end of the new window (InvalidArgument).
   */
  function RegisterOutcome(env: Env, args: Instruction.RegisterProviderArgs, authority: Account, provider: Account,
                           vault: Account, config: Account, systemProgram: Account): Result<()>
    reads authority, provider, vault, config
  {
    if args.chainLength == 0 then Err(InvalidArgument)
    else if args.commitmentMetadataLen as nat > COMMITMENT_METADATA_LEN || args.uriLen as nat > URI_LEN then
      Err(InvalidInstructionData)
    else if !authority.isSigner then Err(MissingRequiredSignature)
    else if !authority.isWritable || !provider.isWritable || !vault.isWritable || !config.isWritable then
      Err(InvalidAccount)
    else if systemProgram.key != SYSTEM_PROGRAM_ID then Err(InvalidAccount)
    else if provider.key != ProviderPda(env, authority.key).address
              || vault.key != ProviderVaultPda(env, authority.key).address
              || config.key != ConfigPda(env).address then
      Err(InvalidPda)
    else
      var _ :- LoadConfig(config, env.programId);
      var _ :- CreateSteps(env, authority, provider, vault);
      if !Uninitialized(provider) && provider.data.provider.providerAuthority != authority.key then Err(InvalidAccount)
      else
        var _ :- Rotate(Previous(provider.data), authority.key, args, ProviderPda(env, authority.key).bump);
        Ok(())
  }

  /**
   * `process_register_provider`: a system-owned, empty provider account
   * without lamports is created with the rent minimum, paid by the
   * authority; otherwise it must hold a provider record. The vault is
   * created when system-owned, empty and without lamports, and must at
   * least be system-owned and empty. An existing record must belong to the
   * signing authority. The record written is the rotation of the stored
   * record (or of a zeroed one) to the new commitment. It succeeds exactly
   * when the arguments are valid, the account checks pass, both accounts
   * are as described, the window end does not overflow and the authority
   * can pay for what is created.
   */
  method ProcessRegisterProvider(env: Env, args: Instruction.RegisterProviderArgs,
                                 authority: Account, provider: Account, vault: Account,
                                 config: Account, systemProgram: Account)
    returns (r: Result<()>)
    requires authority != provider && authority != vault && provider != vault
    modifies authority, provider, vault
    ensures r.Err? ==> unchanged(authority, provider, vault)
    ensures r == old(RegisterOutcome(env, args, authority, provider, vault, config, systemProgram))
    ensures unchanged(authority`owner, authority`data)
    ensures args.chainLength == 0 ==> r == Err(InvalidArgument)
    ensures args.chainLength > 0 && !ValidRegistrationArgs(args) ==> r == Err(InvalidInstructionData)
    ensures ValidRegistrationArgs(args) && !authority.isSigner ==> r == Err(MissingRequiredSignature)
    ensures r.Ok? <==> ValidRegistrationArgs(args)
                       && old(RegisterAccountsOk(env, authority, provider, vault, config, systemProgram))
                       && old(RegisterProviderReady(env, authority.key, provider)) && old(Uninitialized(vault))
                       && Rotate(old(Previous(provider.data)), authority.key, args,
                                 ProviderPda(env, authority.key).bump).Ok?
                       && old(RegisterCost(env, provider, vault)) <= old(authority.lamports)
    ensures r.Ok? && old(provider.data).ProviderData? ==>
              old(provider.owner) == env.programId
              && old(provider.data).provider.providerAuthority == authority.key
              && provider.lamports == old(provider.lamports)
    ensures r.Ok? && !old(provider.data).ProviderData? ==>
              old(Uninitialized(provider)) && old(provider.lamports) == 0
              && provider.lamports == env.providerRent
    ensures r.Ok? ==> args.chainLength > 0
                      && provider.owner == env.programId
                      && var q := Rotate(old(Previous(provider.data)), authority.key, args,
                                         ProviderPda(env, authority.key).bump);
                         q.Ok? && provider.data == ProviderData(q.value)
    ensures r.Ok? ==> old(Uninitialized(vault)) && vault.owner == old(vault.owner) && vault.data == Empty
    ensures r.Ok? ==> vault.lamports == (if old(vault.lamports) == 0 then env.vaultRent else old(vault.lamports))
    ensures r.Ok? ==> authority.lamports + provider.lamports + vault.lamports
                      == old(authority.lamports + provider.lamports + vault.lamports)
  {
    if args.chainLength == 0 {
      return Err(InvalidArgument);
    }
    if args.commitmentMetadataLen as nat > COMMITMENT_METADATA_LEN || args.uriLen as nat > URI_LEN {
      return Err(InvalidInstructionData);
    }
    if !authority.isSigner {
      return Err(MissingRequiredSignature);
    }
    if !authority.isWritable || !provider.isWritable || !vault.isWritable || !config.isWritable {
      return Err(InvalidAccount);
    }
    if systemProgram.key != SYSTEM_PROGRAM_ID {
      return Err(InvalidAccount);
    }
    var providerPda := ProviderPda(env, authority.key);
    if provider.key != providerPda.address {
      return Err(InvalidPda);
    }
    if vault.key != ProviderVaultPda(env, authority.key).address {
      return Err(InvalidPda);
    }
    if config.key != ConfigPda(env).address {
      return Err(InvalidPda);
    }
    var _ :- LoadConfig(config, env.programId);

    var authorityLamports, providerLamports, vaultLamports := authority.lamports, provider.lamports, vault.lamports;
    var created := false;
    if provider.owner == SYSTEM_PROGRAM_ID && provider.data == Empty {
      if providerLamports != 0 {
        return Err(InvalidAccount);
      }
      var create :- CreateAccount(authorityLamports, providerLamports, env.providerRent);
      authorityLamports, providerLamports := create.0, create.1;
      created := true;
    } else if provider.owner != env.programId || !provider.data.ProviderData? {
      return Err(InvalidAccount);
    }

    if vault.owner == SYSTEM_PROGRAM_ID && vault.data == Empty && vaultLamports == 0 {
      var create :- CreateAccount(authorityLamports, vaultLamports, env.vaultRent);
      authorityLamports, vaultLamports := create.0, create.1;
    } else if vault.owner != SYSTEM_PROGRAM_ID || vault.data != Empty {
      return Err(InvalidAccount);
    }

    var previous := ZERO_PROVIDER;
    if !created {
      previous := provider.data.provider;
      if previous.providerAuthority != authority.key {
        return Err(InvalidAccount);
      }
    }
    var record :- Rotate(previous, authority.key, args, providerPda.bump);

    authority.lamports := authorityLamports;
    provider.lamports := providerLamports;
    vault.lamports := vaultLamports;
    provider.owner := env.programId;
    provider.data := ProviderData(record);
    return Ok(());
  }
}
