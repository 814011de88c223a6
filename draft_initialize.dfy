/**
 * `processor/initialize.rs` of both two-file drafts. The `programs/entropy`
 * handler and the pinocchio one make the same checks in the same order and
 * differ only in the account API they call, so one model stands for both.
 * The config account is created (or, when it already holds lamports,
 * topped up, allocated and assigned) by `init_pda_mut`, and the fee vault
 * is brought to its rent minimum by `init_vault_pda`.
 */
module DraftInitialize {
  import opened Common
  import opened Accounts
  import opened Registration
  import Instruction

  /** The account checks (lines 39-63 of the `programs/entropy` handler, 35-59 of the pinocchio one). */
  predicate AccountsOk(env: Env, payer: Account, config: Account, vault: Account, systemProgram: Account)
    reads config
  {
    payer.isSigner
    && payer.isWritable && config.isWritable && vault.isWritable
    && systemProgram.key == SYSTEM_PROGRAM_ID
    && config.key == ConfigPda(env).address
    && vault.key == PythFeeVaultPda(env).address
    && Uninitialized(config)
  }

  /** What initialisation costs the payer: the rent top-ups of the config account and of the vault. */
  function InitCost(env: Env, config: Account, vault: Account): int
    reads config, vault
  {
    (Max(config.lamports, env.configRent) - config.lamports) + (Max(vault.lamports, env.vaultRent) - vault.lamports)
  }

  /**
   * `process_initialize`: the config account ends with the larger of its
   * balance and its rent minimum, owned by the program and holding the new
   * config record; the vault, which must be system-owned and empty, ends
   * with the larger of its balance and the rent minimum; the payer pays
   * both differences. It succeeds exactly when the arguments name an admin
   * and a default provider, the account checks pass, the vault is
   * uncreated and the payer can pay.
   */
  method ProcessInitialize(env: Env, args: Instruction.InitializeArgs,
                           payer: Account, config: Account, vault: Account, systemProgram: Account)
    returns (r: Result<()>)
    requires payer != config && payer != vault && config != vault
    modifies payer, config, vault
    ensures r.Err? ==> unchanged(payer, config, vault)
    ensures unchanged(payer`owner, payer`data)
    ensures args.admin == ZERO32 || args.defaultProvider == ZERO32 ==> r == Err(InvalidArgument)
    ensures args.admin != ZERO32 && args.defaultProvider != ZERO32 && !payer.isSigner
            ==> r == Err(MissingRequiredSignature)
    ensures r.Ok? <==> args.admin != ZERO32 && args.defaultProvider != ZERO32
                       && old(AccountsOk(env, payer, config, vault, systemProgram)) && old(Uninitialized(vault))
                       && old(InitCost(env, config, vault)) <= old(payer.lamports)
    ensures r.Ok? ==> config.owner == env.programId
                      && config.data == ConfigData(NewConfig(args, ConfigPda(env).bump))
                      && config.lamports == Max(old(config.lamports), env.configRent)
    ensures r.Ok? ==> vault.lamports == Max(old(vault.lamports), env.vaultRent)
                      && vault.owner == old(vault.owner) && vault.data == old(vault.data)
    ensures r.Ok? ==> payer.lamports + config.lamports + vault.lamports
                      == old(payer.lamports + config.lamports + vault.lamports)
  {
    if args.admin == ZERO32 || args.defaultProvider == ZERO32 {
      return Err(InvalidArgument);
    }
    if !payer.isSigner {
      return Err(MissingRequiredSignature);
    }
    if !payer.isWritable || !config.isWritable || !vault.isWritable {
      return Err(InvalidAccount);
    }
    if systemProgram.key != SYSTEM_PROGRAM_ID {
      return Err(InvalidAccount);
    }
    var configPda := ConfigPda(env);
    if config.key != configPda.address {
      return Err(InvalidPda);
    }
    if vault.key != PythFeeVaultPda(env).address {
      return Err(InvalidPda);
    }
    if config.owner != SYSTEM_PROGRAM_ID || config.data != Empty {
      return Err(InvalidAccount);
    }
    // init_pda_mut: its own owner and emptiness check repeats the one above.
    var init :- InitPdaBalances(payer.lamports, config.lamports, env.configRent);
    // init_vault_pda
    if vault.owner != SYSTEM_PROGRAM_ID || vault.data != Empty {
      return Err(InvalidAccount);
    }
    var topUp :- InitVaultBalances(init.0, vault.lamports, env.vaultRent);
    payer.lamports := topUp.0;
    config.lamports := init.1;
    vault.lamports := topUp.1;
    config.owner := env.programId;
    config.data := ConfigData(NewConfig(args, configPda.bump));
    return Ok(());
  }
}
