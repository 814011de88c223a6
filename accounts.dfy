/**
 * The on-chain records of the Entropy program (`Config`, `Provider`,
 * `Request` with its `CallbackMeta` slots), its constants, the accounts that
 * hold the records, and the runtime facts a handler consults (program id,
 * program-derived addresses, hashing, rent, clock, slot hashes).
 */
module Accounts {
  import opened Common
  import opened Hashing

  // ---------------------------------------------------------------------
  // Constants
  // ---------------------------------------------------------------------

  const COMMITMENT_METADATA_LEN: nat := 64
  const URI_LEN: nat := 256
  const MAX_CALLBACK_ACCOUNTS: nat := 16
  const CALLBACK_IX_DATA_LEN: nat := 256

  /** Callback status values stored in `Request.callbackStatus`. */
  const CALLBACK_NOT_NECESSARY: byte := 0
  const CALLBACK_NOT_STARTED: byte := 1
  const CALLBACK_IN_PROGRESS: byte := 2
  /** Imported by the reveal handler but never defined; any value distinct from the other three. */
  const CALLBACK_FAILED: byte := 3

  const CONFIG_SEED: seq<byte> := Ascii("config")
  const PROVIDER_SEED: seq<byte> := Ascii("provider")
  const PROVIDER_VAULT_SEED: seq<byte> := Ascii("provider_vault")
  const PYTH_FEE_VAULT_SEED: seq<byte> := Ascii("pyth_fee_vault")
  const ENTROPY_SIGNER_SEED: seq<byte> := Ascii("entropy_signer")
  const REQUESTER_SIGNER_SEED: seq<byte> := Ascii("requester_signer")

  /** The system program's id is the all-zero key. */
  const SYSTEM_PROGRAM_ID: Pubkey := ZERO32

  // ---------------------------------------------------------------------
  // Records
  // ---------------------------------------------------------------------

  type Bytes64 = s: seq<byte> | |s| == 64 witness Zeros(64)
  type Bytes256 = s: seq<byte> | |s| == 256 witness Zeros(256)

  datatype Config = Config(
    admin: Pubkey,
    pythFeeLamports: u64,
    accruedPythFeesLamports: u64,
    defaultProvider: Pubkey,
    proposedAdmin: Pubkey,
    seed: Bytes32,
    bump: byte)

  datatype Provider = Provider(
    providerAuthority: Pubkey,
    feeLamports: u64,
    accruedFeesLamports: u64,
    originalCommitment: Bytes32,
    originalCommitmentSequenceNumber: u64,
    commitmentMetadataLen: u16,
    commitmentMetadata: Bytes64,
    uriLen: u16,
    uri: Bytes256,
    endSequenceNumber: u64,
    sequenceNumber: u64,
    currentCommitment: Bytes32,
    currentCommitmentSequenceNumber: u64,
    feeManager: Pubkey,
    maxNumHashes: u32,
    defaultComputeUnitLimit: u32,
    bump: byte)

  datatype CallbackMeta = CallbackMeta(pubkey: Pubkey, isSigner: byte, isWritable: byte)

  const ZERO_META: CallbackMeta := CallbackMeta(ZERO32, 0, 0)

  type MetaSlots = s: seq<CallbackMeta> | |s| == 16 witness seq(16, _ => ZERO_META)

  datatype Request = Request(
    provider: Pubkey,
    sequenceNumber: u64,
    numHashes: u32,
    commitment: Bytes32,
    requestSlot: u64,
    requesterProgramId: Pubkey,
    requesterSigner: Pubkey,
    payer: Pubkey,
    useBlockhash: byte,
    callbackStatus: byte,
    computeUnitLimit: u32,
    callbackProgramId: Pubkey,
    callbackAccountsLen: byte,
    callbackAccounts: MetaSlots,
    callbackIxDataLen: u16,
    callbackIxData: Bytes256,
    bump: byte)

  /** What a freshly allocated Provider account reads as: every byte zero. */
  const ZERO_PROVIDER: Provider := Provider(
    ZERO32, 0, 0, ZERO32, 0, 0, Zeros(64), 0, Zeros(256),
    0, 0, ZERO32, 0, ZERO32, 0, 0, 0)

  /** What a freshly allocated Request account reads as: every byte zero. */
  const ZERO_REQUEST: Request := Request(
    ZERO32, 0, 0, ZERO32, 0, ZERO32, ZERO32, ZERO32, 0, 0, 0, ZERO32,
    0, seq(16, _ => ZERO_META), 0, Zeros(256), 0)

  /** The sample requester's record of the last callback it received. */
  datatype CallbackState = CallbackState(
    sequenceNumber: u64,
    provider: Pubkey,
    randomNumber: Bytes32,
    called: byte)

  // ---------------------------------------------------------------------
  // Accounts
  // ---------------------------------------------------------------------

  /**
   * The data an account holds. A record variant stands for data of the
   * record's length that starts with the record's discriminator; `Empty` is
   * `data_len() == 0`; `Zeroed` is data filled with zero bytes.
   */
  datatype AccountData =
    | Empty
    | Zeroed
    | ConfigData(config: Config)
    | ProviderData(provider: Provider)
    | RequestData(request: Request)
    | CallbackStateData(state: CallbackState)

  /** An account as an instruction sees it (`AccountInfo`). */
  class Account {
    const key: Pubkey
    const isSigner: bool
    const isWritable: bool
    var owner: Pubkey
    var lamports: u64
    var data: AccountData

    constructor (key: Pubkey, isSigner: bool, isWritable: bool, owner: Pubkey, lamports: u64, data: AccountData)
      ensures this.key == key && this.isSigner == isSigner && this.isWritable == isWritable
      ensures this.owner == owner && this.lamports == lamports && this.data == data
    {
      this.key := key;
      this.isSigner := isSigner;
      this.isWritable := isWritable;
      this.owner := owner;
      this.lamports := lamports;
      this.data := data;
    }
  }

  /** A system-owned account with no data: one that may still be created. */
  predicate Uninitialized(a: Account)
    reads a
  {
    a.owner == SYSTEM_PROGRAM_ID && a.data == Empty
  }

  /** `AccountMeta`: an account reference inside an instruction. */
  datatype AccountMeta = AccountMeta(pubkey: Pubkey, isWritable: bool, isSigner: bool)

  /** An instruction for a cross-program invocation. */
  datatype Instruction = Instruction(programId: Pubkey, accounts: seq<AccountMeta>, data: seq<byte>)

  // ---------------------------------------------------------------------
  // Runtime facts
  // ---------------------------------------------------------------------

  /** `find_program_address(seeds, program)`: an address and its bump seed. */
  datatype Derived = Derived(address: Pubkey, bump: byte)

  datatype SlotHash = SlotHash(slot: u64, hash: Bytes32)

  /**
   * Everything a handler learns from outside its accounts. PDA derivation
   * and SHA-256 are oracles; the rent minimums are `Rent::minimum_balance`
   * of each record's length (and of 0 bytes for a vault).
   */
  datatype Env = Env(
    programId: Pubkey,
    derive: (seq<seq<byte>>, Pubkey) -> Derived,
    hash: Hasher,
    slot: u64,
    slotHashes: seq<SlotHash>,
    slotHashesId: Pubkey,
    configRent: u64,
    providerRent: u64,
    requestRent: u64,
    vaultRent: u64)

  function ConfigPda(env: Env): Derived
  {
    env.derive([CONFIG_SEED], env.programId)
  }

  function ProviderPda(env: Env, authority: Pubkey): Derived
  {
    env.derive([PROVIDER_SEED, authority], env.programId)
  }

  function ProviderVaultPda(env: Env, authority: Pubkey): Derived
  {
    env.derive([PROVIDER_VAULT_SEED, authority], env.programId)
  }

  function PythFeeVaultPda(env: Env): Derived
  {
    env.derive([PYTH_FEE_VAULT_SEED], env.programId)
  }

  function EntropySignerPda(env: Env): Derived
  {
    env.derive([ENTROPY_SIGNER_SEED], env.programId)
  }

  /** The requester's signer PDA is derived under the requester program. */
  function RequesterSignerPda(env: Env, requesterProgram: Pubkey): Derived
  {
    env.derive([REQUESTER_SIGNER_SEED, env.programId], requesterProgram)
  }

  // ---------------------------------------------------------------------
  // Record loading (owner, length and discriminator checks)
  // ---------------------------------------------------------------------

  function LoadConfig(a: Account, programId: Pubkey): (r: Result<Config>)
    reads a
    ensures r.Ok? <==> a.owner == programId && a.data.ConfigData?
    ensures r.Ok? ==> r.value == a.data.config
    ensures r.Err? ==> r.error == InvalidAccount
  {
    if a.owner != programId || !a.data.ConfigData? then Err(InvalidAccount) else Ok(a.data.config)
  }

  function LoadProvider(a: Account, programId: Pubkey): (r: Result<Provider>)
    reads a
    ensures r.Ok? <==> a.owner == programId && a.data.ProviderData?
    ensures r.Ok? ==> r.value == a.data.provider
    ensures r.Err? ==> r.error == InvalidAccount
  {
    if a.owner != programId || !a.data.ProviderData? then Err(InvalidAccount) else Ok(a.data.provider)
  }

  function LoadRequest(a: Account, programId: Pubkey): (r: Result<Request>)
    reads a
    ensures r.Ok? <==> a.owner == programId && a.data.RequestData?
    ensures r.Ok? ==> r.value == a.data.request
    ensures r.Err? ==> r.error == InvalidAccount
  {
    if a.owner != programId || !a.data.RequestData? then Err(InvalidAccount) else Ok(a.data.request)
  }

  // ---------------------------------------------------------------------
  // System-program effects on balances
  // ---------------------------------------------------------------------

  /**
   * The system program's transfer: it fails when the source cannot cover
   * the amount or the destination would overflow; otherwise it moves
   * `amount` lamports.
   */
  function Transfer(from: u64, to: u64, amount: u64): (r: Result<(u64, u64)>)
    ensures r.Ok? <==> amount <= from && to + amount <= U64_MAX
    ensures r.Ok? ==> r.value == (from - amount, to + amount)
    ensures r.Err? ==> r.error == CpiFailed
  {
    if amount <= from && to + amount <= U64_MAX then Ok((from - amount, to + amount)) else Err(CpiFailed)
  }

  /**
   * The system program's create_account, on balances: it fails when the new
   * account already holds lamports or the payer cannot fund it.
   */
  function CreateAccount(payer: u64, target: u64, amount: u64): (r: Result<(u64, u64)>)
    ensures r.Ok? <==> target == 0 && amount <= payer
    ensures r.Ok? ==> r.value == (payer - amount, amount)
    ensures r.Err? ==> r.error == CpiFailed
  {
    if target == 0 && amount <= payer then Ok((payer - amount, amount)) else Err(CpiFailed)
  }

  /**
   * Creating a program-derived account (`init_pda_mut`), on balances: an
   * account without lamports is created with the rent minimum; one that
   * already holds lamports is topped up to it when short, then allocated and
   * assigned. Either way it ends with the larger of its balance and the rent
   * minimum, and the payer pays the difference.
   */
  function InitPdaBalances(payer: u64, account: u64, required: u64): (r: Result<(u64, u64)>)
    ensures r.Ok? <==> Max(account, required) - account <= payer
    ensures r.Ok? ==> r.value.1 == Max(account, required) && r.value.0 + r.value.1 == payer + account
    ensures r.Err? ==> r.error == CpiFailed
  {
    if account == 0 then CreateAccount(payer, account, required)
    else if account < required then Transfer(payer, account, required - account)
    else Ok((payer, account))
  }

  /**
   * `init_vault_pda`, on balances: a system-owned vault without data is
   * topped up to the rent minimum for zero bytes when below it.
   */
  function InitVaultBalances(payer: u64, vault: u64, required: u64): (r: Result<(u64, u64)>)
    ensures r.Ok? <==> Max(vault, required) - vault <= payer
    ensures r.Ok? ==> r.value.1 == Max(vault, required) && r.value.0 + r.value.1 == payer + vault
    ensures r.Err? ==> r.error == CpiFailed
  {
    if vault < required then Transfer(payer, vault, required - vault) else Ok((payer, vault))
  }
}
