/**
 * What every request handler of the two-file drafts shares: the nine
 * accounts of a request and their checks, the staleness rule for
 * `num_hashes`, the fee payments and request-account funding, the fields
 * every issued request records, and the fixed-size callback slots.
 *
 * The request helpers compute a `Grant` (the new provider record, the new
 * request record and the new balances) without touching the accounts; the
 * handlers commit it once every check has passed, which is the
 * all-or-nothing effect the runtime gives an instruction.
 */
module RequestIssue {
  import opened Common
  import opened Hashing
  import opened Accounts
  import opened ProviderChain
  import Fees
  import Instruction

  /** The accounts of a request, in the order the handlers read them. */
  datatype RequestAccounts = RequestAccounts(
    requesterSigner: Account,
    payer: Account,
    requesterProgram: Account,
    request: Account,
    provider: Account,
    providerVault: Account,
    config: Account,
    pythVault: Account,
    systemProgram: Account)
  {
    /** The five accounts a request writes are different accounts. */
    predicate Distinct()
    {
      payer != request && payer != provider && payer != providerVault && payer != pythVault
      && request != provider && request != providerVault && request != pythVault
      && provider != providerVault && provider != pythVault
      && providerVault != pythVault
    }

    /** The accounts whose state the checks and the payments read. */
    function Objects(): set<Account>
    {
      {payer, request, provider, providerVault, config, pythVault}
    }
  }

  predicate SignersOk(a: RequestAccounts)
  {
    a.requesterSigner.isSigner && a.payer.isSigner && a.request.isSigner
  }

  predicate WritableOk(a: RequestAccounts)
  {
    a.payer.isWritable && a.request.isWritable && a.provider.isWritable
    && a.providerVault.isWritable && a.pythVault.isWritable
  }

  /**
   * The first checks of every request: the requester signer, the payer and
   * the request account sign; the accounts written are writable; the system
   * program is the real one.
   */
  function CheckSignersAndWritable(a: RequestAccounts): (r: Result<()>)
    ensures r.Ok? <==> SignersOk(a) && WritableOk(a) && a.systemProgram.key == SYSTEM_PROGRAM_ID
    ensures !SignersOk(a) ==> r == Err(MissingRequiredSignature)
    ensures SignersOk(a) && r.Err? ==> r.error == InvalidAccount
  {
    if !SignersOk(a) then Err(MissingRequiredSignature)
    else if !WritableOk(a) then Err(InvalidAccount)
    else if a.systemProgram.key != SYSTEM_PROGRAM_ID then Err(InvalidAccount)
    else Ok(())
  }

  /**
   * The address and state checks of a request: the requester signer is the
   * requester program's PDA for this program, the config and fee vault are
   * the program's PDAs, the fee vault and request account are not yet
   * created, config and provider hold their records, and the provider and its
   * vault are the PDAs of the stored provider authority, the vault being
   * uncreated.
   */
  predicate AccountsOk(env: Env, a: RequestAccounts)
    reads a.pythVault, a.request, a.config, a.provider, a.providerVault
  {
    a.requesterSigner.key == RequesterSignerPda(env, a.requesterProgram.key).address
    && a.config.key == ConfigPda(env).address
    && a.pythVault.key == PythFeeVaultPda(env).address && Uninitialized(a.pythVault)
    && Uninitialized(a.request)
    && LoadConfig(a.config, env.programId).Ok?
    && LoadProvider(a.provider, env.programId).Ok?
    && a.provider.key == ProviderPda(env, a.provider.data.provider.providerAuthority).address
    && a.providerVault.key == ProviderVaultPda(env, a.provider.data.provider.providerAuthority).address
    && Uninitialized(a.providerVault)
  }

  /** The checks of `AccountsOk` in the handlers' order, yielding the loaded records. */
  function CheckAccounts(env: Env, a: RequestAccounts): (r: Result<(Config, Provider)>)
    reads a.pythVault, a.request, a.config, a.provider, a.providerVault
    ensures r.Ok? <==> AccountsOk(env, a)
    ensures r.Ok? ==> r.value == (a.config.data.config, a.provider.data.provider)
    ensures r.Err? ==> r.error == InvalidPda || r.error == InvalidAccount
  {
    if a.requesterSigner.key != RequesterSignerPda(env, a.requesterProgram.key).address then Err(InvalidPda)
    else if a.config.key != ConfigPda(env).address then Err(InvalidPda)
    else if a.pythVault.key != PythFeeVaultPda(env).address then Err(InvalidPda)
    else if !Uninitialized(a.pythVault) then Err(InvalidAccount)
    else if !Uninitialized(a.request) then Err(InvalidAccount)
    else
      var config :- LoadConfig(a.config, env.programId);
      var provider :- LoadProvider(a.provider, env.programId);
      if a.provider.key != ProviderPda(env, provider.providerAuthority).address then Err(InvalidPda)
      else if a.providerVault.key != ProviderVaultPda(env, provider.providerAuthority).address then Err(InvalidPda)
      else if !Uninitialized(a.providerVault) then Err(InvalidAccount)
      else Ok((config, provider))
  }

  /**
   * Every account check of a request, in the handlers' order: signatures,
   * writability and the system program first, then addresses and states.
   */
  function CheckRequestAccounts(env: Env, a: RequestAccounts): (r: Result<(Config, Provider)>)
    reads a.pythVault, a.request, a.config, a.provider, a.providerVault
    ensures r.Ok? <==> CheckSignersAndWritable(a).Ok? && AccountsOk(env, a)
    ensures r.Ok? ==> r.value == (a.config.data.config, a.provider.data.provider)
    ensures CheckSignersAndWritable(a).Err? ==> r == Err(CheckSignersAndWritable(a).error)
    ensures r.Err? ==> r.error in {MissingRequiredSignature, InvalidAccount, InvalidPda}
  {
    var _ :- CheckSignersAndWritable(a);
    CheckAccounts(env, a)
  }

  // ---------------------------------------------------------------------
  // Staleness
  // ---------------------------------------------------------------------

  /**
   * `num_hashes` of a request for `sequenceNumber`: the distance from the
   * provider's chain head. A head ahead of the number is InvalidArgument, a
   * distance beyond u32 is InvalidArgument, and a distance beyond a non-zero
   * `max_num_hashes` is LastRevealedTooOld (checked in that order).
   */
  function NumHashes(p: Provider, sequenceNumber: u64): (r: Result<u32>)
    ensures r.Ok? <==> p.currentCommitmentSequenceNumber <= sequenceNumber
                       && sequenceNumber - p.currentCommitmentSequenceNumber <= U32_MAX
                       && (p.maxNumHashes == 0 || sequenceNumber - p.currentCommitmentSequenceNumber <= p.maxNumHashes)
    ensures r.Ok? ==> r.value == sequenceNumber - p.currentCommitmentSequenceNumber
    ensures sequenceNumber < p.currentCommitmentSequenceNumber ==> r == Err(InvalidArgument)
    ensures r.Err? ==> r.error == InvalidArgument || r.error == LastRevealedTooOld
  {
    if sequenceNumber < p.currentCommitmentSequenceNumber then Err(InvalidArgument)
    else
      var distance := sequenceNumber - p.currentCommitmentSequenceNumber;
      if distance > U32_MAX then Err(InvalidArgument)
      else if p.maxNumHashes != 0 && distance > p.maxNumHashes then Err(LastRevealedTooOld)
      else Ok(distance)
  }

  // ---------------------------------------------------------------------
  // Payments
  // ---------------------------------------------------------------------

  /** The balances a request moves lamports between. */
  datatype Balances = Balances(payer: u64, providerVault: u64, pythVault: u64, request: u64)

  function BalancesOf(a: RequestAccounts): Balances
    reads a.payer, a.providerVault, a.pythVault, a.request
  {
    Balances(a.payer.lamports, a.providerVault.lamports, a.pythVault.lamports, a.request.lamports)
  }

  function Total(b: Balances): nat
  {
    b.payer + b.providerVault + b.pythVault + b.request
  }

  /**
   * The payments of the two-file helpers: the provider fee and the protocol
   * fee are transferred from the payer, each only when positive, and the
   * request account is then created with the rent minimum or topped up to
   * it. Any failed transfer fails the request.
   */
  function PayRequest(b: Balances, fee: u64, pythFee: u64, rent: u64): (r: Result<Balances>)
    ensures r.Ok? <==> fee + pythFee + (Max(b.request, rent) - b.request) <= b.payer
                       && b.providerVault + fee <= U64_MAX && b.pythVault + pythFee <= U64_MAX
    ensures r.Ok? ==> r.value == Balances(b.payer - fee - pythFee - (Max(b.request, rent) - b.request),
                                          b.providerVault + fee, b.pythVault + pythFee, Max(b.request, rent))
    ensures r.Ok? ==> Total(r.value) == Total(b)
    ensures r.Err? ==> r.error == CpiFailed
  {
    var feePaid :- if fee > 0 then Transfer(b.payer, b.providerVault, fee) else Ok((b.payer, b.providerVault));
    var pythPaid :- if pythFee > 0 then Transfer(feePaid.0, b.pythVault, pythFee) else Ok((feePaid.0, b.pythVault));
    var funded :- InitPdaBalances(pythPaid.0, b.request, rent);
    Ok(Balances(funded.0, feePaid.1, pythPaid.1, funded.1))
  }

  // ---------------------------------------------------------------------
  // The request record
  // ---------------------------------------------------------------------

  /**
   * The fields every issued request records: the provider authority, the
   * number, `num_hashes` from the chain head, the commitment
   * `hashv(user_commitment, provider.current_commitment)`, the slot, the
   * requester program, the payer and the blockhash flag.
   */
  predicate IssuedRecord(rec: Request, env: Env, p: Provider, sequenceNumber: u64, userCommitment: Bytes32,
                         requesterProgram: Pubkey, payer: Pubkey, useBlockhash: byte)
  {
    rec.provider == p.providerAuthority
    && rec.sequenceNumber == sequenceNumber
    && NumHashes(p, sequenceNumber) == Ok(rec.numHashes)
    && rec.commitment == Hashv(env.hash, [userCommitment, p.currentCommitment])
    && rec.requestSlot == env.slot
    && rec.requesterProgramId == requesterProgram
    && rec.payer == payer
    && rec.useBlockhash == useBlockhash
  }

  /** The callback slots holding `ms` in order, then empty slots. */
  function PaddedMetas(ms: seq<CallbackMeta>): (r: MetaSlots)
    requires |ms| <= MAX_CALLBACK_ACCOUNTS
    ensures r[..|ms|] == ms
    ensures forall i :: |ms| <= i < MAX_CALLBACK_ACCOUNTS ==> r[i] == ZERO_META
  {
    ms + seq(MAX_CALLBACK_ACCOUNTS - |ms|, _ => ZERO_META)
  }

  /** The callback data buffer holding `d`, then zero bytes. */
  function PaddedData(d: seq<byte>): (r: Bytes256)
    requires |d| <= CALLBACK_IX_DATA_LEN
    ensures r[..|d|] == d
    ensures forall i :: |d| <= i < CALLBACK_IX_DATA_LEN ==> r[i] == 0
  {
    d + Zeros(CALLBACK_IX_DATA_LEN - |d|)
  }

  /**
   * The callback part of a record: status, compute-unit limit, callback
   * program, and the accounts and data with their lengths, padded.
   */
  predicate CallbackRecord(rec: Request, status: byte, limit: u32, program: Pubkey,
                           ms: seq<CallbackMeta>, d: seq<byte>)
  {
    |ms| <= MAX_CALLBACK_ACCOUNTS && |d| <= CALLBACK_IX_DATA_LEN
    && rec.callbackStatus == status
    && rec.computeUnitLimit == limit
    && rec.callbackProgramId == program
    && rec.callbackAccountsLen == |ms|
    && rec.callbackAccounts == PaddedMetas(ms)
    && rec.callbackIxDataLen == |d|
    && rec.callbackIxData == PaddedData(d)
  }

  /**
   * A record is determined by the issued fields, the callback part, the
   * requester signer and the bump: two records agreeing on all of them are
   * the same record.
   */
  lemma RecordDetermined(r1: Request, r2: Request, env: Env, p: Provider, sequenceNumber: u64,
                         userCommitment: Bytes32, requesterProgram: Pubkey, payer: Pubkey, useBlockhash: byte,
                         status: byte, limit: u32, program: Pubkey, ms: seq<CallbackMeta>, d: seq<byte>)
    requires IssuedRecord(r1, env, p, sequenceNumber, userCommitment, requesterProgram, payer, useBlockhash)
    requires IssuedRecord(r2, env, p, sequenceNumber, userCommitment, requesterProgram, payer, useBlockhash)
    requires CallbackRecord(r1, status, limit, program, ms, d) && CallbackRecord(r2, status, limit, program, ms, d)
    requires r1.requesterSigner == r2.requesterSigner && r1.bump == r2.bump
    ensures r1 == r2
  {
  }

  /**
   * The capture loop of the helpers: a 16-slot buffer of empty slots whose
   * first entries are overwritten, in order, by the supplied accounts.
   */
  method CaptureMetas(ms: seq<CallbackMeta>) returns (slots: MetaSlots)
    requires |ms| <= MAX_CALLBACK_ACCOUNTS
    ensures slots == PaddedMetas(ms)
  {
    var buffer := new CallbackMeta[MAX_CALLBACK_ACCOUNTS](_ => ZERO_META);
    for i := 0 to |ms|
      invariant forall j :: 0 <= j < i ==> buffer[j] == ms[j]
      invariant forall j :: i <= j < MAX_CALLBACK_ACCOUNTS ==> buffer[j] == ZERO_META
    {
      buffer[i] := ms[i];
    }
    var padded := PaddedMetas(ms);
    assert forall j :: 0 <= j < MAX_CALLBACK_ACCOUNTS ==> buffer[j] == padded[j] by {
      forall j | 0 <= j < MAX_CALLBACK_ACCOUNTS ensures buffer[j] == padded[j] {
        if j < |ms| {
          assert padded[j] == padded[..|ms|][j];
        }
      }
    }
    slots := buffer[..];
  }

  /** The data capture: a zeroed 256-byte buffer whose prefix is the supplied data. */
  method CaptureData(d: seq<byte>) returns (data: Bytes256)
    requires |d| <= CALLBACK_IX_DATA_LEN
    ensures data == PaddedData(d)
  {
    var buffer := new byte[CALLBACK_IX_DATA_LEN](_ => 0);
    if |d| > 0 {
      forall i | 0 <= i < |d| {
        buffer[i] := d[i];
      }
    }
    var padded := PaddedData(d);
    assert forall j :: 0 <= j < CALLBACK_IX_DATA_LEN ==> buffer[j] == padded[j] by {
      forall j | 0 <= j < CALLBACK_IX_DATA_LEN ensures buffer[j] == padded[j] {
        if j < |d| {
          assert padded[j] == padded[..|d|][j];
        }
      }
    }
    data := buffer[..];
  }

  /** The stored prefix of the callback slots gives back exactly the captured accounts and data. */
  lemma CaptureRoundTrip(rec: Request, status: byte, limit: u32, program: Pubkey, ms: seq<CallbackMeta>, d: seq<byte>)
    requires CallbackRecord(rec, status, limit, program, ms, d)
    ensures rec.callbackAccounts[..rec.callbackAccountsLen] == ms
    ensures rec.callbackIxData[..rec.callbackIxDataLen] == d
  {
  }

  // ---------------------------------------------------------------------
  // Grants
  // ---------------------------------------------------------------------

  /**
   * The issuing steps of both two-file helpers once the accounts have been
   * checked, in their order: allocate the next number, price the fee for
   * `feeLimit` compute units, pay the fees and the request account's rent,
   * and measure the distance to the chain head. The result is the number,
   * the new provider record, the new balances and `num_hashes`.
   */
  function Issue(env: Env, config: Config, p: Provider, b: Balances, feeLimit: u32)
    : (r: Result<(u64, Provider, Balances, u32)>)
  {
    var (n, q) :- Allocate(p);
    var fee :- Fees.CalculateProviderFee(p.feeLamports, p.defaultComputeUnitLimit, feeLimit);
    var paid :- PayRequest(b, fee, config.pythFeeLamports, env.requestRent);
    var numHashes :- NumHashes(p, n);
    Ok((n, q, paid, numHashes))
  }

  /**
   * An issued request takes the provider's next number and moves that
   * number on by one, keeps the provider's window, creates no lamports, and
   * records the distance from the chain head. It fails exactly when the
   * window is used up, the fee cannot be priced, a payment fails or the head
   * is too far behind (beyond u32 or beyond a non-zero `max_num_hashes`),
   * with that step's error.
   */
  lemma IssueSpec(env: Env, config: Config, p: Provider, b: Balances, feeLimit: u32)
    requires WindowOk(p)
    ensures var r := Issue(env, config, p, b, feeLimit);
      r.Ok? ==> r.value.0 == p.sequenceNumber && r.value.1 == p.(sequenceNumber := p.sequenceNumber + 1)
                && WindowOk(r.value.1) && Total(r.value.2) == Total(b)
                && r.value.3 == p.sequenceNumber - p.currentCommitmentSequenceNumber
    ensures var r := Issue(env, config, p, b, feeLimit);
      r.Err? ==> r.error in {OutOfRandomness, InvalidArgument, CpiFailed, LastRevealedTooOld}
    ensures var fee := Fees.CalculateProviderFee(p.feeLamports, p.defaultComputeUnitLimit, feeLimit);
      Issue(env, config, p, b, feeLimit).Ok?
      <==> Allocate(p).Ok? && fee.Ok? && PayRequest(b, fee.value, config.pythFeeLamports, env.requestRent).Ok?
           && p.sequenceNumber - p.currentCommitmentSequenceNumber <= U32_MAX
           && (p.maxNumHashes == 0 || p.sequenceNumber - p.currentCommitmentSequenceNumber <= p.maxNumHashes)
  {
    var r := Issue(env, config, p, b, feeLimit);
    if Allocate(p).Ok? {
      AllocateKeepsWindow(p);
      var n := p.sequenceNumber;
      var fee := Fees.CalculateProviderFee(p.feeLamports, p.defaultComputeUnitLimit, feeLimit);
      if fee.Ok? {
        var paid := PayRequest(b, fee.value, config.pythFeeLamports, env.requestRent);
        if paid.Ok? {
          assert r == (match NumHashes(p, n) case Ok(k) => Ok((n, Allocate(p).value.1, paid.value, k))
                                             case Err(e) => Err(e));
        } else {
          assert r == Err(CpiFailed);
        }
      } else {
        assert r == Err(InvalidArgument);
      }
    } else {
      assert r == Err(OutOfRandomness);
    }
  }

  /**
   * The answer of a two-file request once its own argument checks have
   * passed: the account checks' error if they failed, otherwise the error
   * of the first issuing step that fails for `feeLimit` compute units, and
   * success when none does.
   */
  function Issuing(env: Env, checked: Result<(Config, Provider)>, b: Balances, feeLimit: u32): (r: Result<()>)
    ensures checked.Err? ==> r == Err(checked.error)
    ensures checked.Ok? ==> r.Ok? == Issue(env, checked.value.0, checked.value.1, b, feeLimit).Ok?
  {
    match checked
    case Err(e) => Err(e)
    case Ok((config, p)) =>
      match Issue(env, config, p, b, feeLimit)
      case Err(e) => Err(e)
      case Ok(_) => Ok(())
  }

  /**
   * The answer of `process_request` in both two-file drafts, decided on the
   * accounts before it runs: the payload, `at` bytes into the instruction
   * data, must parse and carry a blockhash flag of 0 or 1 (else
   * InvalidInstructionData); then come the account checks and the issuing
   * steps, in the order of `Issuing`.
   */
  function RequestOutcome(env: Env, a: RequestAccounts, at: nat, data: seq<byte>): Result<()>
    reads a.Objects()
  {
    match Instruction.ParseRequestArgs(at, data)
    case Err(e) => Err(e)
    case Ok(args) =>
      if args.useBlockhash > 1 then Err(InvalidInstructionData)
      else Issuing(env, CheckRequestAccounts(env, a), BalancesOf(a), args.computeUnitLimit)
  }

  /** What a granted request writes: the number, both records and the balances. */
  datatype Grant = Grant(sequenceNumber: u64, provider: Provider, request: Request, balances: Balances)

  /**
   * The part of a grant every two-file helper agrees on: the issuing steps
   * succeed with the grant's number, provider and balances, and the record
   * carries the issued fields.
   */
  predicate Granted(env: Env, config: Config, p: Provider, b: Balances, requesterProgram: Pubkey, payer: Pubkey,
                    userCommitment: Bytes32, useBlockhash: byte, feeLimit: u32, g: Grant)
  {
    Issue(env, config, p, b, feeLimit) == Ok((g.sequenceNumber, g.provider, g.balances, g.request.numHashes))
    && IssuedRecord(g.request, env, p, g.sequenceNumber, userCommitment, requesterProgram, payer, useBlockhash)
  }

  /** Writing a grant into the accounts. */
  method Commit(env: Env, a: RequestAccounts, g: Grant)
    requires a.Distinct()
    modifies a.payer, a.request, a.provider, a.providerVault, a.pythVault
    ensures BalancesOf(a) == g.balances
    ensures a.provider.data == ProviderData(g.provider) && a.provider.owner == old(a.provider.owner)
    ensures a.provider.lamports == old(a.provider.lamports)
    ensures a.request.owner == env.programId && a.request.data == RequestData(g.request)
    ensures unchanged(a.payer`owner, a.payer`data, a.providerVault`owner, a.providerVault`data)
    ensures unchanged(a.pythVault`owner, a.pythVault`data)
  {
    a.payer.lamports := g.balances.payer;
    a.providerVault.lamports := g.balances.providerVault;
    a.pythVault.lamports := g.balances.pythVault;
    a.request.lamports := g.balances.request;
    a.request.owner := env.programId;
    a.request.data := RequestData(g.request);
    a.provider.data := ProviderData(g.provider);
  }
}
