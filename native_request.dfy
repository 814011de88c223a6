/**
 * The request side of the `programs/entropy` draft: the shared
 * `request_helper`, which checks the accounts, issues the number, takes the
 * payments and fills the request record (callback slots included), and the
 * plain `process_request` handler built on it.
 */
module NativeRequest {
  import opened Common
  import opened Hashing
  import opened Accounts
  import opened ProviderChain
  import opened RequestIssue
  import Fees
  import Instruction

  /** `RequestCallbackConfig`: what the caller of the helper wants recorded about the callback. */
  datatype CallbackConfig = CallbackConfig(
    programId: Pubkey,
    accounts: seq<CallbackMeta>,
    ixData: seq<byte>,
    status: byte,
    computeUnitLimit: u32)

  /** The configuration of a request without a callback. */
  const NO_CALLBACK: CallbackConfig := CallbackConfig(ZERO32, [], [], CALLBACK_NOT_NECESSARY, 0)

  /** The callback accounts and data fit the record's fixed slots. */
  predicate Bounded(cb: CallbackConfig)
  {
    |cb.accounts| <= MAX_CALLBACK_ACCOUNTS && |cb.ixData| <= CALLBACK_IX_DATA_LEN
  }

  /**
   * The compute-unit limit the helper records: the provider's default when
   * no callback is needed, the configured limit otherwise.
   */
  function RecordedLimit(p: Provider, cb: CallbackConfig): u32
  {
    if cb.status == CALLBACK_NOT_NECESSARY then p.defaultComputeUnitLimit else cb.computeUnitLimit
  }

  /**
   * The fields of the helper's record beyond the issued ones: the callback
   * part as configured, the requester signer's key, and a zero bump.
   */
  predicate HelperRecord(rec: Request, a: RequestAccounts, p: Provider, cb: CallbackConfig)
  {
    CallbackRecord(rec, cb.status, RecordedLimit(p, cb), cb.programId, cb.accounts, cb.ixData)
    && rec.requesterSigner == a.requesterSigner.key
    && rec.bump == 0
  }

  /**
   * `request_helper`, computing the grant it writes. Oversized callback
   * lists are InvalidInstructionData; then the account checks fail with
   * their own error; then the issuing steps fail with theirs. When all
   * pass, the grant is the issued one and its record carries the callback
   * configuration.
   */
  method RequestHelper(env: Env, a: RequestAccounts, args: Instruction.RequestArgs, cb: CallbackConfig)
    returns (r: Result<Grant>)
    ensures !Bounded(cb) ==> r == Err(InvalidInstructionData)
    ensures Bounded(cb) && CheckRequestAccounts(env, a).Err? ==> r == Err(CheckRequestAccounts(env, a).error)
    ensures Bounded(cb) && CheckRequestAccounts(env, a).Ok? ==>
      var config := CheckRequestAccounts(env, a).value.0;
      var p := CheckRequestAccounts(env, a).value.1;
      var issued := Issue(env, config, p, BalancesOf(a), args.computeUnitLimit);
      (issued.Err? ==> r == Err(issued.error))
      && (issued.Ok? ==>
            r.Ok?
            && Granted(env, config, p, BalancesOf(a), a.requesterProgram.key, a.payer.key,
                       args.userCommitment, args.useBlockhash, args.computeUnitLimit, r.value)
            && HelperRecord(r.value.request, a, p, cb))
  {
    if |cb.accounts| > MAX_CALLBACK_ACCOUNTS || |cb.ixData| > CALLBACK_IX_DATA_LEN {
      return Err(InvalidInstructionData);
    }
    var checked :- CheckRequestAccounts(env, a);
    var config, p := checked.0, checked.1;
    var taken :- Allocate(p);
    var sequenceNumber, provider := taken.0, taken.1;
    var fee :- Fees.CalculateProviderFee(p.feeLamports, p.defaultComputeUnitLimit, args.computeUnitLimit);
    var balances :- PayRequest(BalancesOf(a), fee, config.pythFeeLamports, env.requestRent);
    var numHashes :- NumHashes(p, sequenceNumber);
    var slots := CaptureMetas(cb.accounts);
    var data := CaptureData(cb.ixData);
    var limit := if cb.status == CALLBACK_NOT_NECESSARY then p.defaultComputeUnitLimit else cb.computeUnitLimit;
    var request := Request(
      provider := p.providerAuthority,
      sequenceNumber := sequenceNumber,
      numHashes := numHashes,
      commitment := Hashv(env.hash, [args.userCommitment, p.currentCommitment]),
      requestSlot := env.slot,
      requesterProgramId := a.requesterProgram.key,
      requesterSigner := a.requesterSigner.key,
      payer := a.payer.key,
      useBlockhash := args.useBlockhash,
      callbackStatus := cb.status,
      computeUnitLimit := limit,
      callbackProgramId := cb.programId,
      callbackAccountsLen := |cb.accounts|,
      callbackAccounts := slots,
      callbackIxDataLen := |cb.ixData|,
      callbackIxData := data,
      bump := 0);
    return Ok(Grant(sequenceNumber, provider, request, balances));
  }

  /**
   * A plain request records no callback: no callback program, no accounts,
   * no data, status NOT_NECESSARY and the provider's default limit.
   */
  lemma NoCallbackRecord(rec: Request, a: RequestAccounts, p: Provider)
    requires HelperRecord(rec, a, p, NO_CALLBACK)
    ensures rec.callbackStatus == CALLBACK_NOT_NECESSARY && rec.callbackProgramId == ZERO32
    ensures rec.computeUnitLimit == p.defaultComputeUnitLimit
    ensures rec.callbackAccountsLen == 0 && rec.callbackAccounts == ZERO_REQUEST.callbackAccounts
    ensures rec.callbackIxDataLen == 0 && rec.callbackIxData == ZERO_REQUEST.callbackIxData
  {
    assert PaddedMetas([]) == ZERO_REQUEST.callbackAccounts;
  }

  /**
   * `process_request`: parse the 40-byte arguments, which sit at offset
   * `at` in the instruction data, reject a blockhash flag above 1, check the
   * accounts, run the helper without a callback, and return the number as
   * eight little-endian bytes. It succeeds exactly when `RequestOutcome`
   * does, with its error otherwise. A failure leaves every account as it
   * was.
   */
  method ProcessRequest(env: Env, a: RequestAccounts, at: nat, data: seq<byte>) returns (r: Result<seq<byte>>)
    requires a.Distinct()
    modifies a.payer, a.request, a.provider, a.providerVault, a.pythVault
    ensures r.Err? ==> unchanged(a.payer, a.request, a.provider, a.providerVault, a.pythVault)
    ensures r.Ok? <==> old(RequestOutcome(env, a, at, data)).Ok?
    ensures r.Err? ==> r.error == old(RequestOutcome(env, a, at, data)).error
    ensures r.Ok? ==> unchanged(a.provider`owner, a.provider`lamports, a.payer`owner, a.payer`data)
    ensures r.Ok? ==> unchanged(a.providerVault`owner, a.providerVault`data, a.pythVault`owner, a.pythVault`data)
    ensures r.Ok? ==>
      a.request.data.RequestData? && a.provider.data.ProviderData? && a.config.data.ConfigData?
      && old(a.provider.data.ProviderData?) && Instruction.ParseRequestArgs(at, data).Ok?
      && (var args := Instruction.ParseRequestArgs(at, data).value;
          var p := old(a.provider.data.provider);
          var g := Grant(a.request.data.request.sequenceNumber, a.provider.data.provider, a.request.data.request,
                         BalancesOf(a));
          args.useBlockhash <= 1
          && old(CheckRequestAccounts(env, a)) == Ok((a.config.data.config, p))
          && Granted(env, a.config.data.config, p, old(BalancesOf(a)), a.requesterProgram.key, a.payer.key,
                     args.userCommitment, args.useBlockhash, args.computeUnitLimit, g)
          && HelperRecord(g.request, a, p, NO_CALLBACK)
          && a.request.owner == env.programId
          && r.value == U64Le(g.sequenceNumber))
  {
    var args :- Instruction.ParseRequestArgs(at, data);
    if args.useBlockhash > 1 {
      return Err(InvalidInstructionData);
    }
    var checked :- CheckRequestAccounts(env, a);
    var g :- RequestHelper(env, a, args, NO_CALLBACK);
    Commit(env, a, g);
    return Ok(U64Le(g.sequenceNumber));
  }
}
