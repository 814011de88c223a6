/**
 * The request side of the pinocchio draft: `request_helper`, which is given
 * the loaded config and provider and fills a freshly created request
 * record, and the plain `process_request` handler.
 */
module PinocchioRequest {
  import opened Common
  import opened Hashing
  import opened Accounts
  import opened RequestIssue
  import Fees
  import Instruction

  /**
   * The compute-unit limit this helper records: the requested limit when
   * it exceeds the provider's default, the default otherwise.
   */
  function RecordedLimit(p: Provider, requested: u32): (r: u32)
    ensures r >= requested && r >= p.defaultComputeUnitLimit
    ensures r == requested || r == p.defaultComputeUnitLimit
  {
    if requested > p.defaultComputeUnitLimit then requested else p.defaultComputeUnitLimit
  }

  /**
   * The fields of this helper's record beyond the issued ones: no callback
   * (status NOT_NECESSARY, no program, accounts or data), the larger of the
   * two limits, and the fields the helper never writes left zero.
   */
  predicate HelperRecord(rec: Request, p: Provider, requested: u32)
  {
    CallbackRecord(rec, CALLBACK_NOT_NECESSARY, RecordedLimit(p, requested), ZERO32, [], [])
    && rec.requesterSigner == ZERO32
    && rec.bump == 0
  }

  /**
   * `request_helper`: the issuing steps on the given config and provider,
   * each failing with its own error; on success the grant is the issued one
   * and the record is the zeroed record of a fresh account with the issued
   * fields, the status and the limit written over it.
   */
  method RequestHelper(env: Env, config: Config, p: Provider, a: RequestAccounts, args: Instruction.RequestArgs)
    returns (r: Result<Grant>)
    ensures var issued := Issue(env, config, p, BalancesOf(a), args.computeUnitLimit);
      (issued.Err? ==> r == Err(issued.error))
      && (issued.Ok? ==>
            r.Ok?
            && Granted(env, config, p, BalancesOf(a), a.requesterProgram.key, a.payer.key,
                       args.userCommitment, args.useBlockhash, args.computeUnitLimit, r.value)
            && HelperRecord(r.value.request, p, args.computeUnitLimit))
  {
    var taken :- ProviderChain.Allocate(p);
    var sequenceNumber, provider := taken.0, taken.1;
    var fee :- Fees.CalculateProviderFee(p.feeLamports, p.defaultComputeUnitLimit, args.computeUnitLimit);
    var balances :- PayRequest(BalancesOf(a), fee, config.pythFeeLamports, env.requestRent);
    var request := ZERO_REQUEST;
    request := request.(provider := p.providerAuthority, sequenceNumber := sequenceNumber);
    var numHashes :- NumHashes(p, sequenceNumber);
    request := request.(numHashes := numHashes);
    request := request.(
      commitment := Hashv(env.hash, [args.userCommitment, p.currentCommitment]),
      requesterProgramId := a.requesterProgram.key,
      requestSlot := env.slot,
      useBlockhash := args.useBlockhash,
      callbackStatus := CALLBACK_NOT_NECESSARY,
      computeUnitLimit := if args.computeUnitLimit > p.defaultComputeUnitLimit then args.computeUnitLimit
                          else p.defaultComputeUnitLimit,
      payer := a.payer.key);
    assert PaddedMetas([]) == ZERO_REQUEST.callbackAccounts;
    return Ok(Grant(sequenceNumber, provider, request, balances));
  }

  /**
   * `process_request`: parse the 40-byte arguments, which sit at offset
   * `at` in the instruction data, reject a blockhash flag above 1, check the
   * accounts and load the records, run the helper, and return the number as
   * eight little-endian bytes. It succeeds exactly when `RequestOutcome`
   * does, with its error otherwise. A failure leaves every account as it
   * was.
   */
  method ProcessRequest(env: Env, a: RequestAccounts, at: nat, data: seq<byte>) returns (r: Result<seq<byte>>)
    requires a.Distinct()
    modifies a.payer, a.request, a.provider, a.providerVault, a.pythVault
    ensures r.Err? ==> unchanged(a.payer, a.request, a.provider, a.providerVault, a.pythVault)
    ensures r.Ok? <==> old(RequestOutcome(env, a, at, data)).Ok?
    ensures r.Err? ==> r.error == old(RequestOutcome(env, a, at, data)).error
    ensures r.Ok? ==> unchanged(a.provider`owner, a.provider`lamports, a.payer`owner, a.payer`data)
    ensures r.Ok? ==> unchanged(a.providerVault`owner, a.providerVault`data, a.pythVault`owner, a.pythVault`data)
    ensures r.Ok? ==>
      a.request.data.RequestData? && a.provider.data.ProviderData? && a.config.data.ConfigData?
      && old(a.provider.data.ProviderData?) && Instruction.ParseRequestArgs(at, data).Ok?
      && (var args := Instruction.ParseRequestArgs(at, data).value;
          var p := old(a.provider.data.provider);
          var g := Grant(a.request.data.request.sequenceNumber, a.provider.data.provider, a.request.data.request,
                         BalancesOf(a));
          args.useBlockhash <= 1
          && old(CheckRequestAccounts(env, a)) == Ok((a.config.data.config, p))
          && Granted(env, a.config.data.config, p, old(BalancesOf(a)), a.requesterProgram.key, a.payer.key,
                     args.userCommitment, args.useBlockhash, args.computeUnitLimit, g)
          && HelperRecord(g.request, p, args.computeUnitLimit)
          && a.request.owner == env.programId
          && r.value == U64Le(g.sequenceNumber))
  {
    var args :- Instruction.ParseRequestArgs(at, data);
    if args.useBlockhash > 1 {
      return Err(InvalidInstructionData);
    }
    var checked :- CheckRequestAccounts(env, a);
    var g :- RequestHelper(env, checked.0, checked.1, a, args);
    Commit(env, a, g);
    return Ok(U64Le(g.sequenceNumber));
  }
}
