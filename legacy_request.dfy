/**
 * The request handlers of the single-file processor (`processor/request.rs`
 * of `programs/entropy`): a plain request that names its provider, and a
 * request with a callback whose arguments are read by an offset parser
 * trying the layout with user randomness first and the one without second.
 *
 * Unlike the two-file helpers these handlers check the provider against the
 * authority named in the arguments, create the request account before
 * charging the fees, add the fees to the provider's and the config's accrued
 * counters, and, when no randomness is supplied, draw it from the config's
 * seed and the most recent slot hash.
 */
module LegacyRequest {
  import opened Common
  import opened Hashing
  import opened Accounts
  import opened ProviderChain
  import opened CallbackArgs
  import opened RequestIssue
  import Fees
  import Instruction

  // ---------------------------------------------------------------------
  // Staleness and sequence allocation
  // ---------------------------------------------------------------------

  /**
   * `num_hashes` as this file computes it: the too-old check runs on the
   * 64-bit distance before the conversion to u32. It accepts exactly what
   * the two-file rule accepts, with the same value; the only error that
   * differs is a distance beyond u32 under a non-zero `max_num_hashes`,
   * which is LastRevealedTooOld here and InvalidArgument there.
   */
  function LegacyNumHashes(p: Provider, sequenceNumber: u64): (r: Result<u32>)
    ensures r.Ok? <==> NumHashes(p, sequenceNumber).Ok?
    ensures r.Ok? ==> r == NumHashes(p, sequenceNumber)
    ensures r != NumHashes(p, sequenceNumber) <==>
              p.currentCommitmentSequenceNumber <= sequenceNumber
              && sequenceNumber - p.currentCommitmentSequenceNumber > U32_MAX && p.maxNumHashes != 0
    ensures r != NumHashes(p, sequenceNumber) ==>
              r == Err(LastRevealedTooOld) && NumHashes(p, sequenceNumber) == Err(InvalidArgument)
  {
    if sequenceNumber < p.currentCommitmentSequenceNumber then Err(InvalidArgument)
    else
      var distance := sequenceNumber - p.currentCommitmentSequenceNumber;
      if p.maxNumHashes != 0 && distance > p.maxNumHashes then Err(LastRevealedTooOld)
      else if distance > U32_MAX then Err(InvalidArgument)
      else Ok(distance)
  }

  /**
   * The sequence checks of both handlers: a used-up window is
   * OutOfRandomness, then the staleness rule; the result is `num_hashes`
   * of the provider's next number.
   */
  function Admit(p: Provider): (r: Result<u32>)
    ensures r.Ok? <==> Allocate(p).Ok? && NumHashes(p, p.sequenceNumber).Ok?
    ensures r.Ok? ==> r == NumHashes(p, p.sequenceNumber)
    ensures r.Err? ==> r.error in {OutOfRandomness, InvalidArgument, LastRevealedTooOld}
  {
    if p.sequenceNumber >= p.endSequenceNumber then Err(OutOfRandomness)
    else LegacyNumHashes(p, p.sequenceNumber)
  }

  // ---------------------------------------------------------------------
  // Charging
  // ---------------------------------------------------------------------

  /**
   * The payments of this file: `init_request_account_mut` first creates
   * the request account with exactly the rent minimum, which fails when it
   * already holds lamports; the provider fee and the protocol fee are then
   * transferred, each only when positive. On an account without lamports
   * this has the outcome of the two-file order (fees first, then funding).
   */
  function LegacyPay(b: Balances, fee: u64, pythFee: u64, rent: u64): (r: Result<Balances>)
    ensures b.request == 0 ==> r == PayRequest(b, fee, pythFee, rent)
    ensures b.request != 0 ==> r == Err(CpiFailed)
  {
    var created :- CreateAccount(b.payer, b.request, rent);
    var feePaid :- if fee > 0 then Transfer(created.0, b.providerVault, fee) else Ok((created.0, b.providerVault));
    var pythPaid :- if pythFee > 0 then Transfer(feePaid.0, b.pythVault, pythFee) else Ok((feePaid.0, b.pythVault));
    Ok(Balances(pythPaid.0, feePaid.1, pythPaid.1, created.1))
  }

  /**
   * The counter updates at the end of both handlers: the provider fee is
   * added to the provider's accrued fees, the protocol fee to the config's,
   * and the provider's next number moves on by one, each addition checked.
   */
  function Accrue(p: Provider, config: Config, fee: u64): (r: Result<(Provider, Config)>)
  {
    if p.accruedFeesLamports + fee > U64_MAX then Err(InvalidArgument)
    else if config.accruedPythFeesLamports + config.pythFeeLamports > U64_MAX then Err(InvalidArgument)
    else if p.sequenceNumber + 1 > U64_MAX then Err(InvalidArgument)
    else Ok((p.(accruedFeesLamports := p.accruedFeesLamports + fee, sequenceNumber := p.sequenceNumber + 1),
             config.(accruedPythFeesLamports := config.accruedPythFeesLamports + config.pythFeeLamports)))
  }

  /**
   * Everything after the sequence checks that can fail, in the handlers'
   * order: price the fee for `feeLimit` units, check that the two fees add
   * up within u64, pay, and accrue. A success moves no lamport into or out
   * of the four balances, the vaults grow by exactly what the counters
   * record, and the records change only in those counters and the number.
   */
  function Charge(env: Env, config: Config, p: Provider, b: Balances, feeLimit: u32)
    : (r: Result<(Provider, Config, Balances)>)
    ensures r.Ok? ==> Total(r.value.2) == Total(b)
    ensures r.Ok? ==> Fees.CalculateProviderFee(p.feeLamports, p.defaultComputeUnitLimit, feeLimit).Ok?
                      && r.value.2.providerVault
                         == b.providerVault + Fees.CalculateProviderFee(p.feeLamports, p.defaultComputeUnitLimit, feeLimit).value
    ensures r.Ok? ==> r.value.0.accruedFeesLamports - p.accruedFeesLamports == r.value.2.providerVault - b.providerVault
    ensures r.Ok? ==> r.value.1.accruedPythFeesLamports - config.accruedPythFeesLamports
                      == r.value.2.pythVault - b.pythVault == config.pythFeeLamports
    ensures r.Ok? ==> r.value.0.sequenceNumber == p.sequenceNumber + 1
                      && r.value.0.(accruedFeesLamports := p.accruedFeesLamports, sequenceNumber := p.sequenceNumber) == p
    ensures r.Ok? ==> r.value.1.(accruedPythFeesLamports := config.accruedPythFeesLamports) == config
    ensures r.Ok? ==> r.value.2.request == env.requestRent && b.request == 0
    ensures r.Err? ==> r.error == InvalidArgument || r.error == CpiFailed
  {
    var fee :- Fees.CalculateProviderFee(p.feeLamports, p.defaultComputeUnitLimit, feeLimit);
    if fee + config.pythFeeLamports > U64_MAX then Err(InvalidArgument)
    else
      var paid :- LegacyPay(b, fee, config.pythFeeLamports, env.requestRent);
      var accrued :- Accrue(p, config, fee);
      Ok((accrued.0, accrued.1, paid))
  }

  /**
   * The single-file issuing agrees with the two-file one: on a provider
   * with a valid window and a request account without lamports, the
   * sequence checks and the charge succeed exactly when the two-file
   * issuing succeeds and neither accrued counter overflows; they then
   * grant the same `num_hashes` and the same balances, and the provider
   * record differs from the two-file one only in its accrued fees.
   */
  lemma LegacyIssueAgrees(env: Env, config: Config, p: Provider, b: Balances, feeLimit: u32)
    requires WindowOk(p) && b.request == 0
    ensures var fee := Fees.CalculateProviderFee(p.feeLamports, p.defaultComputeUnitLimit, feeLimit);
      (Admit(p).Ok? && Charge(env, config, p, b, feeLimit).Ok?)
      <==> (Issue(env, config, p, b, feeLimit).Ok? && fee.Ok?
            && p.accruedFeesLamports + fee.value <= U64_MAX
            && config.accruedPythFeesLamports + config.pythFeeLamports <= U64_MAX)
    ensures Admit(p).Ok? && Charge(env, config, p, b, feeLimit).Ok? ==>
      var issued := Issue(env, config, p, b, feeLimit).value;
      var charged := Charge(env, config, p, b, feeLimit).value;
      Admit(p).value == issued.3 && charged.2 == issued.2
      && charged.0 == issued.1.(accruedFeesLamports := charged.0.accruedFeesLamports)
  {
    IssueSpec(env, config, p, b, feeLimit);
    var fee := Fees.CalculateProviderFee(p.feeLamports, p.defaultComputeUnitLimit, feeLimit);
    if fee.Ok? {
      var paid := LegacyPay(b, fee.value, config.pythFeeLamports, env.requestRent);
      assert paid == PayRequest(b, fee.value, config.pythFeeLamports, env.requestRent);
      if paid.Ok? {
        assert fee.value + config.pythFeeLamports <= U64_MAX;
      }
    }
  }

  // ---------------------------------------------------------------------
  // User randomness
  // ---------------------------------------------------------------------

  /**
   * `generate_user_randomness`: the hash of the config's seed, the slot,
   * the most recent slot hash and the requester signer. It is both the
   * user randomness and the config's new seed, so each generation chains
   * from the previous one. Without a slot hash it is InvalidArgument.
   */
  function GenerateUserRandomness(env: Env, config: Config, requesterSigner: Pubkey): (r: Result<(Bytes32, Config)>)
    ensures r.Ok? <==> env.slotHashes != []
    ensures r.Ok? ==> r.value.1 == config.(seed := r.value.0)
    ensures r.Ok? ==> r.value.0 == Hashv(env.hash, [config.seed, U64Le(env.slot), env.slotHashes[0].hash, requesterSigner])
    ensures r.Err? ==> r.error == InvalidArgument
  {
    if env.slotHashes == [] then Err(InvalidArgument)
    else
      var seed := Hashv(env.hash, [config.seed, U64Le(env.slot), env.slotHashes[0].hash, requesterSigner]);
      Ok((seed, config.(seed := seed)))
  }

  /** The randomness a callback request uses: the supplied one, or a generated one. */
  function UserRandomness(env: Env, config: Config, requesterSigner: Pubkey, supplied: Option<Bytes32>)
    : (r: Result<(Bytes32, Config)>)
    ensures supplied.Some? ==> r == Ok((supplied.value, config))
    ensures supplied.None? ==> r == GenerateUserRandomness(env, config, requesterSigner)
  {
    match supplied
    case Some(randomness) => Ok((randomness, config))
    case None => GenerateUserRandomness(env, config, requesterSigner)
  }

  /**
   * The limit a callback request is priced at: the provider's default when
   * the arguments give 0, the given limit otherwise.
   */
  function FeeLimit(p: Provider, requested: u32): u32
  {
    if requested == 0 then p.defaultComputeUnitLimit else requested
  }

  /**
   * A callback request that leaves the limit at 0 is priced at the
   * provider's default rounded up to a multiple of 10 000 units: the base
   * fee plus the base fee scaled by the rounding gap, which is the base fee
   * alone when the default is such a multiple. The fee exceeds the base fee
   * exactly when the base fee times the rounding gap reaches the default,
   * so a small base fee can stay unchanged even for a default that is not
   * a multiple.
   */
  lemma DefaultLimitFee(p: Provider)
    ensures var d := p.defaultComputeUnitLimit;
      var fee := Fees.CalculateProviderFee(p.feeLamports, d, FeeLimit(p, 0));
      d > 0 && fee.Ok? ==> fee.value == p.feeLamports + Fees.Product(Fees.RoundUpTo10k(d) - d, p.feeLamports) / d
    ensures var d := p.defaultComputeUnitLimit;
      var fee := Fees.CalculateProviderFee(p.feeLamports, d, FeeLimit(p, 0));
      d > 0 && fee.Ok? ==> (fee.value > p.feeLamports <==> Fees.Product(Fees.RoundUpTo10k(d) - d, p.feeLamports) >= d)
    ensures p.defaultComputeUnitLimit % Fees.COMPUTE_UNIT_STEP == 0 ==>
      Fees.CalculateProviderFee(p.feeLamports, p.defaultComputeUnitLimit, FeeLimit(p, 0)) == Ok(p.feeLamports)
  {
    var d := p.defaultComputeUnitLimit;
    Fees.RoundUpIsLeastMultiple(d, d);
    if d > 0 && Fees.RoundUpTo10k(d) == d {
      assert Fees.Product(0, p.feeLamports) == 0;
    }
    if d > 0 {
      Fees.AtLeastOneQuotient(Fees.Product(Fees.RoundUpTo10k(d) - d, p.feeLamports), d);
    }
  }

  // ---------------------------------------------------------------------
  // Account checks
  // ---------------------------------------------------------------------

  /** The six accounts this file writes (the config among them) are different accounts. */
  predicate LegacyDistinct(a: RequestAccounts)
  {
    a.Distinct()
    && a.config != a.payer && a.config != a.request && a.config != a.provider
    && a.config != a.providerVault && a.config != a.pythVault
  }

  /** Signatures, writability (the config included) and the system program. */
  function LegacyCheckSigners(a: RequestAccounts): (r: Result<()>)
    ensures r.Ok? <==> SignersOk(a) && WritableOk(a) && a.config.isWritable && a.systemProgram.key == SYSTEM_PROGRAM_ID
    ensures !SignersOk(a) ==> r == Err(MissingRequiredSignature)
    ensures SignersOk(a) && r.Err? ==> r.error == InvalidAccount
  {
    if !SignersOk(a) then Err(MissingRequiredSignature)
    else if !WritableOk(a) || !a.config.isWritable then Err(InvalidAccount)
    else if a.systemProgram.key != SYSTEM_PROGRAM_ID then Err(InvalidAccount)
    else Ok(())
  }

  /**
   * The address and state checks, with the provider and its vault derived
   * from the authority the arguments name: the PDAs match, both vaults are
   * system-owned and empty, and the request account is system-owned, empty
   * and holds no lamports.
   */
  predicate LegacyAddressesOk(env: Env, a: RequestAccounts, authority: Pubkey)
    reads a.providerVault, a.pythVault, a.request
  {
    a.requesterSigner.key == RequesterSignerPda(env, a.requesterProgram.key).address
    && a.provider.key == ProviderPda(env, authority).address
    && a.providerVault.key == ProviderVaultPda(env, authority).address && Uninitialized(a.providerVault)
    && a.config.key == ConfigPda(env).address
    && a.pythVault.key == PythFeeVaultPda(env).address && Uninitialized(a.pythVault)
    && Uninitialized(a.request) && a.request.lamports == 0
  }

  function LegacyCheckAddresses(env: Env, a: RequestAccounts, authority: Pubkey): (r: Result<()>)
    reads a.providerVault, a.pythVault, a.request
    ensures r.Ok? <==> LegacyAddressesOk(env, a, authority)
    ensures r.Err? ==> r.error == InvalidPda || r.error == InvalidAccount
  {
    if a.requesterSigner.key != RequesterSignerPda(env, a.requesterProgram.key).address then Err(InvalidPda)
    else if a.provider.key != ProviderPda(env, authority).address then Err(InvalidPda)
    else if a.providerVault.key != ProviderVaultPda(env, authority).address then Err(InvalidPda)
    else if !Uninitialized(a.providerVault) then Err(InvalidAccount)
    else if a.config.key != ConfigPda(env).address then Err(InvalidPda)
    else if a.pythVault.key != PythFeeVaultPda(env).address then Err(InvalidPda)
    else if !Uninitialized(a.pythVault) then Err(InvalidAccount)
    else if !Uninitialized(a.request) || a.request.lamports != 0 then Err(InvalidAccount)
    else Ok(())
  }

  /** Loading both records; the provider must belong to the named authority. */
  function LegacyLoad(env: Env, a: RequestAccounts, authority: Pubkey): (r: Result<(Config, Provider)>)
    reads a.config, a.provider
    ensures r.Ok? <==> LoadConfig(a.config, env.programId).Ok? && LoadProvider(a.provider, env.programId).Ok?
                       && a.provider.data.provider.providerAuthority == authority
    ensures r.Ok? ==> r.value == (a.config.data.config, a.provider.data.provider)
    ensures r.Err? ==> r.error == InvalidAccount
  {
    var config :- LoadConfig(a.config, env.programId);
    var provider :- LoadProvider(a.provider, env.programId);
    if provider.providerAuthority != authority then Err(InvalidAccount) else Ok((config, provider))
  }

  /** Writing the outcome of a request: balances, both records and the new request. */
  method LegacyCommit(env: Env, a: RequestAccounts, p: Provider, config: Config, rec: Request, b: Balances)
    requires LegacyDistinct(a)
    modifies a.payer, a.request, a.provider, a.providerVault, a.pythVault, a.config
    ensures BalancesOf(a) == b
    ensures a.provider.data == ProviderData(p) && a.config.data == ConfigData(config)
    ensures a.request.owner == env.programId && a.request.data == RequestData(rec)
    ensures unchanged(a.provider`owner, a.provider`lamports, a.config`owner, a.config`lamports)
    ensures unchanged(a.payer`owner, a.payer`data, a.providerVault`owner, a.providerVault`data)
    ensures unchanged(a.pythVault`owner, a.pythVault`data)
  {
    Commit(env, a, Grant(p.sequenceNumber, p, rec, b));
    a.config.data := ConfigData(config);
  }

  // ---------------------------------------------------------------------
  // process_request
  // ---------------------------------------------------------------------

  /**
   * The answer of `process_request`, decided on the accounts before it
   * runs: a blockhash flag above 1 is InvalidInstructionData; then the
   * signatures, the addresses, the two records, the sequence checks and the
   * charge, each failing with its own error, in that order.
   */
  function RequestOutcome(env: Env, a: RequestAccounts, args: Instruction.ProviderRequestArgs): Result<()>
    reads a.Objects()
  {
    if args.useBlockhash > 1 then Err(InvalidInstructionData)
    else
      var signed :- LegacyCheckSigners(a);
      var placed :- LegacyCheckAddresses(env, a, args.provider);
      var loaded :- LegacyLoad(env, a, args.provider);
      var numHashes :- Admit(loaded.1);
      var charged :- Charge(env, loaded.0, loaded.1, BalancesOf(a), args.computeUnitLimit);
      Ok(())
  }

  /**
   * `process_request`: a blockhash flag above 1 is InvalidInstructionData;
   * then the account checks, the sequence checks and the charge fail with
   * their own errors. On success the provider record and the config carry
   * the charged counters, the balances are the charged ones, and the new
   * record holds the issued fields without a callback: status
   * NOT_NECESSARY, limit 0, the requester signer's key and bump 0. A failure
   * leaves every account as it was.
   */
  method ProcessRequest(env: Env, a: RequestAccounts, args: Instruction.ProviderRequestArgs) returns (r: Result<()>)
    requires LegacyDistinct(a)
    modifies a.payer, a.request, a.provider, a.providerVault, a.pythVault, a.config
    ensures r.Err? ==> unchanged(a.payer, a.request, a.provider, a.providerVault, a.pythVault, a.config)
    ensures r == old(RequestOutcome(env, a, args))
    ensures r.Ok? ==> unchanged(a.provider`owner, a.provider`lamports, a.payer`owner, a.payer`data)
    ensures r.Ok? ==> unchanged(a.providerVault`owner, a.providerVault`data, a.pythVault`owner, a.pythVault`data)
    ensures r.Ok? ==> unchanged(a.config`owner, a.config`lamports)
    ensures r.Ok? ==>
      args.useBlockhash <= 1 && LegacyCheckSigners(a).Ok? && old(LegacyAddressesOk(env, a, args.provider))
      && old(LegacyLoad(env, a, args.provider)).Ok?
      && a.request.data.RequestData? && a.provider.data.ProviderData? && a.config.data.ConfigData?
      && (var (config, p) := old(LegacyLoad(env, a, args.provider)).value;
          var rec := a.request.data.request;
          Admit(p) == Ok(rec.numHashes)
          && Charge(env, config, p, old(BalancesOf(a)), args.computeUnitLimit)
             == Ok((a.provider.data.provider, a.config.data.config, BalancesOf(a)))
          && IssuedRecord(rec, env, p, p.sequenceNumber, args.userCommitment, a.requesterProgram.key, a.payer.key,
                          args.useBlockhash)
          && CallbackRecord(rec, CALLBACK_NOT_NECESSARY, 0, ZERO32, [], [])
          && rec.requesterSigner == a.requesterSigner.key && rec.bump == 0
          && a.request.owner == env.programId)
  {
    if args.useBlockhash > 1 {
      return Err(InvalidInstructionData);
    }
    var _ :- LegacyCheckSigners(a);
    var _ :- LegacyCheckAddresses(env, a, args.provider);
    var loaded :- LegacyLoad(env, a, args.provider);
    var config, p := loaded.0, loaded.1;
    var numHashes :- Admit(p);
    var charged :- Charge(env, config, p, BalancesOf(a), args.computeUnitLimit);
    var rec := ZERO_REQUEST.(
      provider := args.provider,
      sequenceNumber := p.sequenceNumber,
      numHashes := numHashes,
      commitment := Hashv(env.hash, [args.userCommitment, p.currentCommitment]),
      requestSlot := env.slot,
      requesterProgramId := a.requesterProgram.key,
      requesterSigner := a.requesterSigner.key,
      payer := a.payer.key,
      useBlockhash := args.useBlockhash,
      callbackStatus := CALLBACK_NOT_NECESSARY);
    assert PaddedMetas([]) == ZERO_REQUEST.callbackAccounts;
    LegacyCommit(env, a, charged.0, charged.1, rec, charged.2);
    return Ok(());
  }

  // ---------------------------------------------------------------------
  // The callback arguments
  // ---------------------------------------------------------------------

  /** The arguments of a callback request: provider, optional randomness, then the body. */
  datatype LegacyCallbackArgs = LegacyCallbackArgs(provider: Pubkey, userRandomness: Option<Bytes32>, body: Body)

  function EncodeLegacyArgs(x: LegacyCallbackArgs): seq<byte>
    requires |x.body.callbackAccounts| <= U32_MAX && |x.body.callbackIxData| <= U32_MAX
  {
    x.provider + (if x.userRandomness.Some? then x.userRandomness.value else []) + EncodeBody(x.body)
  }

  /** The reference reading of one of the two layouts. */
  function DecodeLegacyArgs(s: seq<byte>, hasUserRandomness: bool): Option<LegacyCallbackArgs>
  {
    var prefix := if hasUserRandomness then 64 else 32;
    if |s| < prefix then None
    else match DecodeBody(s[prefix..])
      case None => None
      case Some(b) =>
        if hasUserRandomness then
          var randomness: Bytes32 := s[32..64];
          Some(LegacyCallbackArgs(s[..32], Some(randomness), b))
        else Some(LegacyCallbackArgs(s[..32], None, b))
  }

  /** What `parse_request_with_callback_args` reads: the layout with randomness if it fits, else the other. */
  function ReadLegacyArgs(s: seq<byte>): Option<LegacyCallbackArgs>
  {
    if DecodeLegacyArgs(s, true).Some? then DecodeLegacyArgs(s, true) else DecodeLegacyArgs(s, false)
  }

  /** `read_u32_len`: four little-endian bytes at the offset, which moves past them. */
  function ReadU32Len(data: seq<byte>, offset: nat): (r: Result<(u32, nat)>)
    ensures r.Ok? <==> offset + 4 <= |data|
    ensures r.Ok? ==> r.value == (U32From(data[offset..offset + 4]), offset + 4)
    ensures r.Err? ==> r.error == InvalidInstructionData
  {
    if |data| < offset + 4 then Err(InvalidInstructionData) else Ok((U32From(data[offset..offset + 4]), offset + 4))
  }

  /**
   * One turn of the account loop: the entry at `offset` lies within the
   * checked length, and a bad flag leaves the reference reading with
   * nothing, while a good entry extends what has been read so far.
   */
  lemma MetaStepAt(data: seq<byte>, start: nat, count: nat, i: nat, offset: nat, metas: seq<CallbackMeta>)
    requires start + META_LEN * count <= |data| && i < count && offset == start + META_LEN * i
    requires Prepend(metas, DecodeMetas(data[offset..], count - i)) == DecodeMetas(data[start..], count)
    ensures offset + META_LEN <= |data| && offset + META_LEN == start + META_LEN * (i + 1)
    ensures var m := CallbackMeta(data[offset..offset + 32], data[offset + 32], data[offset + 33]);
      if FlagsOk(m)
      then Prepend(metas + [m], DecodeMetas(data[offset + META_LEN..], count - (i + 1))) == DecodeMetas(data[start..], count)
      else DecodeMetas(data[start..], count) == None
  {
    assert META_LEN * (i + 1) == META_LEN * i + META_LEN;
    assert META_LEN * (i + 1) <= META_LEN * count;
    var m := CallbackMeta(data[offset..offset + 32], data[offset + 32], data[offset + 33]);
    var here := data[offset..];
    assert here[..32] == data[offset..offset + 32];
    assert here[META_LEN..] == data[offset + META_LEN..];
    assert DecodeMeta(here) == m;
    if FlagsOk(m) {
      PrependAppend(metas, m, DecodeMetas(data[offset + META_LEN..], count - (i + 1)));
    }
  }

  /**
   * The account loop of the inner parser: the length of all `count`
   * entries has been checked, so each entry is read in place and only a
   * flag above 1 stops the loop. It reads what the reference layout reads.
   */
  method ReadMetasAt(data: seq<byte>, start: nat, count: nat) returns (r: Result<(seq<CallbackMeta>, nat)>)
    requires start + META_LEN * count <= |data|
    ensures r.Ok? <==> DecodeMetas(data[start..], count).Some?
    ensures r.Ok? ==> r.value.1 == start + META_LEN * count
                      && r.value.0 == DecodeMetas(data[start..], count).value.0
    ensures r.Err? ==> r.error == InvalidInstructionData
  {
    var offset := start;
    var metas: seq<CallbackMeta> := [];
    PrependNil(DecodeMetas(data[start..], count));
    for i := 0 to count
      invariant offset == start + META_LEN * i && |metas| == i
      invariant Prepend(metas, DecodeMetas(data[offset..], count - i)) == DecodeMetas(data[start..], count)
    {
      MetaStepAt(data, start, count, i, offset, metas);
      var pubkey: Bytes32 := data[offset..offset + 32];
      offset := offset + 32;
      var isSigner := data[offset];
      offset := offset + 1;
      var isWritable := data[offset];
      offset := offset + 1;
      var m := CallbackMeta(pubkey, isSigner, isWritable);
      if isSigner > 1 || isWritable > 1 {
        return Err(InvalidInstructionData);
      }
      metas := metas + [m];
    }
    assert metas + [] == metas;
    return Ok((metas, offset));
  }

  /**
   * The end of the inner parser: the data length at the offset, the data,
   * and nothing after it.
   */
  method ReadIxDataAt(data: seq<byte>, offset: nat) returns (r: Result<seq<byte>>)
    requires offset <= |data|
    ensures var rest := data[offset..];
      r.Ok? <==> |rest| >= 4 && U32From(rest[..4]) == |rest| - 4
    ensures r.Ok? ==> r.value == data[offset + 4..]
    ensures r.Err? ==> r.error == InvalidInstructionData
  {
    ghost var rest := data[offset..];
    var d :- ReadU32Len(data, offset);
    var dataLen := d.0;
    assert rest[..4] == data[offset..offset + 4];
    var at := d.1;
    if |data| < at + dataLen {
      return Err(InvalidInstructionData);
    }
    var ixData := data[at..at + dataLen];
    if at + dataLen != |data| {
      return Err(InvalidInstructionData);
    }
    return Ok(ixData);
  }

  /**
   * The body part of the inner parser, from the compute-unit limit on: it
   * accepts exactly what the reference reading of a body accepts at the
   * offset, and returns that body.
   */
  method ReadBodyAt(data: seq<byte>, start: nat) returns (r: Result<Body>)
    requires start <= |data|
    ensures r.Ok? <==> DecodeBody(data[start..]).Some?
    ensures r.Ok? ==> r.value == DecodeBody(data[start..]).value
    ensures r.Err? ==> r.error == InvalidInstructionData
  {
    ghost var body := data[start..];
    var offset := start;
    if |data| < offset + 4 {
      return Err(InvalidInstructionData);
    }
    var computeUnitLimit := U32From(data[offset..offset + 4]);
    offset := offset + 4;
    var c :- ReadU32Len(data, offset);
    var count := c.0;
    offset := c.1;
    assert computeUnitLimit == U32From(body[..4]) && count == U32From(body[4..8]) by {
      assert body[..4] == data[start..start + 4] && body[4..8] == data[start + 4..start + 8];
    }
    assert body[8..] == data[offset..];
    if |data| < offset + META_LEN * count {
      return Err(InvalidInstructionData);
    }
    var read :- ReadMetasAt(data, offset, count);
    var metas := read.0;
    offset := read.1;
    assert DecodeMetas(body[8..], count).value.1 == data[offset..];
    var ixData :- ReadIxDataAt(data, offset);
    return Ok(Body(computeUnitLimit, metas, ixData));
  }

  /**
   * `parse_request_with_callback_args_inner`: an offset walk over the
   * input for one of the two layouts. Every failure is
   * InvalidInstructionData; it accepts exactly what the reference layout
   * reads and returns it.
   */
  method ParseInner(data: seq<byte>, hasUserRandomness: bool) returns (r: Result<LegacyCallbackArgs>)
    ensures r.Ok? <==> DecodeLegacyArgs(data, hasUserRandomness).Some?
    ensures r.Ok? ==> r.value == DecodeLegacyArgs(data, hasUserRandomness).value
    ensures r.Err? ==> r.error == InvalidInstructionData
  {
    var offset := 0;
    if |data| < offset + 32 {
      return Err(InvalidInstructionData);
    }
    var provider: Bytes32 := data[offset..offset + 32];
    offset := offset + 32;
    var userRandomness: Option<Bytes32> := None;
    if hasUserRandomness {
      if |data| < offset + 32 {
        return Err(InvalidInstructionData);
      }
      var randomness: Bytes32 := data[offset..offset + 32];
      offset := offset + 32;
      userRandomness := Some(randomness);
    }
    assert offset == if hasUserRandomness then 64 else 32;
    var body :- ReadBodyAt(data, offset);
    assert DecodeLegacyArgs(data, hasUserRandomness) == Some(LegacyCallbackArgs(provider, userRandomness, body));
    return Ok(LegacyCallbackArgs(provider, userRandomness, body));
  }

  /** `parse_request_with_callback_args`: the layout with randomness, or else the one without. */
  method ParseLegacyCallbackArgs(data: seq<byte>) returns (r: Result<LegacyCallbackArgs>)
    ensures r.Ok? <==> ReadLegacyArgs(data).Some?
    ensures r.Ok? ==> r.value == ReadLegacyArgs(data).value
    ensures r.Err? ==> r.error == InvalidInstructionData
  {
    r := ParseInner(data, true);
    if r.Err? {
      r := ParseInner(data, false);
    }
  }

  /** Arguments with randomness read back as themselves. */
  lemma WithRandomnessRoundTrip(x: LegacyCallbackArgs)
    requires Encodable(x.body) && x.userRandomness.Some?
    ensures ReadLegacyArgs(EncodeLegacyArgs(x)) == Some(x)
  {
    var e := EncodeLegacyArgs(x);
    BodyRoundTrip(x.body);
    assert e[..32] == x.provider && e[32..64] == x.userRandomness.value && e[64..] == EncodeBody(x.body);
  }

  /**
   * Arguments without randomness read back as themselves exactly when their
   * encoding does not also read as arguments with randomness.
   */
  lemma WithoutRandomnessRoundTrip(x: LegacyCallbackArgs)
    requires Encodable(x.body) && x.userRandomness.None?
    ensures ReadLegacyArgs(EncodeLegacyArgs(x)) == Some(x) <==> DecodeLegacyArgs(EncodeLegacyArgs(x), true).None?
  {
    var e := EncodeLegacyArgs(x);
    BodyRoundTrip(x.body);
    assert e[..32] == x.provider && e[32..] == EncodeBody(x.body);
    if DecodeLegacyArgs(e, true).Some? {
      assert ReadLegacyArgs(e).value.userRandomness.Some?;
    }
  }

  /** Arguments whose provider, randomness and body encodings are the parts of `s` encode to `s`. */
  lemma EncodeFromParts(s: seq<byte>, x: LegacyCallbackArgs)
    requires Encodable(x.body)
    requires var prefix := if x.userRandomness.Some? then 64 else 32;
      |s| >= prefix && x.provider == s[..32] && EncodeBody(x.body) == s[prefix..]
      && (x.userRandomness.Some? ==> x.userRandomness.value == s[32..64])
    ensures EncodeLegacyArgs(x) == s
  {
    if x.userRandomness.Some? {
      assert s == s[..32] + s[32..64] + s[64..];
    } else {
      assert s == s[..32] + s[32..];
    }
  }

  /** Whatever reads as arguments is exactly their encoding. */
  lemma ReadIsEncoding(s: seq<byte>)
    requires ReadLegacyArgs(s).Some?
    ensures Encodable(ReadLegacyArgs(s).value.body) && EncodeLegacyArgs(ReadLegacyArgs(s).value) == s
  {
    var x := ReadLegacyArgs(s).value;
    var prefix := if DecodeLegacyArgs(s, true).Some? then 64 else 32;
    assert x.userRandomness.Some? <==> prefix == 64;
    assert x.body == DecodeBody(s[prefix..]).value;
    BodyExact(s[prefix..]);
    EncodeFromParts(s, x);
  }

  /**
   * Arguments with randomness always read back as themselves; arguments
   * without it read back as themselves exactly when their encoding does not
   * also read as arguments with randomness. Whatever reads as arguments is
   * exactly their encoding.
   */
  lemma LegacyArgsRoundTrip(x: LegacyCallbackArgs, s: seq<byte>)
    ensures Encodable(x.body) && x.userRandomness.Some? ==> ReadLegacyArgs(EncodeLegacyArgs(x)) == Some(x)
    ensures Encodable(x.body) && x.userRandomness.None? ==>
      (ReadLegacyArgs(EncodeLegacyArgs(x)) == Some(x) <==> DecodeLegacyArgs(EncodeLegacyArgs(x), true).None?)
    ensures ReadLegacyArgs(s).Some? ==>
      Encodable(ReadLegacyArgs(s).value.body) && EncodeLegacyArgs(ReadLegacyArgs(s).value) == s
  {
    if Encodable(x.body) {
      if x.userRandomness.Some? {
        WithRandomnessRoundTrip(x);
      } else {
        WithoutRandomnessRoundTrip(x);
      }
    }
    if ReadLegacyArgs(s).Some? {
      ReadIsEncoding(s);
    }
  }

  /**
   * The two layouts overlap: a request without randomness carrying 32 zero
   * bytes of callback data is read as a request with randomness and no
   * callback data.
   */
  lemma AmbiguousLayout()
    ensures var x := LegacyCallbackArgs(ZERO32, None, Body(0, [], Zeros(32)));
      Encodable(x.body) && ReadLegacyArgs(EncodeLegacyArgs(x)).Some?
      && ReadLegacyArgs(EncodeLegacyArgs(x)) != Some(x)
  {
    var x := LegacyCallbackArgs(ZERO32, None, Body(0, [], Zeros(32)));
    var empty := Body(0, [], []);
    assert U32Le(0) == Zeros(4);
    var e := EncodeLegacyArgs(x);
    assert e[64..] == EncodeBody(empty) by {
      assert e == ZERO32 + U32Le(0) + U32Le(0) + U32Le(32) + Zeros(32);
      assert EncodeBody(empty) == Zeros(12);
    }
    BodyRoundTrip(empty);
    assert ReadLegacyArgs(e).value.userRandomness.Some?;
  }

  // ---------------------------------------------------------------------
  // process_request_with_callback
  // ---------------------------------------------------------------------

  /**
   * The answer of `process_request_with_callback`, decided on the accounts
   * before it runs: arguments that do not parse are InvalidInstructionData;
   * then the signatures; a count of remaining accounts other than the
   * number of callback accounts is InvalidAccount; then the addresses; more
   * than 16 accounts or 256 data bytes are InvalidInstructionData; then the
   * two records, the sequence checks, the generation of user randomness
   * when none is supplied, and the charge at `FeeLimit`.
   */
  function CallbackRequestOutcome(env: Env, a: RequestAccounts, remaining: nat, data: seq<byte>): Result<()>
    reads a.Objects()
  {
    match ReadLegacyArgs(data)
    case None => Err(InvalidInstructionData)
    case Some(x) =>
      var signed :- LegacyCheckSigners(a);
      if remaining != |x.body.callbackAccounts| then Err(InvalidAccount)
      else
        var placed :- LegacyCheckAddresses(env, a, x.provider);
        if !FitsRecord(x.body) then Err(InvalidInstructionData)
        else
          var loaded :- LegacyLoad(env, a, x.provider);
          var numHashes :- Admit(loaded.1);
          var u :- UserRandomness(env, loaded.0, a.requesterSigner.key, x.userRandomness);
          var charged :- Charge(env, u.1, loaded.1, BalancesOf(a), FeeLimit(loaded.1, x.body.computeUnitLimit));
          Ok(())
  }

  /**
   * `process_request_with_callback`: the arguments must parse; the
   * accounts after the callback program must be as many as the callback
   * accounts (else InvalidAccount); the account lists must fit the record
   * (else InvalidInstructionData). The user randomness is the supplied one
   * or a generated one, which also becomes the config's seed; the user
   * commitment is its hash. The fee is priced at the requested limit, or at
   * the default when 0 is requested. On success the record holds the issued
   * fields with the blockhash flag 0, the callback program, accounts and
   * data, status NOT_STARTED and the requested limit. A failure leaves every
   * account as it was.
   */
  method ProcessRequestWithCallback(env: Env, a: RequestAccounts, callbackProgram: Account, remaining: nat,
                                    data: seq<byte>)
    returns (r: Result<()>)
    requires LegacyDistinct(a)
    modifies a.payer, a.request, a.provider, a.providerVault, a.pythVault, a.config
    ensures r.Err? ==> unchanged(a.payer, a.request, a.provider, a.providerVault, a.pythVault, a.config)
    ensures r == old(CallbackRequestOutcome(env, a, remaining, data))
    ensures r.Ok? ==> unchanged(a.provider`owner, a.provider`lamports, a.payer`owner, a.payer`data)
    ensures r.Ok? ==> unchanged(a.providerVault`owner, a.providerVault`data, a.pythVault`owner, a.pythVault`data)
    ensures r.Ok? ==> unchanged(a.config`owner, a.config`lamports)
    ensures r.Ok? ==>
      ReadLegacyArgs(data).Some? && LegacyCheckSigners(a).Ok?
      && (var x := ReadLegacyArgs(data).value;
          remaining == |x.body.callbackAccounts| && FitsRecord(x.body)
          && old(LegacyAddressesOk(env, a, x.provider))
          && old(LegacyLoad(env, a, x.provider)).Ok?
          && a.request.data.RequestData? && a.provider.data.ProviderData? && a.config.data.ConfigData?
          && (var (config, p) := old(LegacyLoad(env, a, x.provider)).value;
              var rec := a.request.data.request;
              var u := UserRandomness(env, config, a.requesterSigner.key, x.userRandomness);
              Admit(p) == Ok(rec.numHashes)
              && u.Ok?
              && Charge(env, u.value.1, p, old(BalancesOf(a)), FeeLimit(p, x.body.computeUnitLimit))
                 == Ok((a.provider.data.provider, a.config.data.config, BalancesOf(a)))
              && IssuedRecord(rec, env, p, p.sequenceNumber, Hashv(env.hash, [u.value.0]), a.requesterProgram.key,
                              a.payer.key, 0)
              && CallbackRecord(rec, CALLBACK_NOT_STARTED, x.body.computeUnitLimit, callbackProgram.key,
                                x.body.callbackAccounts, x.body.callbackIxData)
              && rec.requesterSigner == a.requesterSigner.key && rec.bump == 0
              && a.request.owner == env.programId))
  {
    var x :- ParseLegacyCallbackArgs(data);
    var _ :- LegacyCheckSigners(a);
    if remaining != |x.body.callbackAccounts| {
      return Err(InvalidAccount);
    }
    var _ :- LegacyCheckAddresses(env, a, x.provider);
    if |x.body.callbackAccounts| > MAX_CALLBACK_ACCOUNTS {
      return Err(InvalidInstructionData);
    }
    if |x.body.callbackIxData| > CALLBACK_IX_DATA_LEN {
      return Err(InvalidInstructionData);
    }
    var loaded :- LegacyLoad(env, a, x.provider);
    var config, p := loaded.0, loaded.1;
    var numHashes :- Admit(p);
    var u :- UserRandomness(env, config, a.requesterSigner.key, x.userRandomness);
    var userCommitment := Hashv(env.hash, [u.0]);
    var charged :- Charge(env, u.1, p, BalancesOf(a), FeeLimit(p, x.body.computeUnitLimit));
    var slots := CaptureMetas(x.body.callbackAccounts);
    var ixData := CaptureData(x.body.callbackIxData);
    var rec := Request(
      provider := x.provider,
      sequenceNumber := p.sequenceNumber,
      numHashes := numHashes,
      commitment := Hashv(env.hash, [userCommitment, p.currentCommitment]),
      requestSlot := env.slot,
      requesterProgramId := a.requesterProgram.key,
      requesterSigner := a.requesterSigner.key,
      payer := a.payer.key,
      useBlockhash := 0,
      callbackStatus := CALLBACK_NOT_STARTED,
      computeUnitLimit := x.body.computeUnitLimit,
      callbackProgramId := callbackProgram.key,
      callbackAccountsLen := |x.body.callbackAccounts|,
      callbackAccounts := slots,
      callbackIxDataLen := |x.body.callbackIxData|,
      callbackIxData := ixData,
      bump := 0);
    LegacyCommit(env, a, charged.0, charged.1, rec, charged.2);
    return Ok(());
  }
}
