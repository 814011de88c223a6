/**
 * `process_reveal_with_callback` of the pinocchio draft. It differs from
 * the `programs/entropy` draft in these points: the payer account is the
 * seventh fixed account; only a NOT_STARTED request is revealed and the
 * arguments' provider and number are not compared with the request; the
 * callback program must be the requester program; the callback is invoked
 * only when the request's compute-unit limit is not zero, with the entropy
 * signer as its first account, and its failure fails the reveal; closing
 * moves the lamports but leaves the request's data in place.
 */
module PinocchioReveal {
  import opened Common
  import opened Hashing
  import opened Accounts
  import opened ProviderChain
  import opened RequestIssue
  import opened RevealCore
  import Instruction

  /**
   * The checks of a reveal up to the random value, in source order:
   * `CheckRevealAccounts`, the status (only NOT_STARTED, else
   * InvalidRevealCall), the provider account, the commitment
   * (IncorrectRevelation) and the blockhash.
   */
  function CheckReveal(env: Env, a: RevealAccounts, args: Instruction.RevealArgs): (r: Result<(Request, Provider, Bytes32)>)
    reads a.request, a.provider
    ensures r.Ok? ==>
      CheckRevealAccounts(env, a) == Ok(r.value.0)
      && r.value.0.callbackStatus == CALLBACK_NOT_STARTED
      && LoadRevealProvider(env, a.provider, r.value.0) == Ok(r.value.1)
      && CommitmentMatches(env.hash, r.value.0, args.userContribution, args.providerContribution)
      && Blockhash(env.slotHashes, r.value.0.useBlockhash, r.value.0.requestSlot) == Ok(r.value.2)
    ensures CheckRevealAccounts(env, a).Err? ==> r == Err(CheckRevealAccounts(env, a).error)
    ensures CheckRevealAccounts(env, a).Ok? && CheckRevealAccounts(env, a).value.callbackStatus != CALLBACK_NOT_STARTED
            ==> r == Err(InvalidRevealCall)
    ensures r.Err? && r.error == IncorrectRevelation ==>
      CheckRevealAccounts(env, a).Ok?
      && LoadRevealProvider(env, a.provider, CheckRevealAccounts(env, a).value).Ok?
      && !CommitmentMatches(env.hash, CheckRevealAccounts(env, a).value, args.userContribution, args.providerContribution)
  {
    match CheckRevealAccounts(env, a)
    case Err(e) => Err(e)
    case Ok(rec) =>
      if rec.callbackStatus != CALLBACK_NOT_STARTED then Err(InvalidRevealCall)
      else match LoadRevealProvider(env, a.provider, rec)
        case Err(e) => Err(e)
        case Ok(p) =>
          if !CommitmentMatches(env.hash, rec, args.userContribution, args.providerContribution) then Err(IncorrectRevelation)
          else match Blockhash(env.slotHashes, rec.useBlockhash, rec.requestSlot)
            case Err(e) => Err(e)
            case Ok(blockhash) => Ok((rec, p, blockhash))
  }

  /**
   * The honest parties pass every check of this draft, whatever provider
   * and number the arguments name.
   */
  lemma HonestRevealPasses(env: Env, a: RevealAccounts, args: Instruction.RevealArgs, p: Provider,
                           seed: Bytes32, chainLength: nat, start: nat,
                           requesterProgram: Pubkey, payer: Pubkey, useBlockhash: byte)
    requires CheckRevealAccounts(env, a).Ok?
    requires var rec := CheckRevealAccounts(env, a).value;
      rec.callbackStatus == CALLBACK_NOT_STARTED
      && a.provider.key == ProviderPda(env, rec.provider).address
      && LoadProvider(a.provider, env.programId).Ok?
      && IssuedRecord(rec, env, p, rec.sequenceNumber, Hashv(env.hash, [args.userContribution]),
                      requesterProgram, payer, useBlockhash)
      && start <= p.currentCommitmentSequenceNumber && rec.sequenceNumber <= start + chainLength
      && p.currentCommitment == HonestContribution(env.hash, seed, chainLength, start, p.currentCommitmentSequenceNumber)
      && args.providerContribution == HonestContribution(env.hash, seed, chainLength, start, rec.sequenceNumber)
      && Blockhash(env.slotHashes, rec.useBlockhash, rec.requestSlot).Ok?
    ensures CheckReveal(env, a, args).Ok?
  {
    var rec := CheckRevealAccounts(env, a).value;
    HonestRevealAccepted(env, p, rec, args.userContribution, seed, chainLength, start, requesterProgram, payer, useBlockhash);
  }

  /**
   * The accounts of the callback instruction: the entropy signer (a signer,
   * not writable), then each supplied account with its own flags.
   */
  function CallbackMetas(entropySigner: Pubkey, s: seq<Account>): (r: seq<AccountMeta>)
    ensures |r| == |s| + 1 && r[0] == AccountMeta(entropySigner, false, true)
    ensures forall i :: 0 <= i < |s| ==> r[i + 1] == AccountMeta(s[i].key, s[i].isWritable, s[i].isSigner)
  {
    [AccountMeta(entropySigner, false, true)]
    + seq(|s|, i requires 0 <= i < |s| => AccountMeta(s[i].key, s[i].isWritable, s[i].isSigner))
  }

  /**
   * `build_callback_ix`: the callback program, the entropy signer and the
   * supplied accounts, and the callback data (InvalidInstructionData when
   * the stored length exceeds the buffer).
   */
  function BuildCallbackIx(programId: Pubkey, entropySigner: Pubkey, callbackAccounts: seq<Account>, len: u16,
                           ixData: Bytes256, sequenceNumber: u64, provider: Pubkey, random: Bytes32)
    : (r: Result<Accounts.Instruction>)
    ensures r.Ok? <==> len <= CALLBACK_IX_DATA_LEN
    ensures r.Ok? ==> r.value.programId == programId && r.value.accounts == CallbackMetas(entropySigner, callbackAccounts)
                      && CallbackPayload(ixData, len, sequenceNumber, provider, random) == Ok(r.value.data)
    ensures r.Err? ==> r.error == InvalidInstructionData
  {
    var data :- CallbackPayload(ixData, len, sequenceNumber, provider, random);
    Ok(Accounts.Instruction(programId, CallbackMetas(entropySigner, callbackAccounts), data))
  }

  /** The checks of `CheckReveal`, in the handler's own steps. */
  method RunRevealChecks(env: Env, a: RevealAccounts, args: Instruction.RevealArgs)
    returns (r: Result<(Request, Provider, Bytes32)>)
    ensures r == CheckReveal(env, a, args)
  {
    var rec :- CheckRevealAccounts(env, a);
    if rec.callbackStatus != CALLBACK_NOT_STARTED {
      return Err(InvalidRevealCall);
    }
    var p :- LoadRevealProvider(env, a.provider, rec);
    var providerCommitment := HashProviderCommitment(env.hash, args.providerContribution, rec.numHashes);
    var userCommitment := env.hash(args.userContribution);
    if Hashv(env.hash, [userCommitment, providerCommitment]) != rec.commitment {
      return Err(IncorrectRevelation);
    }
    var blockhash :- Blockhash(env.slotHashes, rec.useBlockhash, rec.requestSlot);
    return Ok((rec, p, blockhash));
  }

  /**
   * What a reveal of a NOT_STARTED request may go on with: the callback
   * program account is the requester program, the stored number of
   * callback accounts is within the limit and supplied, each supplied
   * account matches its stored entry, and the callback is `None` when the
   * compute-unit limit is zero and otherwise the instruction to the
   * requester program, led by the entropy signer, with the callback
   * payload.
   */
  predicate CallbackReady(a: RevealAccounts, remaining: seq<Account>, rec: Request, random: Bytes32,
                          invoked: Option<Accounts.Instruction>)
  {
    var len := rec.callbackAccountsLen as nat;
    a.callbackProgram.key == rec.requesterProgramId
    && len <= MAX_CALLBACK_ACCOUNTS && len <= |remaining|
    && (forall i :: 0 <= i < len ==> AccountMatches(remaining[i], rec.callbackAccounts[i]))
    && (rec.computeUnitLimit == 0 ==> invoked == None)
    && (rec.computeUnitLimit != 0 ==>
          CallbackPayload(rec.callbackIxData, rec.callbackIxDataLen, rec.sequenceNumber, rec.provider, random).Ok?
          && invoked == Some(Accounts.Instruction(rec.requesterProgramId,
               CallbackMetas(a.entropySigner.key, remaining[..len]),
               CallbackPayload(rec.callbackIxData, rec.callbackIxDataLen, rec.sequenceNumber, rec.provider, random).value)))
  }

  /**
   * The checks before the callback, in source order: the callback program
   * account against the requester program, the number of callback
   * accounts against the limit and against those supplied, each supplied
   * account against its stored entry (all InvalidAccount), and, when the
   * callback is to be invoked, the stored data length against the buffer
   * (InvalidInstructionData).
   */
  function CallbackCheck(a: RevealAccounts, remaining: seq<Account>, rec: Request): Result<()>
  {
    var len := rec.callbackAccountsLen as nat;
    if a.callbackProgram.key != rec.requesterProgramId then Err(InvalidAccount)
    else if len > MAX_CALLBACK_ACCOUNTS || |remaining| < len then Err(InvalidAccount)
    else if !(forall i :: 0 <= i < len ==> AccountMatches(remaining[i], rec.callbackAccounts[i])) then Err(InvalidAccount)
    else if rec.computeUnitLimit != 0 && rec.callbackIxDataLen > CALLBACK_IX_DATA_LEN then Err(InvalidInstructionData)
    else Ok(())
  }

  /**
   * The closing checks, in source order: the payer account must be the
   * stored payer and writable (InvalidAccount), and its balance plus the
   * request's must fit in a u64 (InvalidArgument).
   */
  function CloseCheck(payer: Account, rec: Request, requestLamports: u64): Result<()>
    reads payer
  {
    if payer.key != rec.payer || !payer.isWritable then Err(InvalidAccount)
    else if requestLamports + payer.lamports > U64_MAX then Err(InvalidArgument)
    else Ok(())
  }

  /**
   * The whole outcome of a reveal: the reveal checks, the callback checks,
   * a failed callback (CpiFailed), then the closing checks.
   */
  function RevealOutcome(env: Env, a: RevealAccounts, payer: Account, remaining: seq<Account>,
                         args: Instruction.RevealArgs, callbackSucceeds: bool): Result<()>
    reads a.request, a.provider, payer
  {
    match CheckReveal(env, a, args)
    case Err(e) => Err(e)
    case Ok(checked) =>
      var rec := checked.0;
      var _ :- CallbackCheck(a, remaining, rec);
      if rec.computeUnitLimit != 0 && !callbackSucceeds then Err(CpiFailed)
      else CloseCheck(payer, rec, a.request.lamports)
  }

  /**
   * The callback program account, the number of callback accounts, each
   * supplied account against its stored entry, and the callback
   * instruction when the compute-unit limit is not zero. It fails exactly
   * when `CallbackCheck` does, with its error.
   */
  method PrepareCallback(a: RevealAccounts, remaining: seq<Account>, rec: Request, random: Bytes32)
    returns (r: Result<Option<Accounts.Instruction>>)
    requires rec.callbackStatus == CALLBACK_NOT_STARTED
    ensures r.Ok? <==> CallbackCheck(a, remaining, rec).Ok?
    ensures r.Err? ==> r.error == CallbackCheck(a, remaining, rec).error
    ensures r.Ok? ==> CallbackReady(a, remaining, rec, random, r.value)
  {
    if a.callbackProgram.key != rec.requesterProgramId {
      return Err(InvalidAccount);
    }
    var len := rec.callbackAccountsLen as nat;
    if len > MAX_CALLBACK_ACCOUNTS {
      return Err(InvalidAccount);
    }
    if |remaining| < len {
      return Err(InvalidAccount);
    }
    var callbackAccounts := remaining[..len];
    var _ :- ValidateCallbackAccounts(rec, callbackAccounts);
    if rec.computeUnitLimit != 0 && rec.callbackStatus == CALLBACK_NOT_STARTED {
      var ix :- BuildCallbackIx(a.callbackProgram.key, a.entropySigner.key, callbackAccounts, rec.callbackIxDataLen,
                                rec.callbackIxData, rec.sequenceNumber, rec.provider, random);
      return Ok(Some(ix));
    }
    return Ok(None);
  }

  /**
   * The closing of a revealed request: the payer account must be the
   * stored payer and writable (InvalidAccount) and the balances must not
   * overflow (InvalidArgument); then the provider's head advances and the
   * request's lamports move to the payer, while the request's data stays,
   * so the same reveal passes every check again. A failure changes nothing.
   */
  method CloseRequest(env: Env, a: RevealAccounts, args: Instruction.RevealArgs,
                      rec: Request, p: Provider, blockhash: Bytes32, payer: Account)
    returns (r: Result<()>)
    requires a.request != a.provider && payer != a.request && payer != a.provider
    requires CheckReveal(env, a, args) == Ok((rec, p, blockhash))
    modifies a.request, a.provider, payer
    ensures r.Err? ==> unchanged(a.request, a.provider, payer)
    ensures r == old(CloseCheck(payer, rec, a.request.lamports))
    ensures unchanged(a.provider`owner, a.provider`lamports)
    ensures r.Ok? ==>
      a.provider.data == ProviderData(AdvanceHead(p, rec.sequenceNumber, args.providerContribution))
      && payer.key == rec.payer && payer.isWritable
      && a.request.lamports == 0 && payer.lamports == old(payer.lamports) + old(a.request.lamports)
      && a.request.data == old(a.request.data) && a.request.owner == old(a.request.owner)
      && payer.data == old(payer.data) && payer.owner == old(payer.owner)
      && CheckReveal(env, a, args) == Ok((rec, AdvanceHead(p, rec.sequenceNumber, args.providerContribution), blockhash))
  {
    if payer.key != rec.payer || !payer.isWritable {
      return Err(InvalidAccount);
    }
    var closed :- CloseBalances(a.request.lamports, payer.lamports);
    a.provider.data := ProviderData(AdvanceHead(p, rec.sequenceNumber, args.providerContribution));
    a.request.lamports := closed.0;
    payer.lamports := closed.1;
    return Ok(());
  }

  /**
   * `process_reveal_with_callback`. It succeeds exactly when `RevealOutcome`
   * does, with its error otherwise. Every failure leaves the accounts as
   * they were. On success the checks of `CheckReveal` held, the callback
   * program is the requester program, the supplied callback accounts match
   * the stored ones, the provider's head advanced to the revealed number,
   * the callback was invoked exactly when the compute-unit limit is not
   * zero, and the request's lamports moved to the payer account named in
   * the request. The request's data is left as it was, so the same reveal
   * passes every check again on the accounts as they are afterwards.
   * `callbackSucceeds` is the outcome of the callback invocation.
   */
  method ProcessRevealWithCallback(env: Env, a: RevealAccounts, payer: Account, remaining: seq<Account>,
                                   args: Instruction.RevealArgs, callbackSucceeds: bool)
    returns (r: Result<Option<Accounts.Instruction>>)
    requires a.request != a.provider && payer != a.request && payer != a.provider
    modifies a.request, a.provider, payer
    ensures r.Err? ==> unchanged(a.request, a.provider, payer)
    ensures r.Ok? <==> old(RevealOutcome(env, a, payer, remaining, args, callbackSucceeds)).Ok?
    ensures r.Err? ==> r.error == old(RevealOutcome(env, a, payer, remaining, args, callbackSucceeds)).error
    ensures unchanged(a.provider`owner, a.provider`lamports)
    ensures r.Err? && r.error == CpiFailed ==> !callbackSucceeds
    ensures r.Ok? ==> old(CheckReveal(env, a, args)).Ok?
    ensures r.Ok? ==>
      var (rec, p, blockhash) := old(CheckReveal(env, a, args)).value;
      var random := RandomValue(env.hash, args.userContribution, args.providerContribution, blockhash);
      a.provider.data == ProviderData(AdvanceHead(p, rec.sequenceNumber, args.providerContribution))
      && CallbackReady(a, remaining, rec, random, r.value)
      && (rec.computeUnitLimit != 0 ==> callbackSucceeds)
      && payer.key == rec.payer && payer.isWritable
      && a.request.lamports == 0 && payer.lamports == old(payer.lamports) + old(a.request.lamports)
      && a.request.data == old(a.request.data) && a.request.owner == old(a.request.owner)
      && payer.data == old(payer.data) && payer.owner == old(payer.owner)
    ensures r.Ok? ==>
      var (rec, p, blockhash) := old(CheckReveal(env, a, args)).value;
      CheckReveal(env, a, args) == Ok((rec, AdvanceHead(p, rec.sequenceNumber, args.providerContribution), blockhash))
  {
    var checked :- RunRevealChecks(env, a, args);
    var rec, p, blockhash := checked.0, checked.1, checked.2;
    var random := RandomValue(env.hash, args.userContribution, args.providerContribution, blockhash);
    var invoked :- PrepareCallback(a, remaining, rec, random);
    if invoked.Some? && !callbackSucceeds {
      return Err(CpiFailed);
    }
    var _ :- CloseRequest(env, a, args, rec, p, blockhash, payer);
    return Ok(invoked);
  }

}
