/**
 * `process_reveal_with_callback` of the `programs/entropy` draft: the
 * reveal checks, the provider's chain-head advance, the callback through
 * the stored program with the supplied accounts, and the closing of the
 * request account into the payer's, whose data is zero-filled. A callback
 * that fails on its first attempt marks the request FAILED instead, so
 * that the reveal can be retried.
 */
module NativeReveal {
  import opened Common
  import opened Hashing
  import opened Accounts
  import opened ProviderChain
  import opened CallbackArgs
  import opened RequestIssue
  import opened RevealCore
  import Instruction

  /** The statuses this draft reveals: not started, or failed once before. */
  predicate Revealable(status: byte)
  {
    status == CALLBACK_NOT_STARTED || status == CALLBACK_FAILED
  }

  /**
   * The checks of a reveal up to the random value, in source order:
   * `CheckRevealAccounts`, the status (InvalidRevealCall), the request's
   * provider and number against the arguments (InvalidAccount), the
   * provider account, the commitment (IncorrectRevelation) and the
   * blockhash. The result is the request, the provider and the blockhash.
   */
  function CheckReveal(env: Env, a: RevealAccounts, args: Instruction.RevealArgs): (r: Result<(Request, Provider, Bytes32)>)
    reads a.request, a.provider
    ensures r.Ok? ==>
      CheckRevealAccounts(env, a) == Ok(r.value.0)
      && Revealable(r.value.0.callbackStatus)
      && r.value.0.provider == args.provider && r.value.0.sequenceNumber == args.sequenceNumber
      && LoadRevealProvider(env, a.provider, r.value.0) == Ok(r.value.1)
      && CommitmentMatches(env.hash, r.value.0, args.userContribution, args.providerContribution)
      && Blockhash(env.slotHashes, r.value.0.useBlockhash, r.value.0.requestSlot) == Ok(r.value.2)
    ensures CheckRevealAccounts(env, a).Err? ==> r == Err(CheckRevealAccounts(env, a).error)
    ensures CheckRevealAccounts(env, a).Ok? && !Revealable(CheckRevealAccounts(env, a).value.callbackStatus)
            ==> r == Err(InvalidRevealCall)
    ensures CheckRevealAccounts(env, a).Ok? && Revealable(CheckRevealAccounts(env, a).value.callbackStatus)
            && (CheckRevealAccounts(env, a).value.provider != args.provider
                || CheckRevealAccounts(env, a).value.sequenceNumber != args.sequenceNumber)
            ==> r == Err(InvalidAccount)
    ensures r.Err? && r.error == IncorrectRevelation ==>
      CheckRevealAccounts(env, a).Ok?
      && LoadRevealProvider(env, a.provider, CheckRevealAccounts(env, a).value).Ok?
      && !CommitmentMatches(env.hash, CheckRevealAccounts(env, a).value, args.userContribution, args.providerContribution)
  {
    match CheckRevealAccounts(env, a)
    case Err(e) => Err(e)
    case Ok(rec) =>
      if !Revealable(rec.callbackStatus) then Err(InvalidRevealCall)
      else if rec.provider != args.provider || rec.sequenceNumber != args.sequenceNumber then Err(InvalidAccount)
      else match LoadRevealProvider(env, a.provider, rec)
        case Err(e) => Err(e)
        case Ok(p) =>
          if !CommitmentMatches(env.hash, rec, args.userContribution, args.providerContribution) then Err(IncorrectRevelation)
          else match Blockhash(env.slotHashes, rec.useBlockhash, rec.requestSlot)
            case Err(e) => Err(e)
            case Ok(blockhash) => Ok((rec, p, blockhash))
  }

  /**
   * The honest parties pass every check: well-formed accounts, a pending
   * request issued with the user commitment `hash(x)` against an honest
   * chain head, arguments naming that request and carrying `x` and the
   * provider's honest value, and an available blockhash.
   */
  lemma HonestRevealPasses(env: Env, a: RevealAccounts, args: Instruction.RevealArgs, p: Provider,
                           seed: Bytes32, chainLength: nat, start: nat,
                           requesterProgram: Pubkey, payer: Pubkey, useBlockhash: byte)
    requires CheckRevealAccounts(env, a).Ok?
    requires var rec := CheckRevealAccounts(env, a).value;
      Revealable(rec.callbackStatus)
      && a.provider.key == ProviderPda(env, rec.provider).address
      && LoadProvider(a.provider, env.programId).Ok?
      && IssuedRecord(rec, env, p, rec.sequenceNumber, Hashv(env.hash, [args.userContribution]),
                      requesterProgram, payer, useBlockhash)
      && start <= p.currentCommitmentSequenceNumber && rec.sequenceNumber <= start + chainLength
      && p.currentCommitment == HonestContribution(env.hash, seed, chainLength, start, p.currentCommitmentSequenceNumber)
      && args == Instruction.RevealArgs(rec.provider, rec.sequenceNumber, args.userContribution,
                                        HonestContribution(env.hash, seed, chainLength, start, rec.sequenceNumber))
      && Blockhash(env.slotHashes, rec.useBlockhash, rec.requestSlot).Ok?
    ensures CheckReveal(env, a, args).Ok?
  {
    var rec := CheckRevealAccounts(env, a).value;
    HonestRevealAccepted(env, p, rec, args.userContribution, seed, chainLength, start, requesterProgram, payer, useBlockhash);
  }

  /** `AccountMeta`s copying each supplied account's key and flags. */
  function AccountMetasOf(s: seq<Account>): (r: seq<AccountMeta>)
    ensures |r| == |s|
    ensures forall i :: 0 <= i < |s| ==> r[i] == AccountMeta(s[i].key, s[i].isWritable, s[i].isSigner)
  {
    seq(|s|, i requires 0 <= i < |s| => AccountMeta(s[i].key, s[i].isWritable, s[i].isSigner))
  }

  /**
   * `build_callback_ix`: the callback program, the supplied accounts as
   * they were passed, and the callback data (InvalidInstructionData when
   * the stored length exceeds the buffer).
   */
  function BuildCallbackIx(programId: Pubkey, callbackAccounts: seq<Account>, len: u16, ixData: Bytes256,
                           sequenceNumber: u64, provider: Pubkey, random: Bytes32): (r: Result<Accounts.Instruction>)
    ensures r.Ok? <==> len <= CALLBACK_IX_DATA_LEN
    ensures r.Ok? ==> r.value.programId == programId && r.value.accounts == AccountMetasOf(callbackAccounts)
                      && CallbackPayload(ixData, len, sequenceNumber, provider, random) == Ok(r.value.data)
    ensures r.Err? ==> r.error == InvalidInstructionData
  {
    var data :- CallbackPayload(ixData, len, sequenceNumber, provider, random);
    Ok(Accounts.Instruction(programId, AccountMetasOf(callbackAccounts), data))
  }

  /** The checks of `CheckReveal`, in the handler's own steps. */
  method RunRevealChecks(env: Env, a: RevealAccounts, args: Instruction.RevealArgs)
    returns (r: Result<(Request, Provider, Bytes32)>)
    ensures r == CheckReveal(env, a, args)
  {
    var rec :- CheckRevealAccounts(env, a);
    if !Revealable(rec.callbackStatus) {
      return Err(InvalidRevealCall);
    }
    if rec.provider != args.provider {
      return Err(InvalidAccount);
    }
    if rec.sequenceNumber != args.sequenceNumber {
      return Err(InvalidAccount);
    }
    var p :- LoadRevealProvider(env, a.provider, rec);
    var providerCommitment := HashProviderCommitment(env.hash, args.providerContribution, rec.numHashes);
    var userCommitment := env.hash(args.userContribution);
    if Hashv(env.hash, [userCommitment, providerCommitment]) != rec.commitment {
      return Err(IncorrectRevelation);
    }
    var blockhash :- Blockhash(env.slotHashes, rec.useBlockhash, rec.requestSlot);
    return Ok((rec, p, blockhash));
  }

  /**
   * What a reveal may go on with: the stored number of callback accounts is
   * within the limit and supplied, each supplied account matches its
   * stored entry, and the callback is `None` when the request names no
   * program, and otherwise the instruction to the stored program, passed
   * as the callback program account, with the supplied accounts and the
   * callback payload.
   */
  predicate CallbackReady(a: RevealAccounts, remaining: seq<Account>, rec: Request, random: Bytes32,
                          invoked: Option<Accounts.Instruction>)
  {
    var len := rec.callbackAccountsLen as nat;
    len <= MAX_CALLBACK_ACCOUNTS && len <= |remaining|
    && (forall i :: 0 <= i < len ==> AccountMatches(remaining[i], rec.callbackAccounts[i]))
    && (rec.callbackProgramId == ZERO32 ==> invoked == None)
    && (rec.callbackProgramId != ZERO32 ==>
          a.callbackProgram.key == rec.callbackProgramId
          && CallbackPayload(rec.callbackIxData, rec.callbackIxDataLen, rec.sequenceNumber, rec.provider, random).Ok?
          && invoked == Some(Accounts.Instruction(rec.callbackProgramId, AccountMetasOf(remaining[..len]),
               CallbackPayload(rec.callbackIxData, rec.callbackIxDataLen, rec.sequenceNumber, rec.provider, random).value)))
  }

  /**
   * The checks before the callback, in source order: the callback program
   * account when the request names a program, the number of callback
   * accounts against the limit and against those supplied, each supplied
   * account against its stored entry (all InvalidAccount), and the stored
   * data length against the buffer (InvalidInstructionData).
   */
  function CallbackCheck(a: RevealAccounts, remaining: seq<Account>, rec: Request): Result<()>
  {
    var len := rec.callbackAccountsLen as nat;
    if rec.callbackProgramId != ZERO32 && a.callbackProgram.key != rec.callbackProgramId then Err(InvalidAccount)
    else if len > MAX_CALLBACK_ACCOUNTS || |remaining| < len then Err(InvalidAccount)
    else if !(forall i :: 0 <= i < len ==> AccountMatches(remaining[i], rec.callbackAccounts[i])) then Err(InvalidAccount)
    else if rec.callbackProgramId != ZERO32 && rec.callbackIxDataLen > CALLBACK_IX_DATA_LEN then Err(InvalidInstructionData)
    else Ok(())
  }

  /**
   * The closing checks, in source order: the refund account supplied right
   * after the callback accounts must be the stored payer and writable
   * (InvalidAccount), and its balance plus the request's must fit in a u64
   * (InvalidArgument).
   */
  function CloseCheck(remaining: seq<Account>, rec: Request, requestLamports: u64): Result<()>
    reads remaining
  {
    var len := rec.callbackAccountsLen as nat;
    if |remaining| <= len || remaining[len].key != rec.payer || !remaining[len].isWritable then Err(InvalidAccount)
    else if requestLamports + remaining[len].lamports > U64_MAX then Err(InvalidArgument)
    else Ok(())
  }

  /**
   * The whole outcome of a reveal: the reveal checks, the callback checks,
   * then either the first failed callback (success, the request is kept),
   * a repeated failed callback (CpiFailed), or the closing checks.
   */
  function RevealOutcome(env: Env, a: RevealAccounts, remaining: seq<Account>, args: Instruction.RevealArgs,
                         callbackSucceeds: bool): Result<()>
    reads a.request, a.provider, remaining
  {
    match CheckReveal(env, a, args)
    case Err(e) => Err(e)
    case Ok(checked) =>
      var rec := checked.0;
      var _ :- CallbackCheck(a, remaining, rec);
      if rec.callbackProgramId != ZERO32 && !callbackSucceeds then
        if rec.callbackStatus == CALLBACK_NOT_STARTED then Ok(()) else Err(CpiFailed)
      else CloseCheck(remaining, rec, a.request.lamports)
  }

  /**
   * The callback program account, the number of callback accounts, each
   * supplied account against its stored entry, and the callback
   * instruction when the request names a program (`None` when it names
   * none). It fails exactly when `CallbackCheck` does, with its error.
   */
  method PrepareCallback(a: RevealAccounts, remaining: seq<Account>, rec: Request, random: Bytes32)
    returns (r: Result<Option<Accounts.Instruction>>)
    ensures r.Ok? <==> CallbackCheck(a, remaining, rec).Ok?
    ensures r.Err? ==> r.error == CallbackCheck(a, remaining, rec).error
    ensures r.Ok? ==> CallbackReady(a, remaining, rec, random, r.value)
  {
    if rec.callbackProgramId != ZERO32 && a.callbackProgram.key != rec.callbackProgramId {
      return Err(InvalidAccount);
    }
    var len := rec.callbackAccountsLen as nat;
    if len > MAX_CALLBACK_ACCOUNTS {
      return Err(InvalidAccount);
    }
    if |remaining| < len {
      return Err(InvalidAccount);
    }
    var callbackAccounts := remaining[..len];
    var _ :- ValidateCallbackAccounts(rec, callbackAccounts);
    if rec.callbackProgramId == ZERO32 {
      return Ok(None);
    }
    var ix :- BuildCallbackIx(a.callbackProgram.key, callbackAccounts, rec.callbackIxDataLen, rec.callbackIxData,
                              rec.sequenceNumber, rec.provider, random);
    return Ok(Some(ix));
  }

  /**
   * The refund account, supplied right after the callback accounts: it
   * must be present, be the stored payer and be writable, else
   * InvalidAccount.
   */
  method RefundAccount(remaining: seq<Account>, rec: Request) returns (r: Result<Account>)
    ensures r.Ok? <==> rec.callbackAccountsLen as nat < |remaining|
                       && remaining[rec.callbackAccountsLen].key == rec.payer
                       && remaining[rec.callbackAccountsLen].isWritable
    ensures r.Ok? ==> r.value == remaining[rec.callbackAccountsLen]
    ensures r.Err? ==> r.error == InvalidAccount
  {
    var len := rec.callbackAccountsLen as nat;
    if |remaining| <= len {
      return Err(InvalidAccount);
    }
    var refund := remaining[len];
    if refund.key != rec.payer || !refund.isWritable {
      return Err(InvalidAccount);
    }
    return Ok(refund);
  }

  /**
   * The first failed callback: the provider's head advances and the request
   * is kept, marked FAILED, with its lamports; the same reveal then passes
   * every check again.
   */
  method MarkFailed(env: Env, a: RevealAccounts, args: Instruction.RevealArgs,
                    rec: Request, p: Provider, blockhash: Bytes32)
    requires a.request != a.provider
    requires CheckReveal(env, a, args) == Ok((rec, p, blockhash))
    modifies a.request, a.provider
    ensures a.provider.data == ProviderData(AdvanceHead(p, rec.sequenceNumber, args.providerContribution))
    ensures a.provider.lamports == old(a.provider.lamports) && a.provider.owner == old(a.provider.owner)
    ensures a.request.data == RequestData(rec.(callbackStatus := CALLBACK_FAILED))
    ensures a.request.lamports == old(a.request.lamports) && a.request.owner == old(a.request.owner)
    ensures CheckReveal(env, a, args)
            == Ok((rec.(callbackStatus := CALLBACK_FAILED), AdvanceHead(p, rec.sequenceNumber, args.providerContribution), blockhash))
  {
    a.provider.data := ProviderData(AdvanceHead(p, rec.sequenceNumber, args.providerContribution));
    a.request.data := RequestData(rec.(callbackStatus := CALLBACK_FAILED));
  }

  /**
   * The closing of a revealed request: the refund account is looked up
   * (InvalidAccount) and the balances checked (InvalidArgument), and then
   * the provider's head advances, the request's lamports move to the refund
   * account and its data is zero-filled, so the same reveal now fails with
   * InvalidAccount. A failure changes nothing.
   */
  method CloseRequest(env: Env, a: RevealAccounts, args: Instruction.RevealArgs,
                      rec: Request, p: Provider, blockhash: Bytes32, remaining: seq<Account>)
    returns (r: Result<()>)
    requires a.request != a.provider && a.request !in remaining && a.provider !in remaining
    requires CheckReveal(env, a, args) == Ok((rec, p, blockhash))
    modifies a.request, a.provider, remaining
    ensures r.Err? ==> unchanged(a.request, a.provider) && unchanged(remaining)
    ensures r == old(CloseCheck(remaining, rec, a.request.lamports))
    ensures unchanged(a.provider`owner, a.provider`lamports)
    ensures r.Ok? ==>
      var len := rec.callbackAccountsLen as nat;
      a.provider.data == ProviderData(AdvanceHead(p, rec.sequenceNumber, args.providerContribution))
      && len < |remaining|
      && remaining[len].key == rec.payer && remaining[len].isWritable
      && a.request.lamports == 0 && a.request.data == Zeroed && a.request.owner == old(a.request.owner)
      && remaining[len].lamports == old(remaining[len].lamports) + old(a.request.lamports)
      && remaining[len].data == old(remaining[len].data) && remaining[len].owner == old(remaining[len].owner)
      && (forall x :: x in remaining && x != remaining[len] ==> unchanged(x))
      && CheckReveal(env, a, args) == Err(InvalidAccount)
  {
    var refund :- RefundAccount(remaining, rec);
    var closed :- CloseBalances(a.request.lamports, refund.lamports);
    a.provider.data := ProviderData(AdvanceHead(p, rec.sequenceNumber, args.providerContribution));
    a.request.lamports := closed.0;
    refund.lamports := closed.1;
    a.request.data := Zeroed;
    return Ok(());
  }

  /**
   * What follows the callback: after a failed callback on a first attempt
   * the request is marked FAILED and kept, after a failed retry the reveal
   * fails with CpiFailed, and otherwise the request is closed.
   */
  method Settle(env: Env, a: RevealAccounts, args: Instruction.RevealArgs, rec: Request, p: Provider,
                blockhash: Bytes32, remaining: seq<Account>, failed: bool)
    returns (r: Result<()>)
    requires a.request != a.provider && a.request !in remaining && a.provider !in remaining
    requires CheckReveal(env, a, args) == Ok((rec, p, blockhash))
    modifies a.request, a.provider, remaining
    ensures r.Err? ==> unchanged(a.request, a.provider) && unchanged(remaining)
    ensures failed ==> r == if rec.callbackStatus == CALLBACK_NOT_STARTED then Ok(()) else Err(CpiFailed)
    ensures !failed ==> r == old(CloseCheck(remaining, rec, a.request.lamports))
    ensures unchanged(a.provider`owner, a.provider`lamports)
    ensures r.Ok? ==> a.provider.data == ProviderData(AdvanceHead(p, rec.sequenceNumber, args.providerContribution))
    ensures r.Ok? && failed ==>
      a.request.data == RequestData(rec.(callbackStatus := CALLBACK_FAILED))
      && a.request.lamports == old(a.request.lamports) && a.request.owner == old(a.request.owner)
      && unchanged(remaining)
      && CheckReveal(env, a, args)
         == Ok((rec.(callbackStatus := CALLBACK_FAILED), AdvanceHead(p, rec.sequenceNumber, args.providerContribution), blockhash))
    ensures r.Ok? && !failed ==>
      var len := rec.callbackAccountsLen as nat;
      len < |remaining|
      && remaining[len].key == rec.payer && remaining[len].isWritable
      && a.request.lamports == 0 && a.request.data == Zeroed && a.request.owner == old(a.request.owner)
      && remaining[len].lamports == old(remaining[len].lamports) + old(a.request.lamports)
      && remaining[len].data == old(remaining[len].data) && remaining[len].owner == old(remaining[len].owner)
      && (forall x :: x in remaining && x != remaining[len] ==> unchanged(x))
      && CheckReveal(env, a, args) == Err(InvalidAccount)
  {
    if failed {
      if rec.callbackStatus == CALLBACK_NOT_STARTED {
        MarkFailed(env, a, args, rec, p, blockhash);
        return Ok(());
      }
      return Err(CpiFailed);
    }
    r := CloseRequest(env, a, args, rec, p, blockhash, remaining);
  }

  /**
   * `process_reveal_with_callback`. It succeeds exactly when `RevealOutcome`
   * does, with its error otherwise. Every failure leaves the accounts as
   * they were. On success the checks of `CheckReveal` held, the provider's
   * head advanced to the revealed number, the callback (when the request
   * names a program) was invoked with the stored prefix, the number, the
   * provider and the random value, and then either
   *  - the callback failed on a first attempt: the request is kept and
   *    marked FAILED, with its lamports, and the same reveal passes every
   *    check again; or
   *  - the request account is closed: its lamports move to the payer's
   *    account, supplied right after the callback accounts, and its data is
   *    zero-filled, so the request can never be revealed again.
   * `callbackSucceeds` is the outcome of the callback invocation.
   */
  method ProcessRevealWithCallback(env: Env, a: RevealAccounts, remaining: seq<Account>,
                                   args: Instruction.RevealArgs, callbackSucceeds: bool)
    returns (r: Result<Option<Accounts.Instruction>>)
    requires a.request != a.provider && a.request !in remaining && a.provider !in remaining
    modifies a.request, a.provider, remaining
    ensures r.Err? ==> unchanged(a.request, a.provider) && unchanged(remaining)
    ensures r.Ok? <==> old(RevealOutcome(env, a, remaining, args, callbackSucceeds)).Ok?
    ensures r.Err? ==> r.error == old(RevealOutcome(env, a, remaining, args, callbackSucceeds)).error
    ensures unchanged(a.provider`owner, a.provider`lamports)
    ensures r.Err? && r.error == CpiFailed ==> !callbackSucceeds
    ensures r.Ok? ==> old(CheckReveal(env, a, args)).Ok?
    ensures r.Ok? ==>
      var (rec, p, blockhash) := old(CheckReveal(env, a, args)).value;
      var random := RandomValue(env.hash, args.userContribution, args.providerContribution, blockhash);
      var len := rec.callbackAccountsLen as nat;
      var failed := rec.callbackProgramId != ZERO32 && !callbackSucceeds;
      a.provider.data == ProviderData(AdvanceHead(p, rec.sequenceNumber, args.providerContribution))
      && CallbackReady(a, remaining, rec, random, r.value)
      && (failed ==>
            rec.callbackStatus == CALLBACK_NOT_STARTED
            && a.request.data == RequestData(rec.(callbackStatus := CALLBACK_FAILED))
            && a.request.lamports == old(a.request.lamports) && a.request.owner == old(a.request.owner)
            && unchanged(remaining))
      && (!failed ==>
            len < |remaining|
            && remaining[len].key == rec.payer && remaining[len].isWritable
            && a.request.lamports == 0 && a.request.data == Zeroed && a.request.owner == old(a.request.owner)
            && remaining[len].lamports == old(remaining[len].lamports) + old(a.request.lamports)
            && remaining[len].data == old(remaining[len].data) && remaining[len].owner == old(remaining[len].owner)
            && forall x :: x in remaining && x != remaining[len] ==> unchanged(x))
    ensures r.Ok? ==>
      var (rec, p, blockhash) := old(CheckReveal(env, a, args)).value;
      if rec.callbackProgramId != ZERO32 && !callbackSucceeds
      then CheckReveal(env, a, args)
           == Ok((rec.(callbackStatus := CALLBACK_FAILED), AdvanceHead(p, rec.sequenceNumber, args.providerContribution), blockhash))
      else CheckReveal(env, a, args) == Err(InvalidAccount)
  {
    var checked :- RunRevealChecks(env, a, args);
    var rec, p, blockhash := checked.0, checked.1, checked.2;
    var random := RandomValue(env.hash, args.userContribution, args.providerContribution, blockhash);
    var invoked :- PrepareCallback(a, remaining, rec, random);
    var _ :- Settle(env, a, args, rec, p, blockhash, remaining, invoked.Some? && !callbackSucceeds);
    return Ok(invoked);
  }

}
