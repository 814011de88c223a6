/**
 * The sample requester program: it routes its instructions by a leading
 * action byte, forwards request instructions to the Entropy program under
 * its requester-signer PDA, and receives the reveal's callback, whose data
 * it decodes and stores in a `CallbackState` account.
 */
module SimpleRequester {
  import opened Common
  import opened Accounts
  import Instruction
  import RevealCore
  import PinocchioReveal

  const REQUEST_ACTION: byte := 0
  const REQUEST_WITH_CALLBACK_ACTION: byte := 1
  const CALLBACK_ACTION: byte := 0xCB

  // ---------------------------------------------------------------------
  // Routing
  // ---------------------------------------------------------------------

  /**
   * An instruction of the requester and the bytes its handler reads; a
   * request also carries the offset of those bytes in the instruction data,
   * which decides whether they can be cast in place.
   */
  datatype Action =
    | RequestAction(payload: seq<byte>, at: nat)
    | RequestWithCallbackAction(payload: seq<byte>)
    | CallbackAction(payload: seq<byte>)

  /**
   * `process_instruction`'s dispatch: empty data is InvalidInstructionData;
   * the three action bytes select a handler that reads the rest of the
   * data, one byte into the instruction data; any other first byte is
   * taken as the start of raw `RequestArgs`, at offset 0, accepted when the
   * data is exactly their size.
   */
  function Route(data: seq<byte>): (r: Result<Action>)
    ensures data == [] ==> r == Err(InvalidInstructionData)
    ensures data != [] && data[0] == REQUEST_ACTION ==> r == Ok(RequestAction(data[1..], 1))
    ensures data != [] && data[0] == REQUEST_WITH_CALLBACK_ACTION ==> r == Ok(RequestWithCallbackAction(data[1..]))
    ensures data != [] && data[0] == CALLBACK_ACTION ==> r == Ok(CallbackAction(data[1..]))
    ensures data != [] && data[0] !in {REQUEST_ACTION, REQUEST_WITH_CALLBACK_ACTION, CALLBACK_ACTION} ==>
              r == (if |data| == Instruction.REQUEST_ARGS_LEN then Ok(RequestAction(data, 0)) else Err(InvalidInstructionData))
  {
    if data == [] then Err(InvalidInstructionData)
    else if data[0] == REQUEST_ACTION then Ok(RequestAction(data[1..], 1))
    else if data[0] == REQUEST_WITH_CALLBACK_ACTION then Ok(RequestWithCallbackAction(data[1..]))
    else if data[0] == CALLBACK_ACTION then Ok(CallbackAction(data[1..]))
    else if |data| == Instruction.REQUEST_ARGS_LEN then Ok(RequestAction(data, 0))
    else Err(InvalidInstructionData)
  }

  /**
   * Raw request arguments reach the request handler intact, and aligned,
   * exactly when their first byte (the first byte of the user commitment)
   * is not an action byte; otherwise the first byte is taken as the action
   * and the remaining 39 bytes do not parse as arguments.
   */
  lemma RawRequestArgs(a: Instruction.RequestArgs)
    ensures var data := Instruction.EncodeRequestArgs(a);
      if a.userCommitment[0] !in {REQUEST_ACTION, REQUEST_WITH_CALLBACK_ACTION, CALLBACK_ACTION}
      then Route(data) == Ok(RequestAction(data, 0)) && Instruction.ParseRequestArgs(0, data) == Ok(a)
      else Route(data).Ok? && |Route(data).value.payload| == 39 && Instruction.ParseRequestArgs(1, Route(data).value.payload).Err?
  {
    var data := Instruction.EncodeRequestArgs(a);
    assert data[0] == a.userCommitment[0];
    Instruction.ParseRequestArgsRoundTrip(a, 0);
  }

  /**
   * The REQUEST_ACTION byte leaves the arguments one byte into the
   * instruction data, where `RequestArgs` (4-aligned) cannot be cast: that
   * route never parses, whatever follows the action byte.
   */
  lemma RequestActionNeverParses(data: seq<byte>)
    requires data != [] && data[0] == REQUEST_ACTION
    ensures Route(data) == Ok(RequestAction(data[1..], 1))
    ensures Instruction.ParseRequestArgs(1, data[1..]) == Err(InvalidInstructionData)
  {
  }

  // ---------------------------------------------------------------------
  // Forwarding requests to the Entropy program
  // ---------------------------------------------------------------------

  /** The accounts a forwarded request names, in the order the requester receives them. */
  datatype ForwardAccounts = ForwardAccounts(
    requesterSigner: Pubkey,
    payer: Pubkey,
    requesterProgram: Pubkey,
    request: Pubkey,
    provider: Pubkey,
    providerVault: Pubkey,
    config: Pubkey,
    pythFeeVault: Pubkey,
    systemProgram: Pubkey,
    entropyProgram: Pubkey)

  /**
   * The account list of the forwarded request: requester signer (signer),
   * payer (writable signer), requester program, request (writable signer),
   * provider, provider vault (writable), config, fee vault (writable) and
   * the system program.
   */
  function RequestMetas(k: ForwardAccounts): (r: seq<AccountMeta>)
    ensures |r| == 9
  {
    [AccountMeta(k.requesterSigner, false, true),
     AccountMeta(k.payer, true, true),
     AccountMeta(k.requesterProgram, false, false),
     AccountMeta(k.request, true, true),
     AccountMeta(k.provider, true, false),
     AccountMeta(k.providerVault, true, false),
     AccountMeta(k.config, false, false),
     AccountMeta(k.pythFeeVault, true, false),
     AccountMeta(k.systemProgram, false, false)]
  }

  /** The requester's signer PDA for an Entropy program, derived under the requester. */
  function RequesterSigner(derive: (seq<seq<byte>>, Pubkey) -> Derived, programId: Pubkey, entropyProgram: Pubkey): Derived
  {
    derive([REQUESTER_SIGNER_SEED, entropyProgram], programId)
  }

  /**
   * `process_request`: the payload, `at` bytes into the instruction data,
   * must cast to `RequestArgs` (exactly their size and 4-aligned, else
   * InvalidInstructionData), the requester program must be this
   * program (InvalidArgument) and the requester signer its PDA
   * (InvalidSeeds). The instruction then invoked on the Entropy program is
   * the Request discriminator followed by the arguments' bytes; `invoked`
   * is the Entropy program's answer to it, whose error is passed on.
   */
  function ForwardRequest(programId: Pubkey, derive: (seq<seq<byte>>, Pubkey) -> Derived,
                          requestDiscriminator: seq<byte>, k: ForwardAccounts, at: nat, payload: seq<byte>,
                          invoked: Result<()>)
    : (r: Result<Accounts.Instruction>)
    ensures r.Ok? <==> |payload| == Instruction.REQUEST_ARGS_LEN && Instruction.Aligned(at, Instruction.REQUEST_ARGS_ALIGN)
                       && k.requesterProgram == programId
                       && k.requesterSigner == RequesterSigner(derive, programId, k.entropyProgram).address
                       && invoked.Ok?
    ensures r.Ok? ==> r.value == Accounts.Instruction(k.entropyProgram, RequestMetas(k), requestDiscriminator + payload)
                      && Instruction.ParseRequestArgs(at, payload).Ok?
    ensures Instruction.ParseRequestArgs(at, payload).Err? ==> r == Err(InvalidInstructionData)
    ensures Instruction.ParseRequestArgs(at, payload).Ok? && k.requesterProgram != programId ==> r == Err(InvalidArgument)
    ensures Instruction.ParseRequestArgs(at, payload).Ok? && k.requesterProgram == programId
            && k.requesterSigner != RequesterSigner(derive, programId, k.entropyProgram).address
            ==> r == Err(InvalidSeeds)
    ensures r.Err? ==> r.error in {InvalidInstructionData, InvalidArgument, InvalidSeeds} || invoked == Err(r.error)
  {
    match Instruction.ParseRequestArgs(at, payload)
    case Err(_) => Err(InvalidInstructionData)
    case Ok(_) =>
      if k.requesterProgram != programId then Err(InvalidArgument)
      else
        var ix := Accounts.Instruction(k.entropyProgram, RequestMetas(k), requestDiscriminator + payload);
        if k.requesterSigner != RequesterSigner(derive, programId, k.entropyProgram).address then Err(InvalidSeeds)
        else
          var _ :- invoked;
          Ok(ix)
  }

  /**
   * `process_request_with_callback`: the requester program and the
   * callback program must both be this program (InvalidArgument) and the
   * requester signer its PDA (InvalidSeeds). The payload is forwarded
   * unchanged, with the callback program appended to the account list;
   * `invoked` is the Entropy program's answer, whose error is passed on.
   */
  function ForwardRequestWithCallback(programId: Pubkey, derive: (seq<seq<byte>>, Pubkey) -> Derived,
                                      k: ForwardAccounts, callbackProgram: Pubkey, payload: seq<byte>,
                                      invoked: Result<()>)
    : (r: Result<Accounts.Instruction>)
    ensures r.Ok? <==> k.requesterProgram == programId && callbackProgram == programId
                       && k.requesterSigner == RequesterSigner(derive, programId, k.entropyProgram).address
                       && invoked.Ok?
    ensures r.Ok? ==> r.value == Accounts.Instruction(k.entropyProgram,
                                   RequestMetas(k) + [AccountMeta(callbackProgram, false, false)], payload)
    ensures (k.requesterProgram != programId || callbackProgram != programId) ==> r == Err(InvalidArgument)
    ensures k.requesterProgram == programId && callbackProgram == programId
            && k.requesterSigner != RequesterSigner(derive, programId, k.entropyProgram).address
            ==> r == Err(InvalidSeeds)
    ensures r.Err? ==> r.error in {InvalidArgument, InvalidSeeds} || invoked == Err(r.error)
  {
    if k.requesterProgram != programId || callbackProgram != programId then Err(InvalidArgument)
    else if k.requesterSigner != RequesterSigner(derive, programId, k.entropyProgram).address then Err(InvalidSeeds)
    else
      var _ :- invoked;
      Ok(Accounts.Instruction(k.entropyProgram, RequestMetas(k) + [AccountMeta(callbackProgram, false, false)], payload))
  }

  // ---------------------------------------------------------------------
  // The callback
  // ---------------------------------------------------------------------

  /** The length of the callback data after the action byte. */
  const CALLBACK_DATA_LEN: nat := 104

  /** What the callback data carries. */
  datatype CallbackFields = CallbackFields(entropyProgramId: Pubkey, sequenceNumber: u64, provider: Pubkey, randomNumber: Bytes32)

  function EncodeCallback(f: CallbackFields): (r: seq<byte>)
    ensures |r| == CALLBACK_DATA_LEN
  {
    f.entropyProgramId + U64Le(f.sequenceNumber) + f.provider + f.randomNumber
  }

  /**
   * The decoding of `process_callback`: exactly 104 bytes (else
   * InvalidInstructionData), read as the Entropy program id, the sequence
   * number (u64 LE), the provider and the random value.
   */
  function DecodeCallback(data: seq<byte>): (r: Result<CallbackFields>)
    ensures r.Ok? <==> |data| == CALLBACK_DATA_LEN
    ensures r.Err? ==> r.error == InvalidInstructionData
  {
    if |data| != CALLBACK_DATA_LEN then Err(InvalidInstructionData)
    else
      var id: Pubkey := data[..32];
      var provider: Pubkey := data[40..72];
      var random: Bytes32 := data[72..104];
      Ok(CallbackFields(id, U64From(data[32..40]), provider, random))
  }

  /** Decoding and encoding of the callback data are inverse, in both directions. */
  lemma CallbackRoundTrip(f: CallbackFields, data: seq<byte>)
    ensures DecodeCallback(EncodeCallback(f)) == Ok(f)
    ensures DecodeCallback(data).Ok? ==> EncodeCallback(DecodeCallback(data).value) == data
  {
    var e := EncodeCallback(f);
    assert e[..32] == f.entropyProgramId && e[32..40] == U64Le(f.sequenceNumber);
    assert e[40..72] == f.provider && e[72..104] == f.randomNumber;
    U64RoundTrip(f.sequenceNumber);
    if DecodeCallback(data).Ok? {
      U64BytesRoundTrip(data[32..40]);
      assert data == data[..32] + data[32..40] + data[40..72] + data[72..104];
    }
  }

  /**
   * The reveal's callback reaches this program's callback handler: when the
   * request stored the prefix `0xCB ++ entropy program id`, the callback
   * data built by the reveal routes to the callback action and decodes to
   * the Entropy program id, the request's number, its provider and the
   * random value.
   */
  lemma RevealPayloadDecodes(ixData: Bytes256, entropyProgramId: Pubkey, sequenceNumber: u64,
                             provider: Pubkey, random: Bytes32)
    requires ixData[..33] == [CALLBACK_ACTION] + entropyProgramId
    ensures RevealCore.CallbackPayload(ixData, 33, sequenceNumber, provider, random).Ok?
    ensures var d := RevealCore.CallbackPayload(ixData, 33, sequenceNumber, provider, random).value;
      Route(d) == Ok(CallbackAction(d[1..]))
      && DecodeCallback(d[1..]) == Ok(CallbackFields(entropyProgramId, sequenceNumber, provider, random))
  {
    var d := RevealCore.CallbackPayload(ixData, 33, sequenceNumber, provider, random).value;
    assert d[..33] == ixData[..33];
    assert d[0] == CALLBACK_ACTION by {
      assert d[0] == d[..33][0];
    }
    var body := d[1..];
    assert body[..32] == entropyProgramId by {
      assert body[..32] == d[..33][1..];
    }
    assert body[32..40] == d[33..41];
    assert body[40..72] == d[41..73];
    assert body[72..104] == d[73..];
  }

  /** `random_value`: the first eight random bytes as a u64, modulo 101. */
  function RandomValue(randomNumber: Bytes32): (v: nat)
    ensures v <= 100
    ensures v == U64From(randomNumber[..8]) % 101
  {
    U64From(randomNumber[..8]) % 101
  }

  /**
   * The checks of `process_callback` before it writes, in source order:
   * the data length (InvalidInstructionData), the state account owned by
   * this program and writable (InvalidAccountData), and the entropy signer
   * as the PDA of the Entropy program named in the data (InvalidSeeds).
   */
  function CheckCallback(programId: Pubkey, derive: (seq<seq<byte>>, Pubkey) -> Derived,
                         entropySigner: Pubkey, stateOwner: Pubkey, stateWritable: bool, data: seq<byte>)
    : (r: Result<CallbackFields>)
    ensures r.Ok? <==> DecodeCallback(data).Ok? && stateOwner == programId && stateWritable
                       && entropySigner == derive([ENTROPY_SIGNER_SEED], DecodeCallback(data).value.entropyProgramId).address
    ensures r.Ok? ==> r == DecodeCallback(data)
    ensures |data| != CALLBACK_DATA_LEN ==> r == Err(InvalidInstructionData)
    ensures |data| == CALLBACK_DATA_LEN && !(stateOwner == programId && stateWritable) ==> r == Err(InvalidAccountData)
    ensures r.Err? ==> r.error in {InvalidInstructionData, InvalidAccountData, InvalidSeeds}
  {
    if |data| != CALLBACK_DATA_LEN then Err(InvalidInstructionData)
    else if stateOwner != programId || !stateWritable then Err(InvalidAccountData)
    else
      var f := DecodeCallback(data).value;
      if entropySigner != derive([ENTROPY_SIGNER_SEED], f.entropyProgramId).address then Err(InvalidSeeds)
      else Ok(f)
  }

  /**
   * The callback of a pinocchio reveal passes the requester's checks: the
   * reveal passes the Entropy program's signer PDA first, and the stored
   * prefix names that program, so the requester derives the same signer.
   */
  lemma RevealCallbackAccepted(env: Env, requester: Pubkey, state: Account, callbackAccounts: seq<Account>,
                               ixData: Bytes256, sequenceNumber: u64, provider: Pubkey, random: Bytes32)
    requires ixData[..33] == [CALLBACK_ACTION] + env.programId
    requires state.owner == requester && state.isWritable
    requires PinocchioReveal.BuildCallbackIx(requester, EntropySignerPda(env).address, callbackAccounts, 33,
                                             ixData, sequenceNumber, provider, random).Ok?
    ensures var ix := PinocchioReveal.BuildCallbackIx(requester, EntropySignerPda(env).address, callbackAccounts, 33,
                                                      ixData, sequenceNumber, provider, random).value;
      ix.programId == requester
      && ix.accounts[0].pubkey == EntropySignerPda(env).address
      && Route(ix.data) == Ok(CallbackAction(ix.data[1..]))
      && CheckCallback(requester, env.derive, ix.accounts[0].pubkey, state.owner, state.isWritable, ix.data[1..])
         == Ok(CallbackFields(env.programId, sequenceNumber, provider, random))
  {
    RevealPayloadDecodes(ixData, env.programId, sequenceNumber, provider, random);
  }

  /**
   * `process_callback`. It succeeds exactly when the checks of
   * `CheckCallback` hold and the state account already holds a
   * `CallbackState` buffer; other data is InvalidAccountData. A failure
   * leaves the state account as it was. On success the state holds the
   * sequence number, provider and random value of the data with `called`
   * set to 1, and the result is the logged value in 0..=100.
   */
  method ProcessCallback(programId: Pubkey, derive: (seq<seq<byte>>, Pubkey) -> Derived,
                         entropySigner: Account, callbackState: Account, data: seq<byte>)
    returns (r: Result<nat>)
    modifies callbackState
    ensures r.Err? ==> unchanged(callbackState)
    ensures old(CheckCallback(programId, derive, entropySigner.key, callbackState.owner, callbackState.isWritable, data)).Err?
            ==> r == Err(old(CheckCallback(programId, derive, entropySigner.key, callbackState.owner,
                                           callbackState.isWritable, data)).error)
    ensures r.Ok? <==>
      old(CheckCallback(programId, derive, entropySigner.key, callbackState.owner, callbackState.isWritable, data)).Ok?
      && old(callbackState.data).CallbackStateData?
    ensures (old(CheckCallback(programId, derive, entropySigner.key, callbackState.owner, callbackState.isWritable, data)).Ok?
             && !old(callbackState.data).CallbackStateData?) ==> r == Err(InvalidAccountData)
    ensures r.Ok? ==>
      old(CheckCallback(programId, derive, entropySigner.key, callbackState.owner, callbackState.isWritable, data)).Ok?
      && var f := DecodeCallback(data).value;
         old(callbackState.data).CallbackStateData?
         && callbackState.data == CallbackStateData(CallbackState(f.sequenceNumber, f.provider, f.randomNumber, 1))
         && callbackState.lamports == old(callbackState.lamports) && callbackState.owner == old(callbackState.owner)
         && r.value == RandomValue(f.randomNumber) && r.value <= 100
  {
    if |data| != CALLBACK_DATA_LEN {
      return Err(InvalidInstructionData);
    }
    if callbackState.owner != programId || !callbackState.isWritable {
      return Err(InvalidAccountData);
    }
    var entropyProgramId: Pubkey := data[..32];
    if entropySigner.key != derive([ENTROPY_SIGNER_SEED], entropyProgramId).address {
      return Err(InvalidSeeds);
    }
    var sequenceNumber := U64From(data[32..40]);
    var provider: Pubkey := data[40..72];
    var randomNumber: Bytes32 := data[72..104];
    var value := RandomValue(randomNumber);
    if !callbackState.data.CallbackStateData? {
      return Err(InvalidAccountData);
    }
    callbackState.data := CallbackStateData(CallbackState(sequenceNumber, provider, randomNumber, 1));
    return Ok(value);
  }
}
