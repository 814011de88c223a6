/**
 * `process_request_with_callback` of the pinocchio draft: a parser that
 * lays the callback accounts over the input in place, a refusal of callback
 * accounts naming the Entropy program, the request through the draft's
 * helper, and the callback fields written over the fresh record, with the
 * size limits checked only at that point.
 */
module PinocchioRequestWithCallback {
  import opened Common
  import opened Accounts
  import opened CallbackArgs
  import opened RequestIssue
  import opened PinocchioRequest
  import Instruction

  // ---------------------------------------------------------------------
  // The argument parser
  // ---------------------------------------------------------------------

  /** The fixed header: user randomness, compute-unit limit, account count. */
  const HEADER_LEN: nat := 40

  /** `try_cast_slice`: 34-byte chunks read as callback accounts, flags unchecked. */
  function CastMetas(s: seq<byte>): (r: seq<CallbackMeta>)
    requires |s| % META_LEN == 0
    ensures |r| * META_LEN == |s|
  {
    if s == [] then [] else [DecodeMeta(s)] + CastMetas(s[META_LEN..])
  }

  /**
   * Casting the first `n` entries and checking their flags reads exactly
   * what the reference layout reads: the same accounts, followed by the
   * same rest of the input.
   */
  lemma {:induction false} CastAgreesWithDecode(s: seq<byte>, n: nat)
    requires |s| >= META_LEN * n
    ensures DecodeMetas(s, n).Some? <==> AllFlagsOk(CastMetas(s[..META_LEN * n]))
    ensures DecodeMetas(s, n).Some? ==> DecodeMetas(s, n).value == (CastMetas(s[..META_LEN * n]), s[META_LEN * n..])
  {
    if n > 0 {
      var chunk := s[..META_LEN * n];
      CastAgreesWithDecode(s[META_LEN..], n - 1);
      assert chunk[META_LEN..] == s[META_LEN..][..META_LEN * (n - 1)];
      assert DecodeMeta(chunk) == DecodeMeta(s) by {
        assert chunk[..32] == s[..32];
      }
      var cast := CastMetas(chunk);
      assert cast == [DecodeMeta(s)] + CastMetas(chunk[META_LEN..]);
      assert cast[1..] == CastMetas(chunk[META_LEN..]);
      if AllFlagsOk(cast) {
        assert FlagsOk(cast[0]);
        forall i | 0 <= i < |cast[1..]| ensures FlagsOk(cast[1..][i]) {
          assert cast[1..][i] == cast[i + 1];
        }
      } else {
        var i :| 0 <= i < |cast| && !FlagsOk(cast[i]);
        if i > 0 {
          assert cast[1..][i - 1] == cast[i];
        }
      }
    }
  }

  /** After the 40-byte header, the accounts read by the reference layout and what follows them decide the arguments. */
  lemma ArgsAfterMetas(data: seq<byte>, ms: seq<CallbackMeta>, tail: seq<byte>)
    requires |data| >= HEADER_LEN && DecodeMetas(data[HEADER_LEN..], U32From(data[36..40])) == Some((ms, tail))
    ensures DecodeArgs(data)
      == if |tail| < 4 || U32From(tail[..4]) != |tail| - 4 then None
         else Some(RequestWithCallbackArgs(data[..32], Body(U32From(data[32..36]), ms, tail[4..])))
  {
    var body := data[32..];
    assert body[..4] == data[32..36] && body[4..8] == data[36..40] && body[8..] == data[HEADER_LEN..];
  }

  /** After the 40-byte header, accounts the reference layout cannot read leave no arguments. */
  lemma NoArgsWithoutMetas(data: seq<byte>)
    requires |data| >= HEADER_LEN && DecodeMetas(data[HEADER_LEN..], U32From(data[36..40])).None?
    ensures DecodeArgs(data).None?
  {
    var body := data[32..];
    assert body[4..8] == data[36..40] && body[8..] == data[HEADER_LEN..];
  }

  /** Input too short for the accounts the header counts and a data length has no arguments. */
  lemma NoArgsWhenShort(data: seq<byte>)
    requires |data| >= HEADER_LEN && |data| - HEADER_LEN < META_LEN * U32From(data[36..40]) + 4
    ensures DecodeArgs(data).None?
  {
    var rest, count := data[HEADER_LEN..], U32From(data[36..40]);
    if DecodeMetas(rest, count).Some? {
      ArgsAfterMetas(data, DecodeMetas(rest, count).value.0, DecodeMetas(rest, count).value.1);
    } else {
      NoArgsWithoutMetas(data);
    }
  }

  /**
   * With room for the counted accounts and a data length, the accounts cast
   * in place decide the arguments: a bad flag leaves none, and otherwise the
   * data length after the accounts does.
   */
  lemma CastDecides(data: seq<byte>)
    requires |data| >= HEADER_LEN && |data| - HEADER_LEN >= META_LEN * U32From(data[36..40]) + 4
    ensures var rest, n := data[HEADER_LEN..], META_LEN * U32From(data[36..40]);
      var ms, tail := CastMetas(rest[..n]), rest[n..];
      DecodeArgs(data)
      == if !AllFlagsOk(ms) || U32From(tail[..4]) != |tail| - 4 then None
         else Some(RequestWithCallbackArgs(data[..32], Body(U32From(data[32..36]), ms, tail[4..])))
  {
    var rest, count := data[HEADER_LEN..], U32From(data[36..40]);
    CastAgreesWithDecode(rest, count);
    if DecodeMetas(rest, count).Some? {
      ArgsAfterMetas(data, DecodeMetas(rest, count).value.0, DecodeMetas(rest, count).value.1);
    } else {
      NoArgsWithoutMetas(data);
    }
  }

  /**
   * The parser reads two u32-aligned values in place: the header at the
   * start of the payload, and the data length after the `count` account
   * entries. Both casts need a 4-aligned address.
   */
  predicate CastsAligned(at: nat, count: nat)
  {
    Instruction.Aligned(at, 4) && Instruction.Aligned(at + HEADER_LEN + META_LEN * count, 4)
  }

  /**
   * Account entries are 34 bytes long, so on an aligned payload the data
   * length is aligned exactly when the number of accounts is even: a
   * request with an odd number of callback accounts is never accepted.
   */
  lemma {:induction false} CastsAlignedIffEven(at: nat, count: nat)
    requires Instruction.Aligned(at, 4)
    ensures CastsAligned(at, count) <==> count % 2 == 0
    decreases count
  {
    if count >= 2 {
      CastsAlignedIffEven(at, count - 2);
      assert META_LEN * count == META_LEN * (count - 2) + 68;
    }
  }

  /** What the parser accepts: the reference layout's arguments, when both casts are aligned. */
  function ParsedArgs(at: nat, data: seq<byte>): (r: Option<RequestWithCallbackArgs>)
    ensures r.Some? ==> DecodeArgs(data) == r
  {
    match DecodeArgs(data)
    case None => None
    case Some(args) => if CastsAligned(at, |args.body.callbackAccounts|) then Some(args) else None
  }

  /**
   * `parse_request_with_callback_args`, on a payload found `at` bytes into
   * the instruction data: a 40-byte header, the account entries cast in
   * place with their flags checked one by one, a u32 data length, and
   * exactly that much data. It accepts exactly the inputs the reference
   * layout reads whose two u32 casts are aligned, with no limit on the
   * number of accounts or the data length, and returns what the layout
   * reads; anything else is InvalidInstructionData.
   */
  method ParseRequestWithCallbackArgs(at: nat, data: seq<byte>) returns (r: Result<RequestWithCallbackArgs>)
    ensures r.Ok? <==> DecodeArgs(data).Some? && CastsAligned(at, |DecodeArgs(data).value.body.callbackAccounts|)
    ensures r.Ok? ==> r.value == DecodeArgs(data).value
    ensures r.Err? ==> r.error == InvalidInstructionData
  {
    if |data| < HEADER_LEN {
      return Err(InvalidInstructionData);
    }
    if !Instruction.Aligned(at, 4) {
      return Err(InvalidInstructionData);
    }
    var header, rest := data[..HEADER_LEN], data[HEADER_LEN..];
    var userRandomness: Bytes32 := header[..32];
    var limit := U32From(header[32..36]);
    var count := U32From(header[36..40]);
    assert header[32..36] == data[32..36] && header[36..40] == data[36..40];
    var metaBytes := META_LEN * count;
    if |rest| < metaBytes + 4 {
      NoArgsWhenShort(data);
      return Err(InvalidInstructionData);
    }
    var metas := CastMetas(rest[..metaBytes]);
    var tail := rest[metaBytes..];
    CastDecides(data);
    assert |metas| == count;
    var flagsOk := CheckFlags(metas);
    if !flagsOk {
      return Err(InvalidInstructionData);
    }
    if !Instruction.Aligned(at + HEADER_LEN + metaBytes, 4) {
      return Err(InvalidInstructionData);
    }
    var dataLen := U32From(tail[..4]);
    if |tail| - 4 != dataLen {
      return Err(InvalidInstructionData);
    }
    return Ok(RequestWithCallbackArgs(userRandomness, Body(limit, metas, tail[4..])));
  }

  /** The flag loop over the cast entries: every flag is 0 or 1. */
  method CheckFlags(metas: seq<CallbackMeta>) returns (ok: bool)
    ensures ok <==> AllFlagsOk(metas)
  {
    for i := 0 to |metas|
      invariant forall k :: 0 <= k < i ==> FlagsOk(metas[k])
    {
      if metas[i].isSigner > 1 || metas[i].isWritable > 1 {
        return false;
      }
    }
    return true;
  }

  /** Some callback account is the given program. */
  predicate NamesProgram(ms: seq<CallbackMeta>, programId: Pubkey)
  {
    exists i :: 0 <= i < |ms| && ms[i].pubkey == programId
  }

  // ---------------------------------------------------------------------
  // The callback fields written over the fresh record
  // ---------------------------------------------------------------------

  /** The account copy: each supplied account into its slot; later slots keep what they held. */
  method CopyMetas(current: MetaSlots, ms: seq<CallbackMeta>) returns (slots: MetaSlots)
    requires |ms| <= MAX_CALLBACK_ACCOUNTS
    ensures slots == ms + current[|ms|..]
  {
    var buffer := new CallbackMeta[MAX_CALLBACK_ACCOUNTS](k requires 0 <= k < MAX_CALLBACK_ACCOUNTS => current[k]);
    for i := 0 to |ms|
      invariant forall k :: 0 <= k < i ==> buffer[k] == ms[k]
      invariant forall k :: |ms| <= k < MAX_CALLBACK_ACCOUNTS ==> buffer[k] == current[k]
    {
      buffer[i] := ms[i];
    }
    slots := buffer[..];
  }

  /** `copy_from_slice` into the data buffer: the supplied bytes first, the rest as it was. */
  method CopyData(current: Bytes256, d: seq<byte>) returns (data: Bytes256)
    requires |d| <= CALLBACK_IX_DATA_LEN
    ensures data == d + current[|d|..]
  {
    var buffer := new byte[CALLBACK_IX_DATA_LEN](k requires 0 <= k < CALLBACK_IX_DATA_LEN => current[k]);
    if |d| > 0 {
      forall i | 0 <= i < |d| {
        buffer[i] := d[i];
      }
    }
    data := buffer[..];
  }

  /**
   * The writes after the helper: status NOT_STARTED, the requested limit,
   * the lengths (as u8 and u16), then the account copy unless there are
   * more than 16 accounts and the data copy unless there are more than 256
   * bytes, each refusal being InvalidAccount.
   */
  method WriteCallback(rec: Request, b: Body) returns (r: Result<Request>)
    ensures r.Ok? <==> FitsRecord(b)
    ensures r.Err? ==> r.error == InvalidAccount
    ensures r.Ok? ==> r.value == rec.(callbackStatus := CALLBACK_NOT_STARTED,
                                      computeUnitLimit := b.computeUnitLimit,
                                      callbackAccountsLen := |b.callbackAccounts|,
                                      callbackIxDataLen := |b.callbackIxData|,
                                      callbackAccounts := b.callbackAccounts + rec.callbackAccounts[|b.callbackAccounts|..],
                                      callbackIxData := b.callbackIxData + rec.callbackIxData[|b.callbackIxData|..])
  {
    var ms, d := b.callbackAccounts, b.callbackIxData;
    var out := rec.(
      callbackStatus := CALLBACK_NOT_STARTED,
      computeUnitLimit := b.computeUnitLimit,
      callbackAccountsLen := |ms| % 0x100,
      callbackIxDataLen := |d| % 0x1_0000);
    if |ms| > MAX_CALLBACK_ACCOUNTS {
      return Err(InvalidAccount);
    }
    var slots := CopyMetas(out.callbackAccounts, ms);
    if |d| > CALLBACK_IX_DATA_LEN {
      return Err(InvalidAccount);
    }
    var bytes := CopyData(out.callbackIxData, d);
    return Ok(out.(callbackAccounts := slots, callbackIxData := bytes));
  }

  /**
   * Copying without clearing is enough on a fresh record: over empty slots
   * and a zeroed buffer the copies are the padded slots and buffer.
   */
  lemma CopyOverZero(ms: seq<CallbackMeta>, d: seq<byte>)
    requires |ms| <= MAX_CALLBACK_ACCOUNTS && |d| <= CALLBACK_IX_DATA_LEN
    ensures ms + ZERO_REQUEST.callbackAccounts[|ms|..] == PaddedMetas(ms)
    ensures d + ZERO_REQUEST.callbackIxData[|d|..] == PaddedData(d)
  {
    assert ZERO_REQUEST.callbackAccounts[|ms|..] == seq(MAX_CALLBACK_ACCOUNTS - |ms|, _ => ZERO_META);
    assert ZERO_REQUEST.callbackIxData[|d|..] == Zeros(CALLBACK_IX_DATA_LEN - |d|);
  }

  // ---------------------------------------------------------------------
  // The handler
  // ---------------------------------------------------------------------

  /**
   * The answer of `process_request_with_callback`, decided on the accounts
   * before it runs: arguments the parser refuses are InvalidInstructionData;
   * callback accounts naming this program are InvalidAccount; then come the
   * account checks and the issuing steps for the requested limit; last, more
   * than 16 accounts or 256 data bytes are InvalidAccount.
   */
  function CallbackRequestOutcome(env: Env, a: RequestAccounts, at: nat, data: seq<byte>): Result<()>
    reads a.Objects()
  {
    match ParsedArgs(at, data)
    case None => Err(InvalidInstructionData)
    case Some(args) =>
      if NamesProgram(args.body.callbackAccounts, env.programId) then Err(InvalidAccount)
      else match Issuing(env, CheckRequestAccounts(env, a), BalancesOf(a), args.body.computeUnitLimit)
        case Err(e) => Err(e)
        case Ok(_) => if FitsRecord(args.body) then Ok(()) else Err(InvalidAccount)
  }

  /**
   * `process_request_with_callback`: parse; refuse callback accounts naming
   * the Entropy program; check the accounts and load the records; request
   * through the helper with the commitment `hash(user_randomness)`,
   * blockhash flag 0 and the requested limit; then set status NOT_STARTED,
   * the limit and the lengths (as u8 and u16), refuse more than 16 accounts
   * or 256 data bytes with InvalidAccount, and copy accounts and data into
   * the record. The arguments sit at offset `at` in the instruction data.
   * It succeeds exactly when `CallbackRequestOutcome` does, with its error
   * otherwise. A failure leaves every account as it was.
   */
  method ProcessRequestWithCallback(env: Env, a: RequestAccounts, at: nat, data: seq<byte>)
    returns (r: Result<seq<byte>>)
    requires a.Distinct()
    modifies a.payer, a.request, a.provider, a.providerVault, a.pythVault
    ensures r.Err? ==> unchanged(a.payer, a.request, a.provider, a.providerVault, a.pythVault)
    ensures r.Ok? <==> old(CallbackRequestOutcome(env, a, at, data)).Ok?
    ensures r.Err? ==> r.error == old(CallbackRequestOutcome(env, a, at, data)).error
    ensures r.Ok? ==> unchanged(a.provider`owner, a.provider`lamports, a.payer`owner, a.payer`data)
    ensures r.Ok? ==> unchanged(a.providerVault`owner, a.providerVault`data, a.pythVault`owner, a.pythVault`data)
    ensures r.Ok? ==>
      a.request.data.RequestData? && a.provider.data.ProviderData? && a.config.data.ConfigData?
      && old(a.provider.data.ProviderData?) && DecodeArgs(data).Some?
      && (var args := DecodeArgs(data).value;
          var p := old(a.provider.data.provider);
          var rec := a.request.data.request;
          var g := Grant(rec.sequenceNumber, a.provider.data.provider, rec, BalancesOf(a));
          FitsRecord(args.body)
          && !NamesProgram(args.body.callbackAccounts, env.programId)
          && old(CheckRequestAccounts(env, a)) == Ok((a.config.data.config, p))
          && Granted(env, a.config.data.config, p, old(BalancesOf(a)), a.requesterProgram.key, a.payer.key,
                     env.hash(args.userRandomness), 0, args.body.computeUnitLimit, g)
          && CallbackRecord(rec, CALLBACK_NOT_STARTED, args.body.computeUnitLimit, ZERO32,
                            args.body.callbackAccounts, args.body.callbackIxData)
          && rec.requesterSigner == ZERO32 && rec.bump == 0
          && a.request.owner == env.programId
          && r.value == U64Le(rec.sequenceNumber))
  {
    var args :- ParseRequestWithCallbackArgs(at, data);
    if NamesProgram(args.body.callbackAccounts, env.programId) {
      return Err(InvalidAccount);
    }
    var checked :- CheckRequestAccounts(env, a);
    var userCommitment := env.hash(args.userRandomness);
    var requestArgs := Instruction.RequestArgs(userCommitment, 0, args.body.computeUnitLimit);
    var g :- RequestHelper(env, checked.0, checked.1, a, requestArgs);
    var rec :- WriteCallback(g.request, args.body);
    CopyOverZero(args.body.callbackAccounts, args.body.callbackIxData);
    Commit(env, a, g.(request := rec));
    return Ok(U64Le(g.sequenceNumber));
  }
}
