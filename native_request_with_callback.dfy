/**
 * `process_request_with_callback` of the `programs/entropy` draft: a
 * cursor parser for the callback arguments, the request through the shared
 * helper, and the callback fields written over the new record.
 */
module NativeRequestWithCallback {
  import opened Common
  import opened Accounts
  import opened CallbackArgs
  import opened RequestIssue
  import opened NativeRequest
  import Instruction

  // ---------------------------------------------------------------------
  // Reading from the front of a cursor
  // ---------------------------------------------------------------------

  /** `read_bytes`: split `len` bytes off the front, or InvalidInstructionData when fewer remain. */
  function ReadBytes(cursor: seq<byte>, len: nat): (r: Result<(seq<byte>, seq<byte>)>)
    ensures r.Ok? <==> len <= |cursor|
    ensures r.Ok? ==> |r.value.0| == len && r.value.0 + r.value.1 == cursor
    ensures r.Err? ==> r.error == InvalidInstructionData
  {
    if |cursor| < len then Err(InvalidInstructionData)
    else
      assert cursor[..len] + cursor[len..] == cursor;
      Ok((cursor[..len], cursor[len..]))
  }

  /** `read_u32`: four bytes, little-endian. */
  function ReadU32(cursor: seq<byte>): (r: Result<(u32, seq<byte>)>)
    ensures r.Ok? <==> 4 <= |cursor|
    ensures r.Ok? ==> r.value == (U32From(cursor[..4]), cursor[4..])
    ensures r.Err? ==> r.error == InvalidInstructionData
  {
    var (bytes, rest) :- ReadBytes(cursor, 4);
    assert bytes == cursor[..4];
    Ok((U32From(bytes), rest))
  }

  /** `read_u8`. */
  function ReadU8(cursor: seq<byte>): (r: Result<(byte, seq<byte>)>)
    ensures r.Ok? <==> 1 <= |cursor|
    ensures r.Ok? ==> r.value == (cursor[0], cursor[1..])
    ensures r.Err? ==> r.error == InvalidInstructionData
  {
    var (bytes, rest) :- ReadBytes(cursor, 1);
    assert bytes[0] == cursor[0];
    Ok((bytes[0], rest))
  }

  /** `read_array_32`. */
  function ReadArray32(cursor: seq<byte>): (r: Result<(Bytes32, seq<byte>)>)
    ensures r.Ok? <==> 32 <= |cursor|
    ensures r.Ok? ==> r.value == (cursor[..32], cursor[32..])
    ensures r.Err? ==> r.error == InvalidInstructionData
  {
    var (bytes, rest) :- ReadBytes(cursor, 32);
    var key: Bytes32 := bytes;
    Ok((key, rest))
  }

  /**
   * `read_callback_meta`: a key and two flag bytes, each flag 0 or 1;
   * the entry the reference layout reads.
   */
  function ReadCallbackMeta(cursor: seq<byte>): (r: Result<(CallbackMeta, seq<byte>)>)
    ensures r.Ok? <==> META_LEN <= |cursor| && FlagsOk(DecodeMeta(cursor))
    ensures r.Ok? ==> r.value == (DecodeMeta(cursor), cursor[META_LEN..])
    ensures r.Err? ==> r.error == InvalidInstructionData
  {
    var (pubkey, c1) :- ReadArray32(cursor);
    var (isSigner, c2) :- ReadU8(c1);
    var (isWritable, c3) :- ReadU8(c2);
    assert c3 == cursor[META_LEN..];
    if isSigner > 1 || isWritable > 1 then Err(InvalidInstructionData)
    else Ok((CallbackMeta(pubkey, isSigner, isWritable), c3))
  }

  // ---------------------------------------------------------------------
  // The argument parser
  // ---------------------------------------------------------------------

  /**
   * The account loop of the parser: `count` entries read one after another,
   * failing on the first short or malformed one; it reads what the
   * reference layout reads.
   */
  method ReadCallbackMetas(start: seq<byte>, count: nat) returns (r: Result<(seq<CallbackMeta>, seq<byte>)>)
    ensures r.Ok? <==> DecodeMetas(start, count).Some?
    ensures r.Ok? ==> r.value == DecodeMetas(start, count).value
    ensures r.Err? ==> r.error == InvalidInstructionData
  {
    var cursor := start;
    PrependNil(DecodeMetas(cursor, count));
    var metas: seq<CallbackMeta> := [];
    var i := 0;
    while i < count
      invariant 0 <= i <= count && |metas| == i
      invariant Prepend(metas, DecodeMetas(cursor, count - i)) == DecodeMetas(start, count)
    {
      DecodeOneMore(metas, cursor, count - i);
      var m := ReadCallbackMeta(cursor);
      if m.Err? {
        return Err(InvalidInstructionData);
      }
      metas := metas + [m.value.0];
      cursor := m.value.1;
      i := i + 1;
    }
    assert metas + [] == metas;
    return Ok((metas, cursor));
  }

  /**
   * `parse_request_with_callback_args`: accepts exactly the inputs the
   * reference layout reads whose account count is at most 16 and whose data
   * is at most 256 bytes, and returns what the layout reads; everything else
   * is InvalidInstructionData.
   */
  method ParseRequestWithCallbackArgs(data: seq<byte>) returns (r: Result<RequestWithCallbackArgs>)
    ensures r.Ok? <==> DecodeArgs(data).Some? && FitsRecord(DecodeArgs(data).value.body)
    ensures r.Ok? ==> r.value == DecodeArgs(data).value
    ensures r.Err? ==> r.error == InvalidInstructionData
  {
    var cursor := data;
    var t :- ReadArray32(cursor);
    var userRandomness := t.0;
    cursor := t.1;
    var u :- ReadU32(cursor);
    var limit := u.0;
    cursor := u.1;
    var c :- ReadU32(cursor);
    var count := c.0;
    cursor := c.1;
    ghost var body := data[32..];
    assert t.1 == body && u.1 == body[4..] && cursor == body[8..];
    assert limit == U32From(body[..4]) && count == U32From(body[4..8]) by {
      assert body[4..][..4] == body[4..8];
    }
    if count > MAX_CALLBACK_ACCOUNTS {
      if DecodeArgs(data).Some? {
        assert DecodeMetas(body[8..], count).Some?;
      }
      return Err(InvalidInstructionData);
    }
    var read :- ReadCallbackMetas(cursor, count);
    var metas := read.0;
    cursor := read.1;
    var d :- ReadU32(cursor);
    var dataLen := d.0;
    if dataLen > CALLBACK_IX_DATA_LEN {
      return Err(InvalidInstructionData);
    }
    var e :- ReadBytes(d.1, dataLen);
    var ixData := e.0;
    if e.1 != [] {
      return Err(InvalidInstructionData);
    }
    assert cursor[4..] == ixData;
    return Ok(RequestWithCallbackArgs(userRandomness, Body(limit, metas, ixData)));
  }

  // ---------------------------------------------------------------------
  // The callback fields written over the new record
  // ---------------------------------------------------------------------

  /**
   * The account copy of the overwrite: the supplied accounts go into the
   * first slots, in order, and every later slot is cleared, whatever the
   * slots held before.
   */
  method OverwriteMetas(current: MetaSlots, ms: seq<CallbackMeta>) returns (slots: MetaSlots)
    requires |ms| <= MAX_CALLBACK_ACCOUNTS
    ensures slots == PaddedMetas(ms)
  {
    var buffer := new CallbackMeta[MAX_CALLBACK_ACCOUNTS](k requires 0 <= k < MAX_CALLBACK_ACCOUNTS => current[k]);
    for i := 0 to |ms|
      invariant forall k :: 0 <= k < i ==> buffer[k] == ms[k]
    {
      buffer[i] := ms[i];
    }
    for i := |ms| to MAX_CALLBACK_ACCOUNTS
      invariant forall k :: 0 <= k < |ms| ==> buffer[k] == ms[k]
      invariant forall k :: |ms| <= k < i ==> buffer[k] == ZERO_META
    {
      buffer[i] := ZERO_META;
    }
    var padded := PaddedMetas(ms);
    forall k | 0 <= k < MAX_CALLBACK_ACCOUNTS ensures buffer[k] == padded[k] {
      if k < |ms| {
        assert padded[k] == padded[..|ms|][k];
      }
    }
    slots := buffer[..];
  }

  /**
   * The data copy of the overwrite: the supplied bytes go first and every
   * later byte of the buffer is zeroed, whatever it held before.
   */
  method OverwriteData(current: Bytes256, d: seq<byte>) returns (data: Bytes256)
    requires |d| <= CALLBACK_IX_DATA_LEN
    ensures data == PaddedData(d)
  {
    var buffer := new byte[CALLBACK_IX_DATA_LEN](k requires 0 <= k < CALLBACK_IX_DATA_LEN => current[k]);
    for i := 0 to |d|
      invariant forall k :: 0 <= k < i ==> buffer[k] == d[k]
    {
      buffer[i] := d[i];
    }
    for i := |d| to CALLBACK_IX_DATA_LEN
      invariant forall k :: 0 <= k < |d| ==> buffer[k] == d[k]
      invariant forall k :: |d| <= k < i ==> buffer[k] == 0
    {
      buffer[i] := 0;
    }
    var padded := PaddedData(d);
    forall k | 0 <= k < CALLBACK_IX_DATA_LEN ensures buffer[k] == padded[k] {
      if k < |d| {
        assert padded[k] == padded[..|d|][k];
      }
    }
    data := buffer[..];
  }

  /**
   * The block that reloads the new record and sets status NOT_STARTED, the
   * requested compute-unit limit and the two lengths, then overwrites the
   * account slots and the data buffer. Nothing else in the record changes.
   */
  method WriteCallback(rec: Request, b: Body) returns (out: Request)
    requires FitsRecord(b)
    ensures out == rec.(callbackStatus := CALLBACK_NOT_STARTED,
                        computeUnitLimit := b.computeUnitLimit,
                        callbackAccountsLen := |b.callbackAccounts|,
                        callbackIxDataLen := |b.callbackIxData|,
                        callbackAccounts := PaddedMetas(b.callbackAccounts),
                        callbackIxData := PaddedData(b.callbackIxData))
  {
    out := rec.(callbackStatus := CALLBACK_NOT_STARTED,
                computeUnitLimit := b.computeUnitLimit,
                callbackAccountsLen := |b.callbackAccounts|,
                callbackIxDataLen := |b.callbackIxData|);
    var slots := OverwriteMetas(out.callbackAccounts, b.callbackAccounts);
    var data := OverwriteData(out.callbackIxData, b.callbackIxData);
    out := out.(callbackAccounts := slots, callbackIxData := data);
  }

  /**
   * The record a callback request ends with: the helper's record without a
   * callback, overwritten with the callback part, keeps the issued fields
   * and holds the callback accounts and data; its callback program stays
   * the zero key, since the helper was given none.
   */
  lemma CallbackOverwrite(rec: Request, a: RequestAccounts, p: Provider, b: Body, out: Request)
    requires HelperRecord(rec, a, p, NO_CALLBACK) && FitsRecord(b)
    requires out == rec.(callbackStatus := CALLBACK_NOT_STARTED,
                         computeUnitLimit := b.computeUnitLimit,
                         callbackAccountsLen := |b.callbackAccounts|,
                         callbackIxDataLen := |b.callbackIxData|,
                         callbackAccounts := PaddedMetas(b.callbackAccounts),
                         callbackIxData := PaddedData(b.callbackIxData))
    ensures CallbackRecord(out, CALLBACK_NOT_STARTED, b.computeUnitLimit, ZERO32, b.callbackAccounts, b.callbackIxData)
    ensures out.requesterSigner == a.requesterSigner.key && out.bump == 0
    ensures out.callbackAccounts[..out.callbackAccountsLen] == b.callbackAccounts
    ensures out.callbackIxData[..out.callbackIxDataLen] == b.callbackIxData
  {
  }

  // ---------------------------------------------------------------------
  // The handler
  // ---------------------------------------------------------------------

  /**
   * The answer of `process_request_with_callback`, decided on the accounts
   * before it runs: arguments the parser refuses, or more than 16 accounts
   * or 256 data bytes, are InvalidInstructionData; then signatures,
   * writability and the system program; a callback program other than the
   * requester program is InvalidAccount; then come the remaining account
   * checks and the issuing steps for the requested limit.
   */
  function CallbackRequestOutcome(env: Env, a: RequestAccounts, callbackProgram: Pubkey, data: seq<byte>)
    : Result<()>
    reads a.Objects()
  {
    match DecodeArgs(data)
    case None => Err(InvalidInstructionData)
    case Some(args) =>
      if !FitsRecord(args.body) then Err(InvalidInstructionData)
      else match CheckSignersAndWritable(a)
        case Err(e) => Err(e)
        case Ok(_) =>
          if callbackProgram != a.requesterProgram.key then Err(InvalidAccount)
          else Issuing(env, CheckAccounts(env, a), BalancesOf(a), args.body.computeUnitLimit)
  }

  /**
   * `process_request_with_callback`: parse; check signatures, writability
   * and the system program; require the callback program to be the
   * requester program; check the remaining accounts; request through the
   * helper with the commitment `hash(user_randomness)`, blockhash flag 0 and
   * the requested limit; write the callback part; return the number. It
   * succeeds exactly when `CallbackRequestOutcome` does, with its error
   * otherwise.
   */
  method ProcessRequestWithCallback(env: Env, a: RequestAccounts, callbackProgram: Account, data: seq<byte>)
    returns (r: Result<seq<byte>>)
    requires a.Distinct()
    modifies a.payer, a.request, a.provider, a.providerVault, a.pythVault
    ensures r.Err? ==> unchanged(a.payer, a.request, a.provider, a.providerVault, a.pythVault)
    ensures r.Ok? <==> old(CallbackRequestOutcome(env, a, callbackProgram.key, data)).Ok?
    ensures r.Err? ==> r.error == old(CallbackRequestOutcome(env, a, callbackProgram.key, data)).error
    ensures r.Ok? ==> unchanged(a.provider`owner, a.provider`lamports, a.payer`owner, a.payer`data)
    ensures r.Ok? ==> unchanged(a.providerVault`owner, a.providerVault`data, a.pythVault`owner, a.pythVault`data)
    ensures r.Ok? ==>
      a.request.data.RequestData? && a.provider.data.ProviderData? && a.config.data.ConfigData?
      && old(a.provider.data.ProviderData?) && DecodeArgs(data).Some?
      && (var args := DecodeArgs(data).value;
          var p := old(a.provider.data.provider);
          var rec := a.request.data.request;
          var g := Grant(rec.sequenceNumber, a.provider.data.provider, rec, BalancesOf(a));
          FitsRecord(args.body)
          && callbackProgram.key == a.requesterProgram.key
          && old(CheckRequestAccounts(env, a)) == Ok((a.config.data.config, p))
          && Granted(env, a.config.data.config, p, old(BalancesOf(a)), a.requesterProgram.key, a.payer.key,
                     env.hash(args.userRandomness), 0, args.body.computeUnitLimit, g)
          && CallbackRecord(rec, CALLBACK_NOT_STARTED, args.body.computeUnitLimit, ZERO32,
                            args.body.callbackAccounts, args.body.callbackIxData)
          && rec.requesterSigner == a.requesterSigner.key && rec.bump == 0
          && a.request.owner == env.programId
          && r.value == U64Le(rec.sequenceNumber))
  {
    var args :- ParseRequestWithCallbackArgs(data);
    var _ :- CheckSignersAndWritable(a);
    if callbackProgram.key != a.requesterProgram.key {
      return Err(InvalidAccount);
    }
    var checked :- CheckAccounts(env, a);
    var userCommitment := env.hash(args.userRandomness);
    var requestArgs := Instruction.RequestArgs(userCommitment, 0, args.body.computeUnitLimit);
    var g :- RequestHelper(env, a, requestArgs, NO_CALLBACK);
    var rec := WriteCallback(g.request, args.body);
    CallbackOverwrite(g.request, a, checked.1, args.body, rec);
    Commit(env, a, g.(request := rec));
    return Ok(U64Le(g.sequenceNumber));
  }
}
