/**
 * The parts of `reveal_with_callback` that both drafts share: the accounts
 * checked before the request is read, the provider hash chain, the
 * commitment check, the slot-hash lookup, the random value, the check of
 * the supplied callback accounts against the stored ones, the callback
 * instruction data and the closing of the request account.
 */
module RevealCore {
  import opened Common
  import opened Hashing
  import opened Accounts
  import opened ProviderChain
  import opened CallbackArgs
  import opened RequestIssue

  /** The fixed accounts of a reveal, in instruction order. */
  datatype RevealAccounts = RevealAccounts(
    request: Account,
    provider: Account,
    slotHashes: Account,
    entropySigner: Account,
    callbackProgram: Account,
    systemProgram: Account)

  /**
   * The checks ahead of reading the request: request and provider
   * writable, the system program, the slot-hashes sysvar (InvalidAccount
   * each), the entropy signer PDA (InvalidPda), then the request record
   * itself, which must be owned by the program and hold a Request.
   */
  function CheckRevealAccounts(env: Env, a: RevealAccounts): (r: Result<Request>)
    reads a.request
    ensures r.Ok? <==> a.request.isWritable && a.provider.isWritable
                       && a.systemProgram.key == SYSTEM_PROGRAM_ID
                       && a.slotHashes.key == env.slotHashesId
                       && a.entropySigner.key == EntropySignerPda(env).address
                       && LoadRequest(a.request, env.programId).Ok?
    ensures r.Ok? ==> r.value == a.request.data.request
    ensures r.Err? ==> r.error == (if a.request.isWritable && a.provider.isWritable
                                       && a.systemProgram.key == SYSTEM_PROGRAM_ID
                                       && a.slotHashes.key == env.slotHashesId
                                       && a.entropySigner.key != EntropySignerPda(env).address
                                   then InvalidPda else InvalidAccount)
  {
    if !a.request.isWritable || !a.provider.isWritable then Err(InvalidAccount)
    else if a.systemProgram.key != SYSTEM_PROGRAM_ID then Err(InvalidAccount)
    else if a.slotHashes.key != env.slotHashesId then Err(InvalidAccount)
    else if a.entropySigner.key != EntropySignerPda(env).address then Err(InvalidPda)
    else LoadRequest(a.request, env.programId)
  }

  /**
   * The provider account of a reveal: the PDA of the request's provider
   * (InvalidPda), holding a Provider record owned by the program
   * (InvalidAccount).
   */
  function LoadRevealProvider(env: Env, provider: Account, rec: Request): (r: Result<Provider>)
    reads provider
    ensures r.Ok? <==> provider.key == ProviderPda(env, rec.provider).address && LoadProvider(provider, env.programId).Ok?
    ensures r.Ok? ==> r.value == provider.data.provider
    ensures r.Err? ==> r.error == (if provider.key != ProviderPda(env, rec.provider).address then InvalidPda else InvalidAccount)
  {
    if provider.key != ProviderPda(env, rec.provider).address then Err(InvalidPda)
    else LoadProvider(provider, env.programId)
  }

  // ---------------------------------------------------------------------
  // The commitment check
  // ---------------------------------------------------------------------

  /** `hash_provider_commitment`: the contribution hashed `numHashes` times. */
  method HashProviderCommitment(h: Hasher, contribution: Bytes32, numHashes: u32) returns (r: Bytes32)
    ensures r == ChainHash(h, contribution, numHashes)
  {
    r := contribution;
    for i := 0 to numHashes
      invariant r == ChainHash(h, contribution, i)
    {
      r := h(r);
    }
  }

  /**
   * A reveal matches a request when hashing the user's contribution once
   * and the provider's `numHashes` times reproduces the stored commitment.
   */
  predicate CommitmentMatches(h: Hasher, rec: Request, userContribution: Bytes32, providerContribution: Bytes32)
  {
    Hashv(h, [h(userContribution), ChainHash(h, providerContribution, rec.numHashes)]) == rec.commitment
  }

  /**
   * The reveal check accepts the honest parties: a request issued against a
   * provider whose head is the honest chain value for its number, with the
   * user commitment `hashv([x])`, matches the user's `x` and the provider's
   * honest value for the request's number.
   */
  lemma HonestRevealAccepted(env: Env, p: Provider, rec: Request, userRandomness: Bytes32,
                             seed: Bytes32, chainLength: nat, start: nat,
                             requesterProgram: Pubkey, payer: Pubkey, useBlockhash: byte)
    requires IssuedRecord(rec, env, p, rec.sequenceNumber, Hashv(env.hash, [userRandomness]),
                          requesterProgram, payer, useBlockhash)
    requires start <= p.currentCommitmentSequenceNumber && rec.sequenceNumber <= start + chainLength
    requires p.currentCommitment == HonestContribution(env.hash, seed, chainLength, start, p.currentCommitmentSequenceNumber)
    ensures CommitmentMatches(env.hash, rec, userRandomness,
                              HonestContribution(env.hash, seed, chainLength, start, rec.sequenceNumber))
  {
    assert Flatten([userRandomness]) == userRandomness by {
      assert [userRandomness][1..] == [];
    }
    HonestRevealMatchesHead(env.hash, seed, chainLength, start, p.currentCommitmentSequenceNumber, rec.sequenceNumber);
  }

  // ---------------------------------------------------------------------
  // Blockhash and the random value
  // ---------------------------------------------------------------------

  /** The hash of the first slot-hash entry for `slot`, if any. */
  function FindSlotHash(entries: seq<SlotHash>, slot: u64): (r: Option<Bytes32>)
    ensures r.None? <==> forall i :: 0 <= i < |entries| ==> entries[i].slot != slot
    ensures r.Some? ==> exists i :: 0 <= i < |entries| && entries[i].slot == slot && entries[i].hash == r.value
                                    && forall j :: 0 <= j < i ==> entries[j].slot != slot
  {
    if entries == [] then None
    else if entries[0].slot == slot then Some(entries[0].hash)
    else
      var rest := FindSlotHash(entries[1..], slot);
      assert rest.Some? ==> exists i :: 0 <= i < |entries| && entries[i].slot == slot && entries[i].hash == rest.value
                                         && forall j :: 0 <= j < i ==> entries[j].slot != slot by {
        if rest.Some? {
          var k :| 0 <= k < |entries[1..]| && entries[1..][k].slot == slot && entries[1..][k].hash == rest.value
                   && forall j :: 0 <= j < k ==> entries[1..][j].slot != slot;
          assert entries[k + 1] == entries[1..][k];
          forall j | 0 <= j < k + 1 ensures entries[j].slot != slot {
            if j > 0 {
              assert entries[j] == entries[1..][j - 1];
            }
          }
        }
      }
      assert rest.None? ==> forall i :: 0 <= i < |entries| ==> entries[i].slot != slot by {
        if rest.None? {
          forall i | 0 <= i < |entries| ensures entries[i].slot != slot {
            if i > 0 {
              assert entries[i] == entries[1..][i - 1];
            }
          }
        }
      }
      rest
  }

  /**
   * The blockhash mixed into the random value: with `use_blockhash == 1`
   * the hash of the request's slot from the slot-hashes sysvar
   * (BlockhashUnavailable when the slot has left it), otherwise zeros.
   */
  function Blockhash(entries: seq<SlotHash>, useBlockhash: byte, requestSlot: u64): (r: Result<Bytes32>)
    ensures useBlockhash != 1 ==> r == Ok(ZERO32)
    ensures useBlockhash == 1 ==> (r.Ok? <==> FindSlotHash(entries, requestSlot).Some?)
    ensures useBlockhash == 1 && r.Ok? ==> r.value == FindSlotHash(entries, requestSlot).value
    ensures r.Err? ==> r.error == BlockhashUnavailable
  {
    if useBlockhash == 1 then
      match FindSlotHash(entries, requestSlot)
      case Some(hash) => Ok(hash)
      case None => Err(BlockhashUnavailable)
    else Ok(ZERO32)
  }

  /** The random value: `hashv([user, provider, blockhash])`. */
  function RandomValue(h: Hasher, userContribution: Bytes32, providerContribution: Bytes32, blockhash: Bytes32): Bytes32
  {
    Hashv(h, [userContribution, providerContribution, blockhash])
  }

  // ---------------------------------------------------------------------
  // Callback accounts
  // ---------------------------------------------------------------------

  /** A supplied account agrees with a stored entry on key, signer and writable flags. */
  predicate AccountMatches(a: Account, m: CallbackMeta)
  {
    a.key == m.pubkey && a.isSigner == (m.isSigner == 1) && a.isWritable == (m.isWritable == 1)
  }

  /** The entry that records an account: its key and its two flags as 0 or 1. */
  function MetaOf(a: Account): (m: CallbackMeta)
    ensures FlagsOk(m) && AccountMatches(a, m)
  {
    CallbackMeta(a.key, if a.isSigner then 1 else 0, if a.isWritable then 1 else 0)
  }

  function MetasOf(s: seq<Account>): (r: seq<CallbackMeta>)
    ensures |r| == |s| && forall i :: 0 <= i < |s| ==> r[i] == MetaOf(s[i])
  {
    seq(|s|, i requires 0 <= i < |s| => MetaOf(s[i]))
  }

  /**
   * `validate_callback_accounts`: each supplied account must match the
   * stored entry at its position; the first mismatch is InvalidAccount.
   */
  method ValidateCallbackAccounts(rec: Request, supplied: seq<Account>) returns (r: Result<()>)
    requires |supplied| <= MAX_CALLBACK_ACCOUNTS
    ensures r.Ok? <==> forall i :: 0 <= i < |supplied| ==> AccountMatches(supplied[i], rec.callbackAccounts[i])
    ensures r.Err? ==> r.error == InvalidAccount
  {
    for i := 0 to |supplied|
      invariant forall j :: 0 <= j < i ==> AccountMatches(supplied[j], rec.callbackAccounts[j])
    {
      var m := rec.callbackAccounts[i];
      if supplied[i].key != m.pubkey {
        return Err(InvalidAccount);
      }
      if supplied[i].isSigner != (m.isSigner == 1) {
        return Err(InvalidAccount);
      }
      if supplied[i].isWritable != (m.isWritable == 1) {
        return Err(InvalidAccount);
      }
    }
    return Ok(());
  }

  /**
   * The accounts a reveal accepts are exactly the ones the request named:
   * for a record holding the entries `ms` (flags 0 or 1), supplied accounts
   * pass the check precisely when their entries are `ms`.
   */
  lemma AcceptsNamedAccounts(rec: Request, status: byte, limit: u32, program: Pubkey,
                             ms: seq<CallbackMeta>, d: seq<byte>, supplied: seq<Account>)
    requires CallbackRecord(rec, status, limit, program, ms, d) && AllFlagsOk(ms)
    requires |supplied| == |ms|
    ensures (forall i :: 0 <= i < |supplied| ==> AccountMatches(supplied[i], rec.callbackAccounts[i]))
            <==> MetasOf(supplied) == ms
  {
    assert rec.callbackAccounts[..|ms|] == ms;
    if forall i :: 0 <= i < |supplied| ==> AccountMatches(supplied[i], rec.callbackAccounts[i]) {
      forall i | 0 <= i < |ms| ensures MetasOf(supplied)[i] == ms[i] {
        assert rec.callbackAccounts[i] == ms[i];
        assert FlagsOk(ms[i]);
      }
    }
    if MetasOf(supplied) == ms {
      forall i | 0 <= i < |supplied| ensures AccountMatches(supplied[i], rec.callbackAccounts[i]) {
        assert rec.callbackAccounts[i] == ms[i];
        assert MetasOf(supplied)[i] == MetaOf(supplied[i]);
      }
    }
  }

  // ---------------------------------------------------------------------
  // The callback instruction data and closing the request
  // ---------------------------------------------------------------------

  /** The length of what a reveal appends to the stored prefix. */
  const CALLBACK_SUFFIX_LEN: nat := 72

  /**
   * The callback instruction data: the first `len` stored bytes (a length
   * above 256 is InvalidInstructionData), then the request's number (u64
   * LE), the provider key and the random value.
   */
  function CallbackPayload(ixData: Bytes256, len: u16, sequenceNumber: u64, provider: Pubkey, random: Bytes32): (r: Result<seq<byte>>)
    ensures r.Ok? <==> len <= CALLBACK_IX_DATA_LEN
    ensures r.Ok? ==> |r.value| == len + CALLBACK_SUFFIX_LEN
                      && r.value[..len] == ixData[..len]
                      && U64From(r.value[len..len + 8]) == sequenceNumber
                      && r.value[len + 8..len + 40] == provider
                      && r.value[len + 40..] == random
    ensures r.Err? ==> r.error == InvalidInstructionData
  {
    if len > CALLBACK_IX_DATA_LEN then Err(InvalidInstructionData)
    else
      var d := ixData[..len] + U64Le(sequenceNumber) + provider + random;
      assert d[len..len + 8] == U64Le(sequenceNumber);
      U64RoundTrip(sequenceNumber);
      Ok(d)
  }

  /**
   * `close_request_account`, on balances: the request's lamports move to
   * the refund account (a sum above u64 is InvalidArgument) and the request
   * keeps none.
   */
  function CloseBalances(request: u64, refund: u64): (r: Result<(u64, u64)>)
    ensures r.Ok? <==> request + refund <= U64_MAX
    ensures r.Ok? ==> r.value.0 == 0 && r.value.0 + r.value.1 == request + refund
    ensures r.Err? ==> r.error == InvalidArgument
  {
    var total :- CheckedAdd(refund, request);
    Ok((0, total))
  }
}
