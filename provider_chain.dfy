/**
 * The life of a provider record, independent of accounts and signatures:
 * registration (or rotation) opens a sequence window over a fresh hash
 * chain, each request takes the next sequence number of the window, and each
 * reveal may move the chain head forward. The handlers of every draft are
 * proved to write the records these functions describe.
 */
module ProviderChain {
  import opened Common
  import opened Hashing
  import opened Accounts
  import Instruction

  /**
   * The sequence window of a registered provider: the chain was committed at
   * `original`, the newest known chain value belongs to `current`, the next
   * request gets `sequenceNumber`, and numbers up to `end` are covered.
   */
  predicate WindowOk(p: Provider)
  {
    p.originalCommitmentSequenceNumber <= p.currentCommitmentSequenceNumber
    < p.sequenceNumber <= p.endSequenceNumber
  }

  /** The fields a registration carries over from the previous record. */
  predicate KeepsOperatorFields(p: Provider, q: Provider)
  {
    q.accruedFeesLamports == p.accruedFeesLamports
    && q.feeManager == p.feeManager
    && q.maxNumHashes == p.maxNumHashes
    && q.defaultComputeUnitLimit == p.defaultComputeUnitLimit
  }

  /**
   * The record a registration writes over `p` (a zeroed record for a new
   * provider): the new commitment becomes both the original and the current
   * chain head at the old `sequence_number`, the window ends `chain_length`
   * numbers later (a u64 overflow there is InvalidArgument), and the
   * descriptive fields come from the arguments. Every handler has
   * rejected an empty chain before it gets here.
   */
  function Rotate(p: Provider, authority: Pubkey, args: Instruction.RegisterProviderArgs, bump: byte): (r: Result<Provider>)
    requires args.chainLength > 0
    ensures r.Ok? <==> p.sequenceNumber + args.chainLength <= U64_MAX
    ensures r.Err? ==> r.error == InvalidArgument
    ensures r.Ok? ==> KeepsOperatorFields(p, r.value)
    ensures r.Ok? ==> r.value.originalCommitment == r.value.currentCommitment == args.commitment
    ensures r.Ok? ==> r.value.originalCommitmentSequenceNumber == r.value.currentCommitmentSequenceNumber
                        == p.sequenceNumber
    ensures r.Ok? ==> r.value.sequenceNumber == p.sequenceNumber + 1
                      && r.value.endSequenceNumber == p.sequenceNumber + args.chainLength
    ensures r.Ok? ==> WindowOk(r.value)
  {
    var end :- CheckedAdd(p.sequenceNumber, args.chainLength);
    Ok(Provider(
      providerAuthority := authority,
      feeLamports := args.feeLamports,
      accruedFeesLamports := p.accruedFeesLamports,
      originalCommitment := args.commitment,
      originalCommitmentSequenceNumber := p.sequenceNumber,
      commitmentMetadataLen := args.commitmentMetadataLen,
      commitmentMetadata := args.commitmentMetadata,
      uriLen := args.uriLen,
      uri := args.uri,
      endSequenceNumber := end,
      sequenceNumber := p.sequenceNumber + 1,
      currentCommitment := args.commitment,
      currentCommitmentSequenceNumber := p.sequenceNumber,
      feeManager := p.feeManager,
      maxNumHashes := p.maxNumHashes,
      defaultComputeUnitLimit := p.defaultComputeUnitLimit,
      bump := bump))
  }

  /** A first registration starts the window at 0 with no fees, manager or limits. */
  lemma FirstRegistration(authority: Pubkey, args: Instruction.RegisterProviderArgs, bump: byte)
    requires args.chainLength > 0
    ensures Rotate(ZERO_PROVIDER, authority, args, bump).Ok?
    ensures var q := Rotate(ZERO_PROVIDER, authority, args, bump).value;
      q.originalCommitmentSequenceNumber == q.currentCommitmentSequenceNumber == 0
      && q.sequenceNumber == 1 && q.endSequenceNumber == args.chainLength
      && q.accruedFeesLamports == 0 && q.feeManager == ZERO32
      && q.maxNumHashes == 0 && q.defaultComputeUnitLimit == 0
  {
  }

  /**
   * Sequence allocation: a provider whose window is used up is
   * OutOfRandomness; otherwise the request gets `sequence_number` and the
   * provider's next number is one higher.
   */
  function Allocate(p: Provider): (r: Result<(u64, Provider)>)
    ensures r.Ok? <==> p.sequenceNumber < p.endSequenceNumber
    ensures r.Err? ==> r.error == OutOfRandomness
    ensures r.Ok? ==> r.value.0 == p.sequenceNumber < r.value.1.sequenceNumber
  {
    if p.sequenceNumber >= p.endSequenceNumber then Err(OutOfRandomness)
    else Ok((p.sequenceNumber, p.(sequenceNumber := p.sequenceNumber + 1)))
  }

  /** Allocation keeps the window, moves only `sequence_number`, and by exactly one. */
  lemma AllocateKeepsWindow(p: Provider)
    requires WindowOk(p) && Allocate(p).Ok?
    ensures WindowOk(Allocate(p).value.1)
    ensures Allocate(p).value.1 == p.(sequenceNumber := p.sequenceNumber + 1)
  {
  }

  /**
   * The chain-head update of a reveal: the head moves to the revealed
   * number and value only when that number is newer than the current head.
   */
  function AdvanceHead(p: Provider, sequenceNumber: u64, contribution: Bytes32): (r: Provider)
    ensures r.currentCommitmentSequenceNumber == Max(p.currentCommitmentSequenceNumber, sequenceNumber)
  {
    if p.currentCommitmentSequenceNumber < sequenceNumber then
      p.(currentCommitmentSequenceNumber := sequenceNumber, currentCommitment := contribution)
    else p
  }

  /**
   * The head never moves backward, and applying the same reveal twice is
   * the same as applying it once; nothing but the head changes.
   */
  lemma AdvanceHeadMonotone(p: Provider, sequenceNumber: u64, contribution: Bytes32)
    ensures AdvanceHead(p, sequenceNumber, contribution).currentCommitmentSequenceNumber
         >= p.currentCommitmentSequenceNumber
    ensures AdvanceHead(AdvanceHead(p, sequenceNumber, contribution), sequenceNumber, contribution)
         == AdvanceHead(p, sequenceNumber, contribution)
    ensures AdvanceHead(p, sequenceNumber, contribution)
         == p.(currentCommitmentSequenceNumber := AdvanceHead(p, sequenceNumber, contribution).currentCommitmentSequenceNumber,
               currentCommitment := AdvanceHead(p, sequenceNumber, contribution).currentCommitment)
  {
  }

  /** A reveal of an issued number keeps the window. */
  lemma AdvanceHeadKeepsWindow(p: Provider, sequenceNumber: u64, contribution: Bytes32)
    requires WindowOk(p) && sequenceNumber < p.sequenceNumber
    ensures WindowOk(AdvanceHead(p, sequenceNumber, contribution))
  {
  }

  // ---------------------------------------------------------------------
  // The hash chain an honest provider reveals
  // ---------------------------------------------------------------------

  /**
   * The value an honest provider reveals for number `k` of a chain of
   * length `chainLength` generated from `seed` and registered at `start`:
   * the commitment is the value for `start`, and each later number peels
   * one hash off.
   */
  function HonestContribution(h: Hasher, seed: Bytes32, chainLength: nat, start: nat, k: nat): Bytes32
    requires start <= k <= start + chainLength
  {
    ChainHash(h, seed, chainLength - (k - start))
  }

  /**
   * Completeness of the chain check: hashing the honest value for `k` once
   * for each number since the current head (`num_hashes = k - current`)
   * gives back the head, when the head is itself an honest value.
   */
  lemma HonestRevealMatchesHead(h: Hasher, seed: Bytes32, chainLength: nat, start: nat, current: nat, k: nat)
    requires start <= current <= k <= start + chainLength
    ensures ChainHash(h, HonestContribution(h, seed, chainLength, start, k), k - current)
         == HonestContribution(h, seed, chainLength, start, current)
  {
    ChainHashAdd(h, seed, chainLength - (k - start), k - current);
  }

  // ---------------------------------------------------------------------
  // Runs of registrations, requests and reveals
  // ---------------------------------------------------------------------

  /**
   * What happens to one provider record: a registration (rotation), a
   * request that is granted a number unless the window is used up, and the
   * reveal of a number. A step that fails leaves everything as it was, as
   * the runtime rolls back a failed instruction.
   */
  datatype Op =
    | RegisterOp(authority: Pubkey, args: Instruction.RegisterProviderArgs, bump: byte)
    | RequestOp
    | RevealOp(sequenceNumber: u64, contribution: Bytes32)

  /** The provider record and the numbers handed out so far, in order. */
  datatype History = History(provider: Provider, issued: seq<u64>)

  function Step(s: History, op: Op): History
  {
    match op
    case RegisterOp(authority, args, bump) =>
      if args.chainLength == 0 then s
      else (match Rotate(s.provider, authority, args, bump)
            case Ok(q) => History(q, s.issued)
            case Err(_) => s)
    case RequestOp =>
      (match Allocate(s.provider)
       case Ok((n, q)) => History(q, s.issued + [n])
       case Err(_) => s)
    case RevealOp(n, c) =>
      if n in s.issued then History(AdvanceHead(s.provider, n, c), s.issued) else s
  }

  function Run(s: History, ops: seq<Op>): History
    decreases |ops|
  {
    if ops == [] then s else Run(Step(s, ops[0]), ops[1..])
  }

  /**
   * The history invariant: the window holds, every number handed out lies
   * below the provider's next number, and numbers are handed out in
   * strictly increasing order (so none twice).
   */
  predicate Consistent(s: History)
  {
    WindowOk(s.provider)
    && (forall i :: 0 <= i < |s.issued| ==> s.issued[i] < s.provider.sequenceNumber)
    && (forall i, j :: 0 <= i < j < |s.issued| ==> s.issued[i] < s.issued[j])
  }

  /** Registering opens a consistent history. */
  lemma RegisterStarts(p: Provider, authority: Pubkey, args: Instruction.RegisterProviderArgs, bump: byte)
    requires args.chainLength > 0 && Rotate(p, authority, args, bump).Ok?
    ensures Consistent(Step(History(p, []), RegisterOp(authority, args, bump)))
  {
  }

  /** One step keeps the invariant and never moves the head or the next number back. */
  lemma StepConsistent(s: History, op: Op)
    requires Consistent(s)
    ensures Consistent(Step(s, op))
    ensures Step(s, op).provider.currentCommitmentSequenceNumber >= s.provider.currentCommitmentSequenceNumber
    ensures Step(s, op).provider.sequenceNumber >= s.provider.sequenceNumber
  {
    match op
    case RegisterOp(authority, args, bump) =>
    case RequestOp =>
      if Allocate(s.provider).Ok? {
        var t := Step(s, op);
        assert t.issued == s.issued + [s.provider.sequenceNumber];
        forall i, j | 0 <= i < j < |t.issued|
          ensures t.issued[i] < t.issued[j]
        {
          if j == |s.issued| {
            assert t.issued[i] == s.issued[i];
          }
        }
      }
    case RevealOp(n, c) =>
      if n in s.issued {
        AdvanceHeadKeepsWindow(s.provider, n, c);
      }
  }

  /**
   * Over any run the invariant holds, the chain head never moves back, and
   * the numbers handed out earlier stay handed out.
   */
  lemma {:induction false} RunConsistent(s: History, ops: seq<Op>)
    requires Consistent(s)
    ensures Consistent(Run(s, ops))
    ensures Run(s, ops).provider.currentCommitmentSequenceNumber >= s.provider.currentCommitmentSequenceNumber
    ensures s.issued <= Run(s, ops).issued
    decreases |ops|
  {
    if ops != [] {
      StepConsistent(s, ops[0]);
      StepIssuedGrows(s, ops[0]);
      RunConsistent(Step(s, ops[0]), ops[1..]);
    }
  }

  lemma StepIssuedGrows(s: History, op: Op)
    ensures s.issued <= Step(s, op).issued
  {
  }
}
