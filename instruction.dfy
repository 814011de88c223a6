/**
 * The instruction set of the `programs/entropy` draft: a one-byte tag
 * followed by the instruction's payload.
 */
module Instruction {
  import opened Common
  import Accounts

  datatype EntropyInstruction =
    | Initialize
    | RegisterProvider
    | Request
    | RequestWithCallback
    | Reveal
    | RevealWithCallback
    | AdvanceProviderCommitment
    | UpdateProviderConfig
    | WithdrawProviderFees
    | Governance

  /** The tag byte of each instruction: its position in declaration order. */
  function Tag(v: EntropyInstruction): (t: byte)
    ensures t <= 9
  {
    match v
    case Initialize => 0
    case RegisterProvider => 1
    case Request => 2
    case RequestWithCallback => 3
    case Reveal => 4
    case RevealWithCallback => 5
    case AdvanceProviderCommitment => 6
    case UpdateProviderConfig => 7
    case WithdrawProviderFees => 8
    case Governance => 9
  }

  /**
   * `EntropyInstruction::parse`: split off the tag byte and return the rest
   * as the payload.
   */
  function Parse(input: seq<byte>): (r: Result<(EntropyInstruction, seq<byte>)>)
    ensures r.Ok? <==> input != [] && input[0] <= 9
    ensures r.Ok? ==> Tag(r.value.0) == input[0] && r.value.1 == input[1..]
    ensures r.Err? ==> r.error == InvalidInstructionData
  {
    if input == [] then Err(InvalidInstructionData)
    else
      var payload := input[1..];
      match input[0]
      case 0 => Ok((Initialize, payload))
      case 1 => Ok((RegisterProvider, payload))
      case 2 => Ok((Request, payload))
      case 3 => Ok((RequestWithCallback, payload))
      case 4 => Ok((Reveal, payload))
      case 5 => Ok((RevealWithCallback, payload))
      case 6 => Ok((AdvanceProviderCommitment, payload))
      case 7 => Ok((UpdateProviderConfig, payload))
      case 8 => Ok((WithdrawProviderFees, payload))
      case 9 => Ok((Governance, payload))
      case _ => Err(InvalidInstructionData)
  }

  /** Distinct instructions have distinct tags. */
  lemma TagInjective(v: EntropyInstruction, w: EntropyInstruction)
    ensures Tag(v) == Tag(w) ==> v == w
  {
  }

  /** Parsing a tagged payload gives back the instruction and the payload. */
  lemma ParseRoundTrip(v: EntropyInstruction, payload: seq<byte>)
    ensures Parse([Tag(v)] + payload) == Ok((v, payload))
  {
    var input := [Tag(v)] + payload;
    assert input[1..] == payload;
    TagInjective(v, Parse(input).value.0);
  }

  // ---------------------------------------------------------------------
  // Instruction arguments, as the handlers read them
  // ---------------------------------------------------------------------

  /** `InitializeArgs`, a 72-byte record: admin, pyth fee (u64), default provider. */
  datatype InitializeArgs = InitializeArgs(admin: Pubkey, pythFeeLamports: u64, defaultProvider: Pubkey)

  const INITIALIZE_ARGS_LEN: nat := 72

  function EncodeInitializeArgs(a: InitializeArgs): (r: seq<byte>)
    ensures |r| == INITIALIZE_ARGS_LEN
  {
    a.admin + U64Le(a.pythFeeLamports) + a.defaultProvider
  }

  /**
   * bytemuck's `try_from_bytes` refuses a slice that is not exactly one
   * record long, and also one whose address is not a multiple of the
   * record's alignment. The runtime places instruction data at an 8-aligned
   * address, so a slice is followed by its offset `at` from the start of
   * the instruction data: it is aligned for `align` (1, 2, 4 or 8) exactly
   * when `at` is a multiple of `align`.
   */
  predicate Aligned(at: nat, align: nat)
    requires align > 0
  {
    at % align == 0
  }

  /** The offset of the payload `Parse` returns: just past the tag byte. */
  const TAG_LEN: nat := 1

  /** `InitializeArgs` holds a u64, so it is 8-aligned. */
  const INITIALIZE_ARGS_ALIGN: nat := 8

  /**
   * `parse_initialize_args`: the payload, found `at` bytes into the
   * instruction data, must be exactly one record long and 8-aligned; the
   * record is read in place.
   */
  function ParseInitializeArgs(at: nat, data: seq<byte>): (r: Result<InitializeArgs>)
    ensures r.Ok? <==> |data| == INITIALIZE_ARGS_LEN && Aligned(at, INITIALIZE_ARGS_ALIGN)
    ensures r.Err? ==> r.error == InvalidInstructionData
  {
    if |data| != INITIALIZE_ARGS_LEN then Err(InvalidInstructionData)
    else if !Aligned(at, INITIALIZE_ARGS_ALIGN) then Err(InvalidInstructionData)
    else Ok(InitializeArgs(data[..32], U64From(data[32..40]), data[40..72]))
  }

  /** Parsing and encoding are inverse on 72-byte payloads at an 8-aligned offset. */
  lemma InitializeArgsRoundTrip(a: InitializeArgs, at: nat, data: seq<byte>)
    requires Aligned(at, INITIALIZE_ARGS_ALIGN)
    ensures ParseInitializeArgs(at, EncodeInitializeArgs(a)) == Ok(a)
    ensures |data| == INITIALIZE_ARGS_LEN ==> EncodeInitializeArgs(ParseInitializeArgs(at, data).value) == data
  {
    var e := EncodeInitializeArgs(a);
    assert e[..32] == a.admin && e[32..40] == U64Le(a.pythFeeLamports) && e[40..72] == a.defaultProvider;
    U64RoundTrip(a.pythFeeLamports);
    if |data| == INITIALIZE_ARGS_LEN {
      U64BytesRoundTrip(data[32..40]);
      assert data == data[..32] + data[32..40] + data[40..72];
    }
  }

  datatype RegisterProviderArgs = RegisterProviderArgs(
    feeLamports: u64,
    commitment: Bytes32,
    commitmentMetadataLen: u16,
    commitmentMetadata: Accounts.Bytes64,
    chainLength: u64,
    uriLen: u16,
    uri: Accounts.Bytes256)

  /** The arguments of the single-file request handler, which also name the provider. */
  datatype ProviderRequestArgs = ProviderRequestArgs(
    provider: Pubkey,
    userCommitment: Bytes32,
    useBlockhash: byte,
    computeUnitLimit: u32)

  datatype RevealArgs = RevealArgs(
    provider: Pubkey,
    sequenceNumber: u64,
    userContribution: Bytes32,
    providerContribution: Bytes32)

  /**
   * `RequestArgs`, a 40-byte plain-old-data record: the user commitment,
   * the blockhash flag, three padding bytes and the compute-unit limit.
   */
  datatype RequestArgs = RequestArgs(userCommitment: Bytes32, useBlockhash: byte, computeUnitLimit: u32)

  const REQUEST_ARGS_LEN: nat := 40

  /** The bytes of a `RequestArgs` record, padding zeroed. */
  function EncodeRequestArgs(a: RequestArgs): (r: seq<byte>)
    ensures |r| == REQUEST_ARGS_LEN
  {
    a.userCommitment + [a.useBlockhash] + Zeros(3) + U32Le(a.computeUnitLimit)
  }

  /** `RequestArgs` holds a u32, so it is 4-aligned. */
  const REQUEST_ARGS_ALIGN: nat := 4

  /**
   * `parse_request_args` / `parse_args::<RequestArgs>`: the payload, found
   * `at` bytes into the instruction data, must be exactly one record long
   * and 4-aligned; the record is read in place.
   */
  function ParseRequestArgs(at: nat, data: seq<byte>): (r: Result<RequestArgs>)
    ensures r.Ok? <==> |data| == REQUEST_ARGS_LEN && Aligned(at, REQUEST_ARGS_ALIGN)
    ensures r.Err? ==> r.error == InvalidInstructionData
  {
    if |data| != REQUEST_ARGS_LEN then Err(InvalidInstructionData)
    else if !Aligned(at, REQUEST_ARGS_ALIGN) then Err(InvalidInstructionData)
    else Ok(RequestArgs(data[..32], data[32], U32From(data[36..40])))
  }

  /** Parsing the bytes of a record at a 4-aligned offset gives the record back. */
  lemma ParseRequestArgsRoundTrip(a: RequestArgs, at: nat)
    requires Aligned(at, REQUEST_ARGS_ALIGN)
    ensures ParseRequestArgs(at, EncodeRequestArgs(a)) == Ok(a)
  {
    var data := EncodeRequestArgs(a);
    assert data[..32] == a.userCommitment;
    assert data[36..40] == U32Le(a.computeUnitLimit);
    U32RoundTrip(a.computeUnitLimit);
  }

  /** A 40-byte payload that parses is the encoding of what it parses to, up to its padding bytes. */
  lemma ParseRequestArgsExact(at: nat, data: seq<byte>)
    requires |data| == REQUEST_ARGS_LEN && Aligned(at, REQUEST_ARGS_ALIGN) && data[33..36] == Zeros(3)
    ensures EncodeRequestArgs(ParseRequestArgs(at, data).value) == data
  {
    var a := ParseRequestArgs(at, data).value;
    LeBytesOfLeValue(data[36..40]);
    assert EncodeRequestArgs(a) == data[..32] + [data[32]] + data[33..36] + data[36..40];
    assert data == data[..32] + [data[32]] + data[33..36] + data[36..40];
  }

  /**
   * The one-byte tag leaves every payload at an odd offset, so neither
   * record parser accepts any payload `Parse` returns: every initialize
   * and every request routed through this instruction set is
   * InvalidInstructionData.
   */
  lemma TaggedPayloadsMisaligned(input: seq<byte>)
    requires Parse(input).Ok?
    ensures ParseInitializeArgs(TAG_LEN, Parse(input).value.1) == Err(InvalidInstructionData)
    ensures ParseRequestArgs(TAG_LEN, Parse(input).value.1) == Err(InvalidInstructionData)
  {
  }
}
