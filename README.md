# Entropy: a Dafny model of the Solana commit-reveal randomness program

Entropy is a Solana program that hands out random numbers through a two-party
commit-reveal protocol. A **provider** registers a SHA-256 hash chain: it
commits to the chain's last value and later reveals earlier values one at a
time. A **requester** program asks for a number by sending a commitment to its
own secret. The request records the provider's chain head and the combined
commitment `hashv(user_commitment, provider_commitment)`. At reveal time both
contributions are disclosed. The program checks them against the record and
combines them, optionally with a recent slot hash, into the random value. For
a callback request it then invokes the requester's callback with that value.
Program-derived addresses (PDAs) hold the records:

- the global config;
- each provider and its fee vault;
- the protocol fee vault;
- one short-lived account per request.

The repository holds three codebases, and the model keeps each one as
written:

- `target_chains/solana/programs/entropy`, written against `solana_program`:
  - the dispatcher and the single-file handlers in `processor.rs` and
    `processor/request.rs`, which are modelled as the "legacy" files;
  - the split handlers in `processor/{initialize, register_provider,
    request/*, reveal_with_callback}.rs`, the "native" draft;
- `target_chains/solana/entropy/programs/entropy`, the same handlers written
  against pinocchio, the "pinocchio" draft, with its system-instruction
  builders and record discriminators;
- `target_chains/solana/entropy/programs/simple-requester`, a sample
  requester that forwards requests to Entropy and receives the callback.

Accounts are objects of `class Account`: a fixed key and signer and writable
flags, and a mutable owner, lamport balance and typed data. Handlers are
methods over those objects. Every handler computes in the order of the
source, writes only on success, and promises that a failure leaves every
account as it was. That is the runtime's rollback of a failed instruction.

What the runtime provides comes in through an `Env` value:

- the program id;
- SHA-256 and the PDA derivation, as functions;
- the clock slot and the slot-hashes sysvar;
- the rent minimum of each record size.

Whether a callback invocation succeeds is a boolean input.

The main results:

- **The provider chain.**
  - Hashing an honest reveal once per number since the chain head gives the
    head back (`ProviderChain.HonestRevealMatchesHead`).
  - An honest provider and requester therefore pass every reveal check in
    both drafts (`NativeReveal.HonestRevealPasses`,
    `PinocchioReveal.HonestRevealPasses`).
  - Over any sequence of registrations, requests and reveals, numbers are
    handed out in strictly increasing order within the registered window,
    and the chain head never moves back (`ProviderChain.RunConsistent`).
- **Handlers succeed exactly when their checks pass.** Each handler states
  the exact condition under which it succeeds. For the request and reveal
  handlers that condition is an outcome function listing the source's
  checks in order, and the handler fails with that function's error
  (`RequestIssue.RequestOutcome`, `NativeReveal.RevealOutcome`, and the
  like). Each request handler is proved against one issuing specification,
  `RequestIssue.Issue`. The single-file issuing agrees with it except where
  the accrued counters overflow (`LegacyRequest.LegacyIssueAgrees`).
- **Argument parsers.** Each parser accepts exactly the encodings of a
  reference layout that sit where the source's in-place casts are aligned,
  and returns what that layout reads:
  - the two `parse_request_with_callback_args` parsers;
  - the legacy offset walk;
  - the requester's callback payload.
- **Alignment of in-place casts.** `bytemuck::try_from_bytes` refuses a
  slice that is not aligned for the record type. The instruction data
  starts 8-aligned, so a parser's success depends on the payload's offset
  in it, which the model carries as an argument:
  - the `programs/entropy` dispatcher strips a one-byte tag, so the
    initialize and request records it passes on can never be cast
    (`Instruction.TaggedPayloadsMisaligned`). The handlers that take typed
    arguments describe the layout the drafts' tests use, where an 8-byte
    discriminator precedes the record;
  - the pinocchio dispatcher's tag length is not in the repository, so its
    payload offset is an input of the pinocchio handlers;
  - on an aligned payload, the pinocchio callback parser refuses an odd
    number of callback accounts, because the data-length field behind the
    34-byte entries is then misaligned
    (`PinocchioRequestWithCallback.CastsAlignedIffEven`);
  - the simple requester's request action passes its arguments at offset
    1, where they never parse (`SimpleRequester.RequestActionNeverParses`),
    while raw arguments at offset 0 do.
- **The legacy two-layout parser is ambiguous.** It tries the layout with
  user randomness first. So a request without randomness whose callback
  data is 32 zero bytes is read as a request with randomness and no data
  (`LegacyRequest.AmbiguousLayout`).
- **Legacy pricing of a zero limit.** A legacy callback request that leaves
  its compute-unit limit at 0 is priced at the provider's default rounded up
  to a multiple of 10 000. It costs the base fee plus base times the
  rounding gap over the default, so it exceeds the base fee exactly when
  base times the gap reaches the default (`LegacyRequest.DefaultLimitFee`).
- **The pinocchio close keeps the record.** The pinocchio reveal empties the
  request account's lamports but leaves its data. On the accounts as they
  stand afterwards, the same reveal passes every check again (the last
  `ensures` of `PinocchioReveal.ProcessRevealWithCallback`). The native
  draft zeroes the data, and there a second reveal is refused.

## Model

| member | source | states |
|---|---|---|
| Common.CheckedAdd | target_chains/solana/programs/entropy/src/processor/request.rs:214-225 | `checked_add` on u64 succeeds exactly when the sum fits in 64 bits and then returns the sum; otherwise InvalidArgument |
| Common.LeBytesInjective | target_chains/solana/programs/entropy/src/processor/request/request_with_callback.rs:212-217 | equal little-endian encodings of the same width come from equal values |
| Common.U32BytesRoundTrip | target_chains/solana/programs/entropy/src/processor/request/request_with_callback.rs:212-217 | `u32::from_le_bytes` of four bytes, re-encoded, gives the same four bytes |
| Common.U64RoundTrip | target_chains/solana/entropy/programs/simple-requester/src/lib.rs:227-231 | decoding the 8-byte little-endian encoding of a u64 gives the value back |
| Common.U64BytesRoundTrip | target_chains/solana/entropy/programs/simple-requester/src/lib.rs:227-231 | `u64::from_le_bytes` of eight bytes, re-encoded, gives the same eight bytes |
| Hashing.ChainHashAdd | target_chains/solana/programs/entropy/src/processor/reveal_with_callback.rs:186-194 | hashing m times and then n more times is hashing m + n times |
| Hashing.ChainHashLinks | target_chains/solana/programs/entropy/src/processor/reveal_with_callback.rs:112-115 | links of the chain compose, so a provider may move its head to any revealed value and later reveals still check against the new head |
| Discriminator.AccountDiscriminator | target_chains/solana/entropy/programs/entropy/src/discriminator.rs:1-3 | a record's discriminator is 8 bytes whose little-endian value is the record's ordinal |
| Discriminator.DiscriminatorInjective | target_chains/solana/entropy/programs/entropy/src/discriminator.rs:1-3 | distinct ordinals never share a discriminator |
| Discriminator.ConfigDiscriminatorIsZero | target_chains/solana/entropy/programs/entropy/src/discriminator.rs:5-7 | the config discriminator is eight zero bytes, the same bytes as a freshly allocated account |
| Discriminator.DiscriminatorsDistinct | target_chains/solana/entropy/programs/entropy/src/discriminator.rs:5-17 | the config, provider and request records are told apart by their discriminators |
| Accounts.LoadConfig | target_chains/solana/entropy/programs/entropy/src/pda_loader.rs:16-31 | a config loads exactly from a program-owned account holding a config record; anything else is InvalidAccount |
| Accounts.LoadProvider | target_chains/solana/entropy/programs/entropy/src/pda_loader.rs:16-31 | a provider loads exactly from a program-owned account holding a provider record; anything else is InvalidAccount |
| Accounts.LoadRequest | target_chains/solana/entropy/programs/entropy/src/pda_loader.rs:16-31 | a request loads exactly from a program-owned account holding a request record; anything else is InvalidAccount |
| Accounts.Transfer | target_chains/solana/programs/entropy/src/processor/request/mod.rs:149-177 | a system transfer moves exactly the amount and keeps the total; it fails when the source is short or the destination would overflow |
| Accounts.CreateAccount | target_chains/solana/programs/entropy/src/processor/request.rs:652-683 | `create_account` funds a new account with exactly the amount; it fails when the target already holds lamports or the payer is short |
| Accounts.InitPdaBalances | target_chains/solana/entropy/programs/entropy/src/pda_loader.rs:53-114 | an initialised PDA ends with the larger of its balance and the rent minimum, the payer pays the difference, and no lamports are created |
| Accounts.InitVaultBalances | target_chains/solana/entropy/programs/entropy/src/vault.rs:12-35 | a vault is topped up to the zero-byte rent minimum only when below it, paid by the payer |
| Fees.RoundUpTo10k | target_chains/solana/programs/entropy/src/processor/request.rs:611-622 | the rounded limit lies in [limit, limit + 10 000) |
| Fees.RoundUpIsLeastMultiple | target_chains/solana/programs/entropy/src/processor/request.rs:611-622 | the rounded limit is the least multiple of 10 000 at or above the limit |
| Fees.RoundUpMonotone | target_chains/solana/programs/entropy/src/processor/request.rs:611-622 | rounding keeps the order of limits |
| Fees.CalculateProviderFee | target_chains/solana/programs/entropy/src/processor/request.rs:624-650 | the fee is never below the base fee; it is the base fee when there is no default limit or the rounded limit is within it; failures are InvalidArgument |
| Fees.FeeIsScaledBase | target_chains/solana/programs/entropy/src/processor/request.rs:624-650 | a priced fee is the base fee scaled by rounded limit over default limit, and never below the base fee |
| Fees.FeeMonotone | target_chains/solana/programs/entropy/src/processor/request.rs:624-650 | for one provider, asking for more compute units never costs less, and a smaller limit is priced whenever a larger one is |
| Instruction.Tag | target_chains/solana/programs/entropy/src/instruction.rs:20-42 | each instruction's tag is its position among the ten instructions |
| Instruction.TagInjective | target_chains/solana/programs/entropy/src/instruction.rs:20-42 | distinct instructions have distinct tags |
| Instruction.Parse | target_chains/solana/programs/entropy/src/instruction.rs:20-42 | parsing succeeds exactly on a non-empty input whose first byte is a known tag, and returns the remaining bytes as the payload; otherwise InvalidInstructionData |
| Instruction.ParseRoundTrip | target_chains/solana/programs/entropy/src/instruction.rs:20-42 | a tag followed by a payload parses back to that instruction and payload |
| Instruction.ParseInitializeArgs | target_chains/solana/programs/entropy/src/processor.rs:324-331 | the initialize payload parses exactly when it is one 72-byte record at an 8-aligned offset in the instruction data, the size check first and then the alignment of `try_from_bytes`; anything else is InvalidInstructionData |
| Instruction.InitializeArgsRoundTrip | target_chains/solana/programs/entropy/src/processor.rs:324-331 | at any 8-aligned offset, parsing and encoding of initialize arguments are inverse |
| Instruction.ParseRequestArgs | target_chains/solana/entropy/programs/entropy/src/processor/mod.rs:20-26 | the request payload parses exactly when it is 40 bytes at a 4-aligned offset; the record is read in place; anything else is InvalidInstructionData |
| Instruction.ParseRequestArgsRoundTrip | target_chains/solana/entropy/programs/entropy/src/processor/mod.rs:20-26 | at any 4-aligned offset, the bytes of a request record parse back to that record |
| Instruction.ParseRequestArgsExact | target_chains/solana/programs/entropy/src/processor/request/request.rs:119-125 | a 40-byte payload at a 4-aligned offset is the encoding of what it parses to, up to its padding bytes |
| Instruction.TaggedPayloadsMisaligned | target_chains/solana/programs/entropy/src/instruction.rs:23-40 | behind the one-byte tag the payload starts at offset 1, where neither an initialize record nor a request record can be cast, so both parse to InvalidInstructionData |
| ProviderChain.Rotate | target_chains/solana/programs/entropy/src/processor/register_provider.rs:114-133 | a registration makes the new commitment both the original and the current head at the old sequence number, opens a window of `chain_length` numbers (a u64 overflow is InvalidArgument), keeps the operator fields, and leaves a valid window |
| ProviderChain.FirstRegistration | target_chains/solana/entropy/programs/entropy/src/processor/register_provider.rs:91-110 | a first registration starts the window at 0, with the next number 1 and no fees, fee manager or limits |
| ProviderChain.Allocate | target_chains/solana/programs/entropy/src/processor/request/mod.rs:141-147 | a request gets the provider's next number exactly when the window is not used up, and the next number grows; otherwise OutOfRandomness |
| ProviderChain.AllocateKeepsWindow | target_chains/solana/programs/entropy/src/processor/request/mod.rs:141-147 | allocation moves only `sequence_number`, by exactly one, and keeps the window valid |
| ProviderChain.AdvanceHead | target_chains/solana/programs/entropy/src/processor/reveal_with_callback.rs:112-115 | after a reveal the head's sequence number is the larger of the old head and the revealed number |
| ProviderChain.AdvanceHeadMonotone | target_chains/solana/entropy/programs/entropy/src/processor/reveal_with_callback.rs:99-102 | the head never moves back, a repeated reveal changes nothing more, and nothing but the head changes |
| ProviderChain.AdvanceHeadKeepsWindow | target_chains/solana/entropy/programs/entropy/src/processor/reveal_with_callback.rs:99-102 | revealing an issued number keeps the provider's window valid |
| ProviderChain.HonestRevealMatchesHead | target_chains/solana/programs/entropy/src/processor/reveal_with_callback.rs:90-96 | hashing an honest provider's value for number k once per number since the current head gives the head back |
| ProviderChain.RegisterStarts | target_chains/solana/programs/entropy/src/processor/register_provider.rs:114-133 | a successful registration opens a consistent history |
| ProviderChain.StepConsistent | target_chains/solana/programs/entropy/src/processor/request/mod.rs:141-147 | a registration, request or reveal keeps the history consistent and never moves the head or the next number back |
| ProviderChain.RunConsistent | target_chains/solana/programs/entropy/src/processor/request/mod.rs:141-147 | over any sequence of operations, numbers stay inside the window and are handed out in strictly increasing order (so never twice), earlier grants are kept, and the head never moves back |
| Registration.RotateInPlace | target_chains/solana/programs/entropy/src/processor/register_provider.rs:114-133 | the field-by-field in-place update computes exactly the registration record `Rotate` specifies |
| LegacyProcessor.Dispatch | target_chains/solana/programs/entropy/src/processor.rs:23-43 | tags 0 and 1 route to initialize and register-provider with the rest of the input, tags 2 to 9 are NotImplemented, and an empty or unknown tag is InvalidInstructionData |
| LegacyProcessor.ProcessInitialize | target_chains/solana/programs/entropy/src/processor.rs:45-140 | zero admin or default provider is InvalidArgument and an unsigned payer is MissingRequiredSignature; it succeeds exactly when the arguments are non-zero, the account checks hold, the config account holds no lamports and the payer can pay the config rent and the vault top-up; then the config was created at exactly its rent minimum and holds the new config, the vault was topped up, and no lamports were created; the payer's owner and data never change; a failure changes nothing |
| LegacyProcessor.ProcessRegisterProvider | target_chains/solana/programs/entropy/src/processor.rs:142-322 | its result is exactly `LegacyProcessor.RegisterOutcome`: the argument lengths, the signature, the writable flags and system program, the three PDAs (InvalidPda), the config, the creation of the provider and the vault, a stored record of another authority (InvalidAccount) and the window end, in source order; it succeeds exactly when the arguments are valid, the account checks hold, the provider account is either empty and uncreated or holds the signing authority's record, the vault is uncreated, the rotation fits in u64 and the authority can pay for what is created; then the record written is the rotation of the previous one, new accounts are created at their rent minimum, no lamports are created; the authority's owner and data never change; a failure changes nothing |
| DraftInitialize.ProcessInitialize | target_chains/solana/programs/entropy/src/processor/initialize.rs:22-88 | for both two-file drafts: zero admin or default provider is InvalidArgument and an unsigned payer MissingRequiredSignature; it succeeds exactly when the arguments are non-zero, the account checks hold, the vault is uncreated and the payer can pay both rent top-ups; then the config ends at the larger of its balance and its rent minimum, owned by the program and holding the new config, the vault is topped up, and no lamports are created; the payer's owner and data never change; a failure changes nothing |
| NativeRegister.ProcessRegisterProvider | target_chains/solana/programs/entropy/src/processor/register_provider.rs:24-136 | its result is exactly `NativeRegister.RegisterOutcome`: the argument lengths, the signature, the writable flags and system program, the three PDAs (InvalidPda), the config, then `Registration.RegisterTail` (a system-owned provider account that is not empty, or a stored record of another authority, is InvalidAccount; the vault; the window end), in source order; it succeeds exactly when the arguments are valid, the account checks hold, the provider account is system-owned and empty or holds the signing authority's record, the vault is uncreated, the rotation fits in u64 and the authority can pay the rent top-ups; then a system-owned provider account is brought to its rent minimum and zeroed, the record is rotated in place and the vault is topped up; the authority's owner and data never change; a failure changes nothing |
| PinocchioRegister.ProcessRegisterProvider | target_chains/solana/entropy/programs/entropy/src/processor/register_provider.rs:18-113 | its result is exactly `PinocchioRegister.RegisterOutcome`, the native order without the config account (two PDAs, then `Registration.RegisterTail`), with the same success condition and registration contract as the native draft |
| RequestIssue.CheckSignersAndWritable | target_chains/solana/programs/entropy/src/processor/request/mod.rs:62-80 | a missing signature is MissingRequiredSignature, a read-only written account or a wrong system program is InvalidAccount, and success means all of them hold |
| RequestIssue.CheckAccounts | target_chains/solana/programs/entropy/src/processor/request/mod.rs:82-137 | the address and state checks succeed exactly when every PDA and account state is right, and then return the stored config and provider |
| RequestIssue.CheckRequestAccounts | target_chains/solana/programs/entropy/src/processor/request/mod.rs:60-137 | the signature checks come before the address checks, and success means both hold |
| RequestIssue.NumHashes | target_chains/solana/programs/entropy/src/processor/request/mod.rs:187-193 | `num_hashes` is the distance from the chain head; a head ahead of the number or a distance beyond u32 is InvalidArgument, and a distance beyond a non-zero `max_num_hashes` is LastRevealedTooOld |
| RequestIssue.PayRequest | target_chains/solana/programs/entropy/src/processor/request/mod.rs:149-184 | the payer pays the provider fee, the protocol fee and the request account's rent shortfall, and the total of the balances is kept |
| RequestIssue.CaptureMetas | target_chains/solana/programs/entropy/src/processor/request/mod.rs:195-200 | the 16 callback slots hold the supplied accounts in order, then empty slots |
| RequestIssue.CaptureData | target_chains/solana/programs/entropy/src/processor/request/mod.rs:201-205 | the 256-byte buffer holds the supplied data, then zero bytes |
| RequestIssue.CaptureRoundTrip | target_chains/solana/programs/entropy/src/processor/request/mod.rs:195-205 | the stored prefix of the slots and of the buffer gives back exactly the captured accounts and data |
| RequestIssue.RecordDetermined | target_chains/solana/programs/entropy/src/processor/request/mod.rs:214-237 | two request records that agree on the issued fields, the callback part, the requester signer and the bump are the same record |
| RequestIssue.IssueSpec | target_chains/solana/programs/entropy/src/processor/request/mod.rs:139-193 | an issued request takes the provider's next number and moves it on by one, keeps the window, creates no lamports and records the distance to the head; it fails exactly when a step fails, with that step's error |
| RequestIssue.Commit | target_chains/solana/programs/entropy/src/processor/request/mod.rs:179-237 | the grant's balances and records are written to the five accounts |
| NativeRequest.RequestHelper | target_chains/solana/programs/entropy/src/processor/request/mod.rs:50-240 | oversized callback lists are InvalidInstructionData, then account errors, then issuing errors; on success the grant is the issued one and its record carries the callback configuration |
| NativeRequest.NoCallbackRecord | target_chains/solana/programs/entropy/src/processor/request/mod.rs:207-235 | a plain request records no callback program, accounts or data, status NOT_NECESSARY and the provider's default limit |
| NativeRequest.ProcessRequest | target_chains/solana/programs/entropy/src/processor/request/request.rs:21-117 | it succeeds exactly when `RequestIssue.RequestOutcome` does and otherwise fails with its error: the payload parse (40 bytes, 4-aligned), the blockhash flag, the account checks and the issuing, in source order; on success the grant is written, the provider's lamports and owner and the payer's and vaults' owners and data are unchanged, and the return data is the number as eight little-endian bytes; a failure changes nothing |
| NativeRequestWithCallback.ReadBytes | target_chains/solana/programs/entropy/src/processor/request/request_with_callback.rs:231-238 | splits exactly `len` bytes off the front, or InvalidInstructionData when fewer remain |
| NativeRequestWithCallback.ReadU32 | target_chains/solana/programs/entropy/src/processor/request/request_with_callback.rs:212-217 | reads a little-endian u32 from four bytes |
| NativeRequestWithCallback.ReadU8 | target_chains/solana/programs/entropy/src/processor/request/request_with_callback.rs:219-222 | reads one byte |
| NativeRequestWithCallback.ReadArray32 | target_chains/solana/programs/entropy/src/processor/request/request_with_callback.rs:224-229 | reads a 32-byte array |
| NativeRequestWithCallback.ReadCallbackMeta | target_chains/solana/programs/entropy/src/processor/request/request_with_callback.rs:198-210 | reads the same entry as the reference layout, and a flag above 1 is InvalidInstructionData |
| NativeRequestWithCallback.ReadCallbackMetas | target_chains/solana/programs/entropy/src/processor/request/request_with_callback.rs:176-183 | the account loop reads exactly what the reference layout reads for that count |
| NativeRequestWithCallback.ParseRequestWithCallbackArgs | target_chains/solana/programs/entropy/src/processor/request/request_with_callback.rs:165-196 | accepts exactly the reference encodings with at most 16 accounts and 256 data bytes, and returns what they encode; anything else is InvalidInstructionData |
| NativeRequestWithCallback.OverwriteMetas | target_chains/solana/programs/entropy/src/processor/request/request_with_callback.rs:132-140 | the slots end as the supplied accounts followed by cleared slots, whatever they held before |
| NativeRequestWithCallback.OverwriteData | target_chains/solana/programs/entropy/src/processor/request/request_with_callback.rs:147-151 | the buffer ends as the supplied bytes followed by zeros, whatever it held before |
| NativeRequestWithCallback.WriteCallback | target_chains/solana/programs/entropy/src/processor/request/request_with_callback.rs:126-152 | sets status NOT_STARTED, the limit, the lengths and the padded slots and buffer, and changes nothing else in the record |
| NativeRequestWithCallback.CallbackOverwrite | target_chains/solana/programs/entropy/src/processor/request/request_with_callback.rs:112-152 | the final record keeps the issued fields, holds the callback accounts and data, and its callback program stays zero |
| NativeRequestWithCallback.ProcessRequestWithCallback | target_chains/solana/programs/entropy/src/processor/request/request_with_callback.rs:23-156 | it succeeds exactly when `CallbackRequestOutcome` does and otherwise fails with its error: the argument parse and bounds, the signer checks, a callback program other than the requester program, the account checks and the issuing, in source order; on success the grant is issued with commitment `hash(user_randomness)` and no blockhash, and the record carries the callback part; the provider's lamports and owner and the payer's and vaults' owners and data are unchanged; a failure changes nothing |
| CallbackArgs.EncodeMetas | target_chains/solana/programs/entropy/src/processor/request/request_with_callback.rs:176-183 | each callback account takes 34 bytes |
| CallbackArgs.DecodeMetas | target_chains/solana/programs/entropy/src/processor/request/request_with_callback.rs:198-210 | reading n accounts succeeds only on n full entries with boolean flags, and consumes exactly 34·n bytes |
| CallbackArgs.DecodeEncodeMetas | target_chains/solana/programs/entropy/src/processor/request/request_with_callback.rs:176-183 | encoded accounts with boolean flags read back as themselves, followed by the same rest |
| CallbackArgs.EncodeDecodeMetas | target_chains/solana/programs/entropy/src/processor/request/request_with_callback.rs:176-183 | whatever reads as n accounts is exactly their encoding followed by the rest |
| CallbackArgs.BodyRoundTrip | target_chains/solana/programs/entropy/src/processor/request/request_with_callback.rs:165-196 | every encodable callback body reads back as itself |
| CallbackArgs.BodyExact | target_chains/solana/programs/entropy/src/processor/request/request_with_callback.rs:165-196 | whatever reads as a callback body is exactly that body's encoding |
| CallbackArgs.ArgsRoundTrip | target_chains/solana/programs/entropy/src/processor/request/request_with_callback.rs:165-196 | encoding and decoding of whole callback-request arguments are inverse in both directions |
| PinocchioRequest.RecordedLimit | target_chains/solana/entropy/programs/entropy/src/processor/request/mod.rs:93-97 | the recorded limit is the larger of the requested limit and the provider's default |
| PinocchioRequest.RequestHelper | target_chains/solana/entropy/programs/entropy/src/processor/request/mod.rs:29-102 | issuing errors come in order; on success the grant is the issued one and the record is a zeroed record with the issued fields, status NOT_NECESSARY and the larger limit |
| PinocchioRequest.ProcessRequest | target_chains/solana/entropy/programs/entropy/src/processor/request/request.rs:18-117 | the same exact outcome and the same written state and unchanged fields as the native request, with the records loaded before the provider PDA checks |
| PinocchioRequestWithCallback.CastMetas | target_chains/solana/entropy/programs/entropy/src/processor/request/request_with_callback.rs:189-191 | 34-byte chunks are read as callback accounts without checking their flags |
| PinocchioRequestWithCallback.CastAgreesWithDecode | target_chains/solana/entropy/programs/entropy/src/processor/request/request_with_callback.rs:189-196 | casting entries and then checking their flags reads exactly what the reference layout reads |
| PinocchioRequestWithCallback.ParseRequestWithCallbackArgs | target_chains/solana/entropy/programs/entropy/src/processor/request/request_with_callback.rs:169-212 | accepts exactly the reference encodings whose header and data-length casts are 4-aligned, with no bound on the account count or the data length, and returns what they encode; anything else is InvalidInstructionData |
| PinocchioRequestWithCallback.CastsAlignedIffEven | target_chains/solana/entropy/programs/entropy/src/processor/request/request_with_callback.rs:176-200 | on a 4-aligned payload the data-length cast after the 34-byte callback entries is aligned exactly when the number of callback accounts is even |
| PinocchioRequestWithCallback.CheckFlags | target_chains/solana/entropy/programs/entropy/src/processor/request/request_with_callback.rs:192-196 | the flag loop over the cast entries passes exactly when every flag is 0 or 1 |
| PinocchioRequestWithCallback.CopyMetas | target_chains/solana/entropy/programs/entropy/src/processor/request/request_with_callback.rs:140-142 | each supplied account goes into its slot, and later slots keep what they held |
| PinocchioRequestWithCallback.CopyData | target_chains/solana/entropy/programs/entropy/src/processor/request/request_with_callback.rs:146-147 | the supplied bytes go first, and the rest of the buffer keeps what it held |
| PinocchioRequestWithCallback.WriteCallback | target_chains/solana/entropy/programs/entropy/src/processor/request/request_with_callback.rs:130-148 | sets status, limit and lengths; more than 16 accounts or 256 data bytes is InvalidAccount; the copies do not clear the tails |
| PinocchioRequestWithCallback.CopyOverZero | target_chains/solana/entropy/programs/entropy/src/processor/request/request_with_callback.rs:130-148 | on a fresh record, copying without clearing gives the padded slots and buffer |
| PinocchioRequestWithCallback.ProcessRequestWithCallback | target_chains/solana/entropy/programs/entropy/src/processor/request/request_with_callback.rs:25-152 | it succeeds exactly when `CallbackRequestOutcome` does and otherwise fails with its error: the argument parse, callback accounts naming the Entropy program, the issuing and the record bounds, in source order; on success the grant is issued with commitment `hash(user_randomness)` and the record carries the callback part; the provider's lamports and owner and the payer's and vaults' owners and data are unchanged; a failure changes nothing |
| LegacyRequest.LegacyNumHashes | target_chains/solana/programs/entropy/src/processor/request.rs:128-135 | accepts exactly what `RequestIssue.NumHashes` accepts, with the same value; only a distance beyond u32 under a non-zero `max_num_hashes` errs differently (LastRevealedTooOld) |
| LegacyRequest.Admit | target_chains/solana/programs/entropy/src/processor/request.rs:124-135 | a used-up window is OutOfRandomness; otherwise the result is `num_hashes` of the provider's next number |
| LegacyRequest.LegacyPay | target_chains/solana/programs/entropy/src/processor/request.rs:150-210 | the request account is created at exactly its rent minimum, which fails if it holds lamports, then both fees are paid; on an empty account the outcome equals `PayRequest` |
| LegacyRequest.Charge | target_chains/solana/programs/entropy/src/processor/request.rs:139-225 | a success creates no lamports, the vaults grow by exactly what the accrued counters record, and only the counters and the next number change in the records |
| LegacyRequest.LegacyIssueAgrees | target_chains/solana/programs/entropy/src/processor/request.rs:124-225 | on a valid window and an empty request account, the single-file issuing succeeds exactly when the two-file issuing does and neither counter overflows, and then grants the same `num_hashes` and balances |
| LegacyRequest.GenerateUserRandomness | target_chains/solana/programs/entropy/src/processor/request.rs:589-609 | the generated randomness hashes the config seed, the slot, the latest slot hash and the requester signer, and it becomes the new seed; no slot hash is InvalidArgument |
| LegacyRequest.UserRandomness | target_chains/solana/programs/entropy/src/processor/request.rs:351-354 | supplied randomness is used as is and leaves the config unchanged; otherwise it is generated |
| LegacyRequest.DefaultLimitFee | target_chains/solana/programs/entropy/src/processor/request.rs:358-367 | a zero limit is priced at the provider's default rounded up to 10 000 units: the base fee plus base times the rounding gap over the default, which exceeds the base fee exactly when base times the gap reaches the default, and is the base fee when the default is a multiple of 10 000 |
| LegacyRequest.LegacyCheckSigners | target_chains/solana/programs/entropy/src/processor/request.rs:35-62 | signature, writability (config included) and system-program checks, each with its own error |
| LegacyRequest.LegacyCheckAddresses | target_chains/solana/programs/entropy/src/processor/request.rs:64-105 | succeeds exactly when every PDA, taken from the named authority, matches, and the vaults and request account are uncreated |
| LegacyRequest.LegacyLoad | target_chains/solana/programs/entropy/src/processor/request.rs:107-122 | loads both records; a provider of another authority is refused |
| LegacyRequest.LegacyCommit | target_chains/solana/programs/entropy/src/processor/request.rs:150-225 | writes the charged balances, both records and the new request |
| LegacyRequest.ProcessRequest | target_chains/solana/programs/entropy/src/processor/request.rs:29-228 | its result is exactly `LegacyRequest.RequestOutcome`: the blockhash flag, the signer and address checks, the record loads, the window and the charge, in source order; on success the provider and config carry the charged counters and the new record holds the issued fields without a callback; the provider's and config's lamports and owners and the payer's and vaults' owners and data are unchanged; a failure changes nothing |
| LegacyRequest.ReadU32Len | target_chains/solana/programs/entropy/src/processor/request.rs:576-587 | reads a little-endian u32 at the offset and moves past it, or InvalidInstructionData when fewer than four bytes remain |
| LegacyRequest.ReadMetasAt | target_chains/solana/programs/entropy/src/processor/request.rs:526-552 | after the length check, reads the same accounts as the reference layout; only a flag above 1 stops it |
| LegacyRequest.ReadIxDataAt | target_chains/solana/programs/entropy/src/processor/request.rs:554-565 | reads the data length and the data, and refuses trailing bytes |
| LegacyRequest.ReadBodyAt | target_chains/solana/programs/entropy/src/processor/request.rs:516-573 | from the limit on, accepts exactly what the reference body reading accepts at the offset, and returns that body |
| LegacyRequest.ParseInner | target_chains/solana/programs/entropy/src/processor/request.rs:491-574 | accepts exactly the encodings of the chosen layout and returns what they encode; every failure is InvalidInstructionData |
| LegacyRequest.ParseLegacyCallbackArgs | target_chains/solana/programs/entropy/src/processor/request.rs:486-489 | the layout with randomness is tried first, then the one without |
| LegacyRequest.LegacyArgsRoundTrip | target_chains/solana/programs/entropy/src/processor/request.rs:486-574 | arguments with randomness always read back as themselves; arguments without it do so exactly when their encoding does not also read as arguments with randomness; whatever parses is an encoding |
| LegacyRequest.AmbiguousLayout | target_chains/solana/programs/entropy/src/processor/request.rs:486-489 | a request without randomness carrying 32 zero data bytes parses as a request with randomness and no data |
| LegacyRequest.ProcessRequestWithCallback | target_chains/solana/programs/entropy/src/processor/request.rs:230-468 | its result is exactly `LegacyRequest.CallbackRequestOutcome`: the argument parse, the signers, the number of remaining accounts, the addresses, the record bounds, the loads, the window, the randomness and the charge at the chosen limit, in source order; on success the request is issued from the supplied or generated randomness and records the callback; the provider's and config's lamports and owners and the payer's and vaults' owners and data are unchanged; a failure changes nothing |
| RevealCore.CheckRevealAccounts | target_chains/solana/programs/entropy/src/processor/reveal_with_callback.rs:40-62 | a read-only request, a wrong system program or slot-hashes account is InvalidAccount, a wrong entropy signer is InvalidPda; success means all hold and the request record loaded |
| RevealCore.LoadRevealProvider | target_chains/solana/programs/entropy/src/processor/reveal_with_callback.rs:78-88 | the provider account must be the PDA of the request's provider (else InvalidPda) and hold a provider record |
| RevealCore.HashProviderCommitment | target_chains/solana/programs/entropy/src/processor/reveal_with_callback.rs:186-194 | the loop hashes the contribution exactly `num_hashes` times |
| RevealCore.HonestRevealAccepted | target_chains/solana/programs/entropy/src/processor/reveal_with_callback.rs:90-96 | an issued record meets the commitment check for the honest user secret and the honest provider value |
| RevealCore.FindSlotHash | target_chains/solana/programs/entropy/src/processor/reveal_with_callback.rs:98-107 | finds the first entry for the slot, and None exactly when no entry has it |
| RevealCore.Blockhash | target_chains/solana/programs/entropy/src/processor/reveal_with_callback.rs:98-107 | without the blockhash flag the value is zero; with it, the request slot's hash, or BlockhashUnavailable when the sysvar lacks it |
| RevealCore.MetaOf | target_chains/solana/programs/entropy/src/processor/reveal_with_callback.rs:196-213 | the stored form of an account has boolean flags and matches that account |
| RevealCore.ValidateCallbackAccounts | target_chains/solana/programs/entropy/src/processor/reveal_with_callback.rs:196-213 | succeeds exactly when every supplied account matches its stored key and flags; otherwise InvalidAccount |
| RevealCore.AcceptsNamedAccounts | target_chains/solana/programs/entropy/src/processor/reveal_with_callback.rs:196-213 | on a recorded callback, the supplied accounts pass exactly when their stored forms are the accounts the request named |
| RevealCore.CallbackPayload | target_chains/solana/programs/entropy/src/processor/reveal_with_callback.rs:215-233 | the payload is the stored data, the number, the provider and the random value, each at its place; a stored length above 256 is InvalidInstructionData |
| RevealCore.CloseBalances | target_chains/solana/programs/entropy/src/processor/reveal_with_callback.rs:251-267 | closing empties the request account into the refund account and keeps the total, or InvalidArgument on overflow |
| NativeReveal.CheckReveal | target_chains/solana/programs/entropy/src/processor/reveal_with_callback.rs:40-107 | success means the accounts, a revealable status, the request's provider and number, the provider PDA, the commitment and the blockhash all held, with each failing check's own error |
| NativeReveal.HonestRevealPasses | target_chains/solana/programs/entropy/src/processor/reveal_with_callback.rs:64-107 | an honest provider and requester pass every reveal check |
| NativeReveal.AccountMetasOf | target_chains/solana/programs/entropy/src/processor/reveal_with_callback.rs:215-249 | each supplied account becomes a meta with its own key and flags |
| NativeReveal.BuildCallbackIx | target_chains/solana/programs/entropy/src/processor/reveal_with_callback.rs:215-249 | the callback instruction targets the callback program with the supplied accounts and the callback payload |
| NativeReveal.RunRevealChecks | target_chains/solana/programs/entropy/src/processor/reveal_with_callback.rs:40-107 | the handler's own check steps, in source order, give exactly the result of `CheckReveal` |
| NativeReveal.PrepareCallback | target_chains/solana/programs/entropy/src/processor/reveal_with_callback.rs:117-150 | it succeeds exactly when `NativeReveal.CallbackCheck` does (callback program account, account count, each account against its entry, data length, in source order) and fails with its error; on success the callback instruction is built exactly when the request names a program |
| NativeReveal.RefundAccount | target_chains/solana/programs/entropy/src/processor/reveal_with_callback.rs:165-171 | succeeds exactly when the account after the callback accounts is present, is the stored payer and is writable, and returns it; otherwise InvalidAccount |
| NativeReveal.MarkFailed | target_chains/solana/programs/entropy/src/processor/reveal_with_callback.rs:109-160 | the head advances and the request is kept, marked FAILED, with its lamports, and the same reveal passes every check again |
| NativeReveal.CloseRequest | target_chains/solana/programs/entropy/src/processor/reveal_with_callback.rs:165-174 | its result is exactly `NativeReveal.CloseCheck` (refund account present, the stored payer and writable, then no u64 overflow); on success the head advances, the request's lamports move to the payer's account and its data is zeroed, so the same reveal fails with InvalidAccount; a failure changes nothing |
| NativeReveal.ProcessRevealWithCallback | target_chains/solana/programs/entropy/src/processor/reveal_with_callback.rs:25-177 | it succeeds exactly when `NativeReveal.RevealOutcome` does and fails with its error: the reveal checks, the callback checks, a failed retry (CpiFailed), and the close checks; on success the head advanced and the accounts matched; a failed first callback marks the request FAILED and keeps it open, and a revealable retry stays possible; otherwise the request is closed to the payer, zeroed, and a second reveal is InvalidAccount; the provider's lamports and owner never change; a failure changes nothing |
| PinocchioReveal.CheckReveal | target_chains/solana/entropy/programs/entropy/src/processor/reveal_with_callback.rs:40-90 | success means the accounts, a NOT_STARTED status, the provider PDA, the commitment and the blockhash all held, with each failing check's own error |
| PinocchioReveal.HonestRevealPasses | target_chains/solana/entropy/programs/entropy/src/processor/reveal_with_callback.rs:59-90 | an honest provider and requester pass every check of this draft |
| PinocchioReveal.CallbackMetas | target_chains/solana/entropy/programs/entropy/src/processor/reveal_with_callback.rs:225-264 | the entropy signer is the first account, a signer and read-only, followed by each supplied account with its own flags |
| PinocchioReveal.BuildCallbackIx | target_chains/solana/entropy/programs/entropy/src/processor/reveal_with_callback.rs:225-264 | the callback instruction targets the requester program with the signer-led accounts and the callback payload |
| PinocchioReveal.RunRevealChecks | target_chains/solana/entropy/programs/entropy/src/processor/reveal_with_callback.rs:40-90 | the handler's own check steps, in source order, give exactly the result of `CheckReveal` |
| PinocchioReveal.PrepareCallback | target_chains/solana/entropy/programs/entropy/src/processor/reveal_with_callback.rs:104-138 | it succeeds exactly when `PinocchioReveal.CallbackCheck` does (the callback program is the requester program, account count, each account against its entry, data length when the callback runs) and fails with its error; on success the callback instruction is built exactly when the compute-unit limit is not zero |
| PinocchioReveal.CloseRequest | target_chains/solana/entropy/programs/entropy/src/processor/reveal_with_callback.rs:166-173 | its result is exactly `PinocchioReveal.CloseCheck` (the payer is the stored payer and writable, then no u64 overflow); on success the head advances and the request's lamports move to the payer while its data stays, so the same reveal passes every check again; a failure changes nothing |
| PinocchioReveal.ProcessRevealWithCallback | target_chains/solana/entropy/programs/entropy/src/processor/reveal_with_callback.rs:24-176 | it succeeds exactly when `PinocchioReveal.RevealOutcome` does and fails with its error: the reveal checks, the callback checks, a failed callback (CpiFailed), and the close checks; on success the head advanced, the callback was invoked exactly when the limit is non-zero, and the lamports went to the stored payer; the request data stays, so the same reveal passes again; the provider's lamports and owner never change; a failure changes nothing |
| SimpleRequester.Route | target_chains/solana/entropy/programs/simple-requester/src/lib.rs:34-57 | the action byte selects request, request-with-callback or callback on the rest of the input, at offset 1; any other 40-byte input is a raw request at offset 0; anything else is InvalidInstructionData |
| SimpleRequester.RawRequestArgs | target_chains/solana/entropy/programs/simple-requester/src/lib.rs:39-55 | raw request arguments pass through intact, at offset 0, exactly when their first byte is not an action byte; otherwise the 39 bytes left do not parse |
| SimpleRequester.RequestActionNeverParses | target_chains/solana/entropy/programs/simple-requester/src/lib.rs:44-65 | input led by the request action byte routes to the request at offset 1, where the arguments never parse: InvalidInstructionData |
| SimpleRequester.RequestMetas | target_chains/solana/entropy/programs/simple-requester/src/lib.rs:87-101 | the forwarded request carries the nine accounts Entropy expects |
| SimpleRequester.ForwardRequest | target_chains/solana/entropy/programs/simple-requester/src/lib.rs:59-129 | it succeeds exactly when the payload is 40 bytes at a 4-aligned offset, the requester program is this program, the signer is its PDA and the invoked Entropy program succeeds; each check has its own error, and the Entropy program's error is passed on; the forwarded instruction is the Request discriminator plus the payload, which Entropy parses |
| SimpleRequester.ForwardRequestWithCallback | target_chains/solana/entropy/programs/simple-requester/src/lib.rs:131-197 | it succeeds exactly when the requester and callback programs are this program, the signer is its PDA and the invoked Entropy program succeeds; a wrong program is InvalidArgument, a wrong signer PDA InvalidSeeds, and the Entropy program's error is passed on; the accounts are forwarded with the callback program read-only |
| SimpleRequester.EncodeCallback | target_chains/solana/entropy/programs/simple-requester/src/lib.rs:216-237 | the callback payload is 104 bytes: the program id, the number, the provider and the random value |
| SimpleRequester.DecodeCallback | target_chains/solana/entropy/programs/simple-requester/src/lib.rs:204-237 | a 104-byte payload is split into its four fields; any other length is InvalidInstructionData |
| SimpleRequester.CallbackRoundTrip | target_chains/solana/entropy/programs/simple-requester/src/lib.rs:204-237 | encoding and decoding of callback payloads are inverse in both directions |
| SimpleRequester.RevealPayloadDecodes | target_chains/solana/entropy/programs/simple-requester/src/lib.rs:34-57 | a reveal payload with the callback action and the Entropy program id routes to the callback and decodes to the revealed fields |
| SimpleRequester.RandomValue | target_chains/solana/entropy/programs/simple-requester/src/lib.rs:239-241 | the value shown is at most 100: the first eight bytes of the random number, little-endian, modulo 101 |
| SimpleRequester.CheckCallback | target_chains/solana/entropy/programs/simple-requester/src/lib.rs:204-237 | accepts exactly a 104-byte payload on a writable state account owned by this program, whose first account has the key of the Entropy signer PDA (only the key is compared, no signature is required), with the length, account-data and seeds errors in that order |
| SimpleRequester.RevealCallbackAccepted | target_chains/solana/entropy/programs/simple-requester/src/lib.rs:199-237 | the callback a pinocchio reveal builds for this requester passes its routing and checks and yields the revealed number, provider and value |
| SimpleRequester.ProcessCallback | target_chains/solana/entropy/programs/simple-requester/src/lib.rs:199-252 | it succeeds exactly when the checks of `CheckCallback` hold and the state account holds a callback-state record, and check errors pass through; on success the state records the number, provider and random value with the called flag, and the result is the value modulo 101; a failure changes nothing |
| SystemInstruction.VariantPrefix | target_chains/solana/entropy/programs/entropy/src/system_instruction.rs:20-88 | every builder's data starts with the variant index, and the rest follows it |
| SystemInstruction.DecodeCreateAccount | target_chains/solana/entropy/programs/entropy/src/system_instruction.rs:20-43 | the create-account data decodes back to its lamports, space and owner |
| SystemInstruction.DecodeAmount | target_chains/solana/entropy/programs/entropy/src/system_instruction.rs:45-74 | the transfer and allocate data decode back to their amount |
| SystemInstruction.CreateAccountIx | target_chains/solana/entropy/programs/entropy/src/system_instruction.rs:20-43 | a 52-byte system instruction in which both accounts sign and are written, decoding to the requested creation |
| SystemInstruction.TransferIx | target_chains/solana/entropy/programs/entropy/src/system_instruction.rs:45-60 | a 12-byte system instruction in which the source signs, decoding to the transfer amount |
| SystemInstruction.AllocateIx | target_chains/solana/entropy/programs/entropy/src/system_instruction.rs:62-74 | a 12-byte system instruction over one signing, written account, decoding to the space |
| SystemInstruction.AssignIx | target_chains/solana/entropy/programs/entropy/src/system_instruction.rs:76-88 | a 36-byte system instruction over one signing, written account, decoding to the new owner |

## Left out

- SHA-256, PDA derivation and `find_program_address` are functions supplied in `Env`. Their cryptographic properties are not modelled. Collision-freedom is never assumed: the honest-path lemmas hold for any hash function.
- The effects of cross-program invocations on the invoked program are not modelled. A reveal's callback outcome is a boolean input. The Entropy program's answer to the simple requester's forwarded request is a `Result` input, whose error the requester passes on. In both cases the instruction that would be invoked is returned.
- Handlers require the accounts they write to be distinct objects. Aliasing between those accounts is not modelled.
- `next_account_info` failures on a short account list are not modelled; every handler receives its accounts by role.
- The `RevealArgs` byte layout is not in the repository, so reveal arguments are a typed input.
- The byte layouts of `RegisterProviderArgs` and the legacy `RequestArgs` (which names a provider) are not modelled; those arguments are typed inputs. The legacy argument validity checks are kept.
- Account records are typed values rather than bytemuck casts, so alignment, padding bytes and discriminator bytes inside stored records are not modelled. Discriminators are modelled on their own in `Discriminator`. Alignment is modelled for instruction payloads only.
- The alignment of the `RegisterProviderArgs` and `RevealArgs` casts is not modelled, because their layouts are not in the repository.
- Failures of the `Clock` and `Rent` sysvars are not modelled; their values are inputs.
- Compute-unit metering is not modelled, and the pinocchio draft's commented-out metering check is absent too.
- The runtime's garbage collection of zero-lamport accounts at the end of a transaction is not modelled.
- The pinocchio `Request` instruction discriminator is not in the repository. It is a parameter of `SimpleRequester.ForwardRequest`.
- SimpleRequester.ProcessCallback: an undersized state buffer panics in bytemuck in the source. The model reports InvalidAccountData for a state account that holds no callback-state record.
- The pinocchio dispatcher `processor/mod.rs:28-52` is not modelled beyond `parse_args`: its `EntropyInstruction::parse` is not in the repository, so the payload offset it produces is an input of the pinocchio handlers. The `programs/entropy` dispatch is `Instruction.Parse`, a one-byte tag.
- The `NotImplemented` instructions, `request_v2.rs`, the CLI, the entrypoints and the log messages are not part of this model.
- The native `pda_loader` is not in the repository. Its loaders are taken to behave like the pinocchio `load_account`: owner and record kind are checked, and a mismatch is InvalidAccount.
- The two split request handlers of the native draft call `request_helper` with the pinocchio-style argument list. They are modelled as calls to the native helper with an empty callback configuration. As a result, `NativeRequestWithCallback.ProcessRequestWithCallback` records a zero callback program id.
