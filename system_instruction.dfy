/**
 * Builders for System Program instructions (`entropy/programs/entropy`
 * draft). Each instruction's data is the bincode encoding of the System
 * Program's instruction enum: the variant index as a little-endian u32,
 * then the fields, integers little-endian. The decoder below reads that
 * encoding back; the builders are proved against it.
 */
module SystemInstruction {
  import opened Common
  import opened Accounts

  datatype SystemCall =
    | CreateAccount(lamports: u64, space: u64, owner: Pubkey)
    | Assign(owner: Pubkey)
    | Transfer(lamports: u64)
    | Allocate(space: u64)

  /** The System Program's decoding of instruction data. */
  function DecodeSystemCall(data: seq<byte>): Option<SystemCall>
  {
    if |data| < 4 then None
    else
      var variant := U32From(data[..4]);
      var rest := data[4..];
      if variant == 0 && |rest| == 48 then
        Some(CreateAccount(U64From(rest[..8]), U64From(rest[8..16]), rest[16..]))
      else if variant == 1 && |rest| == 32 then Some(Assign(rest))
      else if variant == 2 && |rest| == 8 then Some(Transfer(U64From(rest)))
      else if variant == 8 && |rest| == 8 then Some(Allocate(U64From(rest)))
      else None
  }

  /** The variant index leads the data of every builder below. */
  lemma VariantPrefix(variant: u32, rest: seq<byte>)
    ensures U32From((U32Le(variant) + rest)[..4]) == variant
    ensures (U32Le(variant) + rest)[4..] == rest
  {
    assert (U32Le(variant) + rest)[..4] == U32Le(variant);
    U32RoundTrip(variant);
  }

  lemma DecodeCreateAccount(lamports: u64, space: u64, owner: Pubkey)
    ensures DecodeSystemCall(U32Le(0) + U64Le(lamports) + U64Le(space) + owner)
      == Some(CreateAccount(lamports, space, owner))
  {
    var fields := U64Le(lamports) + U64Le(space) + owner;
    assert U32Le(0) + U64Le(lamports) + U64Le(space) + owner == U32Le(0) + fields;
    VariantPrefix(0, fields);
    assert fields[..8] == U64Le(lamports);
    assert fields[8..16] == U64Le(space);
    assert fields[16..] == owner;
    U64RoundTrip(lamports);
    U64RoundTrip(space);
  }

  lemma DecodeAmount(variant: u32, amount: u64)
    requires variant == 2 || variant == 8
    ensures DecodeSystemCall(U32Le(variant) + U64Le(amount))
      == if variant == 2 then Some(Transfer(amount)) else Some(Allocate(amount))
  {
    VariantPrefix(variant, U64Le(amount));
    U64RoundTrip(amount);
  }

  /** `create_account`: a 52-byte instruction; both accounts sign and are written. */
  method CreateAccountIx(from: Pubkey, to: Pubkey, lamports: u64, space: u64, owner: Pubkey)
    returns (ix: Instruction)
    ensures ix.programId == SYSTEM_PROGRAM_ID
    ensures ix.accounts == [AccountMeta(from, true, true), AccountMeta(to, true, true)]
    ensures |ix.data| == 52 && ix.data[..4] == U32Le(0)
    ensures DecodeSystemCall(ix.data) == Some(CreateAccount(lamports, space, owner))
  {
    var data: seq<byte> := [];
    data := data + U32Le(0);
    data := data + U64Le(lamports);
    data := data + U64Le(space);
    data := data + owner;
    assert data == U32Le(0) + U64Le(lamports) + U64Le(space) + owner;
    DecodeCreateAccount(lamports, space, owner);
    ix := Instruction(SYSTEM_PROGRAM_ID, [AccountMeta(from, true, true), AccountMeta(to, true, true)], data);
  }

  /** `transfer`: a 12-byte instruction; `from` signs, `to` does not. */
  method TransferIx(from: Pubkey, to: Pubkey, lamports: u64) returns (ix: Instruction)
    ensures ix.programId == SYSTEM_PROGRAM_ID
    ensures ix.accounts == [AccountMeta(from, true, true), AccountMeta(to, true, false)]
    ensures |ix.data| == 12 && ix.data[..4] == U32Le(2)
    ensures DecodeSystemCall(ix.data) == Some(Transfer(lamports))
  {
    var data: seq<byte> := [];
    data := data + U32Le(2);
    data := data + U64Le(lamports);
    DecodeAmount(2, lamports);
    ix := Instruction(SYSTEM_PROGRAM_ID, [AccountMeta(from, true, true), AccountMeta(to, true, false)], data);
  }

  /** `allocate`: a 12-byte instruction over one signing, written account. */
  method AllocateIx(account: Pubkey, space: u64) returns (ix: Instruction)
    ensures ix.programId == SYSTEM_PROGRAM_ID
    ensures ix.accounts == [AccountMeta(account, true, true)]
    ensures |ix.data| == 12 && ix.data[..4] == U32Le(8)
    ensures DecodeSystemCall(ix.data) == Some(Allocate(space))
  {
    var data: seq<byte> := [];
    data := data + U32Le(8);
    data := data + U64Le(space);
    DecodeAmount(8, space);
    ix := Instruction(SYSTEM_PROGRAM_ID, [AccountMeta(account, true, true)], data);
  }

  /** `assign`: a 36-byte instruction over one signing, written account. */
  method AssignIx(account: Pubkey, owner: Pubkey) returns (ix: Instruction)
    ensures ix.programId == SYSTEM_PROGRAM_ID
    ensures ix.accounts == [AccountMeta(account, true, true)]
    ensures |ix.data| == 36 && ix.data[..4] == U32Le(1)
    ensures DecodeSystemCall(ix.data) == Some(Assign(owner))
  {
    var data: seq<byte> := [];
    data := data + U32Le(1);
    data := data + owner;
    VariantPrefix(1, owner);
    ix := Instruction(SYSTEM_PROGRAM_ID, [AccountMeta(account, true, true)], data);
  }
}
