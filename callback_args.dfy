/**
 * The wire layout of request-with-callback arguments, common to the three
 * parsers of the two drafts: after a 32-byte prefix (user randomness, and in
 * the single-file handler a provider key before it) come the compute-unit
 * limit (u32 LE), the number of callback accounts (u32 LE), each account as
 * a 32-byte key plus a signer and a writable byte, the callback data length
 * (u32 LE) and the data itself, which must end the input.
 *
 * `DecodeBody` is the reference reading of that layout and `EncodeBody` its
 * inverse; each parser of the drafts is proved to agree with them.
 */
module CallbackArgs {
  import opened Common
  import opened Accounts

  /** `CallbackMeta::LEN`: a 32-byte key and two flag bytes. */
  const META_LEN: nat := 34

  function EncodeMeta(m: CallbackMeta): (r: seq<byte>)
    ensures |r| == META_LEN
  {
    m.pubkey + [m.isSigner, m.isWritable]
  }

  function DecodeMeta(s: seq<byte>): CallbackMeta
    requires |s| >= META_LEN
  {
    CallbackMeta(s[..32], s[32], s[33])
  }

  /** Both flags of a callback account are booleans stored as 0 or 1. */
  predicate FlagsOk(m: CallbackMeta)
  {
    m.isSigner <= 1 && m.isWritable <= 1
  }

  predicate AllFlagsOk(ms: seq<CallbackMeta>)
  {
    forall i :: 0 <= i < |ms| ==> FlagsOk(ms[i])
  }

  function EncodeMetas(ms: seq<CallbackMeta>): (r: seq<byte>)
    ensures |r| == META_LEN * |ms|
  {
    if ms == [] then [] else EncodeMeta(ms[0]) + EncodeMetas(ms[1..])
  }

  /**
   * Reading `n` callback accounts from the front of `s`: fails when fewer
   * than `n` full entries remain or an entry has a flag above 1; otherwise
   * returns the entries and the bytes after them.
   */
  function DecodeMetas(s: seq<byte>, n: nat): (r: Option<(seq<CallbackMeta>, seq<byte>)>)
    ensures r.Some? ==> |r.value.0| == n && |s| >= META_LEN * n && r.value.1 == s[META_LEN * n..]
  {
    if n == 0 then Some(([], s))
    else if |s| < META_LEN then None
    else
      var m := DecodeMeta(s);
      if !FlagsOk(m) then None
      else
        match DecodeMetas(s[META_LEN..], n - 1)
        case None => None
        case Some((ms, rest)) =>
          assert s[META_LEN..][META_LEN * (n - 1)..] == s[META_LEN * n..];
          Some(([m] + ms, rest))
  }

  /** Accounts already read, put in front of what the rest of the input reads as. */
  function Prepend(ms: seq<CallbackMeta>, o: Option<(seq<CallbackMeta>, seq<byte>)>): Option<(seq<CallbackMeta>, seq<byte>)>
  {
    match o
    case None => None
    case Some((rest, tail)) => Some((ms + rest, tail))
  }

  lemma PrependNil(o: Option<(seq<CallbackMeta>, seq<byte>)>)
    ensures Prepend([], o) == o
  {
    if o.Some? {
      assert [] + o.value.0 == o.value.0;
    }
  }

  lemma PrependAppend(ms: seq<CallbackMeta>, m: CallbackMeta, o: Option<(seq<CallbackMeta>, seq<byte>)>)
    ensures Prepend(ms + [m], o) == Prepend(ms, Prepend([m], o))
  {
    if o.Some? {
      assert ms + [m] + o.value.0 == ms + ([m] + o.value.0);
    }
  }

  /**
   * Reading one more entry: a short input or a bad flag leaves no reading,
   * and a good entry moves from the input to what has been read.
   */
  lemma DecodeOneMore(metas: seq<CallbackMeta>, s: seq<byte>, n: nat)
    requires n > 0
    ensures |s| < META_LEN || !FlagsOk(DecodeMeta(s)) ==> DecodeMetas(s, n) == None
    ensures |s| >= META_LEN && FlagsOk(DecodeMeta(s)) ==>
      Prepend(metas + [DecodeMeta(s)], DecodeMetas(s[META_LEN..], n - 1)) == Prepend(metas, DecodeMetas(s, n))
  {
    if |s| >= META_LEN && FlagsOk(DecodeMeta(s)) {
      PrependAppend(metas, DecodeMeta(s), DecodeMetas(s[META_LEN..], n - 1));
    }
  }

  /** The arguments after the prefix. */
  datatype Body = Body(computeUnitLimit: u32, callbackAccounts: seq<CallbackMeta>, callbackIxData: seq<byte>)

  /** A body the layout can carry: counts that fit a u32 and boolean flags. */
  predicate Encodable(b: Body)
  {
    |b.callbackAccounts| <= U32_MAX && |b.callbackIxData| <= U32_MAX && AllFlagsOk(b.callbackAccounts)
  }

  /** Arguments whose accounts and data fit the request record's slots. */
  predicate FitsRecord(b: Body)
  {
    |b.callbackAccounts| <= MAX_CALLBACK_ACCOUNTS && |b.callbackIxData| <= CALLBACK_IX_DATA_LEN
  }

  function EncodeBody(b: Body): seq<byte>
    requires |b.callbackAccounts| <= U32_MAX && |b.callbackIxData| <= U32_MAX
  {
    U32Le(b.computeUnitLimit) + U32Le(|b.callbackAccounts|) + EncodeMetas(b.callbackAccounts)
    + U32Le(|b.callbackIxData|) + b.callbackIxData
  }

  /** The reference reading of a body; `None` is InvalidInstructionData. */
  function DecodeBody(s: seq<byte>): Option<Body>
  {
    if |s| < 8 then None
    else
      var limit := U32From(s[..4]);
      var count := U32From(s[4..8]);
      match DecodeMetas(s[8..], count)
      case None => None
      case Some((metas, rest)) =>
        if |rest| < 4 then None
        else if U32From(rest[..4]) != |rest| - 4 then None
        else Some(Body(limit, metas, rest[4..]))
  }

  lemma {:induction false} DecodeEncodeMetas(ms: seq<CallbackMeta>, rest: seq<byte>)
    requires AllFlagsOk(ms)
    ensures DecodeMetas(EncodeMetas(ms) + rest, |ms|) == Some((ms, rest))
  {
    if ms != [] {
      var s := EncodeMetas(ms) + rest;
      assert s == EncodeMeta(ms[0]) + (EncodeMetas(ms[1..]) + rest);
      assert s[META_LEN..] == EncodeMetas(ms[1..]) + rest;
      assert DecodeMeta(s) == ms[0] by {
        assert s[..32] == ms[0].pubkey;
      }
      assert AllFlagsOk(ms[1..]) by {
        forall i | 0 <= i < |ms[1..]| ensures FlagsOk(ms[1..][i]) {
          assert ms[1..][i] == ms[i + 1];
        }
      }
      DecodeEncodeMetas(ms[1..], rest);
      assert [ms[0]] + ms[1..] == ms;
    }
  }

  /** One step of `DecodeMetas`: the first entry, then the remaining `n - 1`. */
  lemma DecodeMetasStep(s: seq<byte>, n: nat, ms: seq<CallbackMeta>, rest: seq<byte>)
    requires n > 0 && DecodeMetas(s, n) == Some((ms, rest))
    ensures |s| >= META_LEN && ms != [] && ms[0] == DecodeMeta(s) && FlagsOk(ms[0])
    ensures DecodeMetas(s[META_LEN..], n - 1) == Some((ms[1..], rest))
  {
  }

  lemma EncodeDecodeMeta(s: seq<byte>)
    requires |s| >= META_LEN
    ensures EncodeMeta(DecodeMeta(s)) == s[..META_LEN]
  {
    assert s[..32] + [s[32], s[33]] == s[..META_LEN];
  }

  lemma EncodeMetasFront(ms: seq<CallbackMeta>, rest: seq<byte>, s: seq<byte>)
    requires ms != [] && |s| >= META_LEN
    requires EncodeMeta(ms[0]) == s[..META_LEN] && EncodeMetas(ms[1..]) + rest == s[META_LEN..]
    ensures EncodeMetas(ms) + rest == s
  {
    calc {
      EncodeMetas(ms) + rest;
      (EncodeMeta(ms[0]) + EncodeMetas(ms[1..])) + rest;
      s[..META_LEN] + (EncodeMetas(ms[1..]) + rest);
      s;
    }
  }

  lemma AllFlagsOkFront(ms: seq<CallbackMeta>)
    requires ms != [] && FlagsOk(ms[0]) && AllFlagsOk(ms[1..])
    ensures AllFlagsOk(ms)
  {
    forall i | 0 <= i < |ms| ensures FlagsOk(ms[i]) {
      if i > 0 {
        assert ms[i] == ms[1..][i - 1];
      }
    }
  }

  lemma {:induction false} EncodeDecodeMetas(s: seq<byte>, n: nat, ms: seq<CallbackMeta>, rest: seq<byte>)
    requires DecodeMetas(s, n) == Some((ms, rest))
    ensures AllFlagsOk(ms)
    ensures EncodeMetas(ms) + rest == s
  {
    if n > 0 {
      DecodeMetasStep(s, n, ms, rest);
      EncodeDecodeMetas(s[META_LEN..], n - 1, ms[1..], rest);
      EncodeDecodeMeta(s);
      EncodeMetasFront(ms, rest, s);
      AllFlagsOkFront(ms);
    }
  }

  /** Where the fields of a body sit in its encoding. */
  lemma BodyParts(b: Body)
    requires Encodable(b)
    ensures var s := EncodeBody(b);
      s[..4] == U32Le(b.computeUnitLimit) && s[4..8] == U32Le(|b.callbackAccounts|)
      && s[8..] == EncodeMetas(b.callbackAccounts) + (U32Le(|b.callbackIxData|) + b.callbackIxData)
  {
    var s := EncodeBody(b);
    var tail := U32Le(|b.callbackIxData|) + b.callbackIxData;
    assert s == U32Le(b.computeUnitLimit) + U32Le(|b.callbackAccounts|) + (EncodeMetas(b.callbackAccounts) + tail);
  }

  /** Every encodable body reads back as itself. */
  lemma BodyRoundTrip(b: Body)
    requires Encodable(b)
    ensures DecodeBody(EncodeBody(b)) == Some(b)
  {
    var ms, data := b.callbackAccounts, b.callbackIxData;
    var tail := U32Le(|data|) + data;
    BodyParts(b);
    U32RoundTrip(b.computeUnitLimit);
    U32RoundTrip(|ms|);
    U32RoundTrip(|data|);
    DecodeEncodeMetas(ms, tail);
    assert tail[..4] == U32Le(|data|) && tail[4..] == data;
  }

  /** A body whose parts are read from the right places of `s` encodes to `s`. */
  lemma Reassemble(s: seq<byte>, ms: seq<CallbackMeta>, rest: seq<byte>)
    requires |s| >= 8 && EncodeMetas(ms) + rest == s[8..] && |ms| == U32From(s[4..8])
    requires |rest| >= 4 && U32From(rest[..4]) == |rest| - 4
    ensures EncodeBody(Body(U32From(s[..4]), ms, rest[4..])) == s
  {
    var limit, count, data := s[..4], s[4..8], rest[4..];
    U32BytesRoundTrip(limit);
    U32BytesRoundTrip(count);
    U32BytesRoundTrip(rest[..4]);
    assert U32Le(|data|) + data == rest by {
      assert rest == rest[..4] + data;
    }
    assert s == limit + count + s[8..];
    JoinFive(limit, count, EncodeMetas(ms), U32Le(|data|), data);
  }

  /** Regrouping of a five-part concatenation. */
  lemma JoinFive<T>(a: seq<T>, b: seq<T>, c: seq<T>, d: seq<T>, e: seq<T>)
    ensures a + b + c + d + e == a + b + (c + (d + e))
  { }


  /** Whatever reads as a body is exactly that body's encoding. */
  lemma BodyExact(s: seq<byte>)
    requires DecodeBody(s).Some?
    ensures Encodable(DecodeBody(s).value)
    ensures EncodeBody(DecodeBody(s).value) == s
  {
    var count := U32From(s[4..8]);
    var ms := DecodeMetas(s[8..], count).value.0;
    var rest := DecodeMetas(s[8..], count).value.1;
    assert DecodeBody(s) == Some(Body(U32From(s[..4]), ms, rest[4..]));
    EncodeDecodeMetas(s[8..], count, ms, rest);
    Reassemble(s, ms, rest);
  }


  // ---------------------------------------------------------------------
  // The arguments of the two-file handlers: user randomness, then the body
  // ---------------------------------------------------------------------

  datatype RequestWithCallbackArgs = RequestWithCallbackArgs(userRandomness: Bytes32, body: Body)

  function EncodeArgs(a: RequestWithCallbackArgs): seq<byte>
    requires |a.body.callbackAccounts| <= U32_MAX && |a.body.callbackIxData| <= U32_MAX
  {
    a.userRandomness + EncodeBody(a.body)
  }

  function DecodeArgs(s: seq<byte>): Option<RequestWithCallbackArgs>
  {
    if |s| < 32 then None
    else match DecodeBody(s[32..])
      case None => None
      case Some(b) => Some(RequestWithCallbackArgs(s[..32], b))
  }

  /** Encoding and decoding of whole arguments are inverse, in both directions. */
  lemma ArgsRoundTrip(a: RequestWithCallbackArgs, s: seq<byte>)
    ensures Encodable(a.body) ==> DecodeArgs(EncodeArgs(a)) == Some(a)
    ensures DecodeArgs(s).Some? ==> Encodable(DecodeArgs(s).value.body) && EncodeArgs(DecodeArgs(s).value) == s
  {
    if Encodable(a.body) {
      var e := EncodeArgs(a);
      assert e[..32] == a.userRandomness && e[32..] == EncodeBody(a.body);
      BodyRoundTrip(a.body);
    }
    if DecodeArgs(s).Some? {
      BodyExact(s[32..]);
      assert s == s[..32] + s[32..];
    }
  }
}
