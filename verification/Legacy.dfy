/** The two layouts from before the version byte existed, and their one-step migration to V6. */
module Legacy {
  import opened Prelude
  import opened Borsh
  import opened Layouts
  import opened Migration
  import C = MigrationChain
  import S = State

  const LEGACY_V1_LEN := 151
  const LEGACY_V15_LEN := 183

  /** X4o2kSLzqEQjnAzhq3L3BW92aawMV2n2F37EXd2GMpy. */
  const LEGACY_MIGRATE_ADMIN: Key :=
    [0x07, 0xb3, 0xb6, 0xb7, 0x64, 0x49, 0xad, 0x8a, 0x67, 0xa4, 0xb1, 0x30, 0x6d, 0x51, 0x77, 0x5c,
     0xb3, 0x79, 0x15, 0x2e, 0x90, 0x58, 0xdd, 0xbf, 0x1a, 0x22, 0x92, 0xc6, 0x50, 0x56, 0x5f, 0x96]

  type UserId = k: Bytes | |k| == 16 witness seq(16, _ => 0)

  /** Only the 183-byte layout stores an authority. */
  datatype LegacyVault = LegacyVault(
    bump: u8,
    passkeyPubkey: Passkey,
    swigAddress: Key,
    coolingOffSeconds: i64,
    pendingVoucherCount: u32,
    pendingWithdrawal: Option<PendingWithdrawal>,
    supabaseUserId: UserId,
    storedAuthority: Option<Key>)

  // ---- The layouts ---------------------------------------------------------------------------

  function PutLegacy(v: LegacyVault, k: Bytes): Bytes {
    PutU8(v.bump, PutArray(v.passkeyPubkey, PutKey(v.swigAddress, PutI64(v.coolingOffSeconds,
      PutU32(v.pendingVoucherCount, PutOption(PutWithdrawal, v.pendingWithdrawal,
        PutArray(v.supabaseUserId, PutAuthority(v.storedAuthority, k))))))))
  }

  /** No tag: the total length says whether the authority is there. */
  function PutAuthority(a: Option<Key>, k: Bytes): Bytes {
    match a
    case None => k
    case Some(key) => PutKey(key, k)
  }

  function GetAuthority(stored: bool, b: Bytes): Read<Option<Key>> {
    if !stored then Some((None, b))
    else
      var (key, rest) :- GetKey(b);
      Some((Some(key), rest))
  }

  function GetLegacy(stored: bool, b: Bytes): Read<LegacyVault> {
    var (bump, b1) :- GetU8(b);
    var (passkey, b2) :- GetArray(33, b1);
    var (swig, b3) :- GetKey(b2);
    var (cooling, b4) :- GetI64(b3);
    var (pvc, b5) :- GetU32(b4);
    var (pending, b6) :- GetOption(GetWithdrawal, b5);
    var (userId, b7) :- GetArray(16, b6);
    var (authority, b8) :- GetAuthority(stored, b7);
    Some((LegacyVault(bump, passkey, swig, cooling, pvc, pending, userId, authority), b8))
  }

  /** decode_legacy_vault. */
  function DecodeLegacy(data: Bytes): Result<LegacyVault> {
    if |data| != LEGACY_V1_LEN && |data| != LEGACY_V15_LEN then Err(NotALegacyVault)
    else if data[..8] != DISCRIMINATOR then Err(NotALegacyVault)
    else match GetLegacy(|data| == LEGACY_V15_LEN, data[8..])
      case None => Err(BorshError)
      case Some((v, _)) => Ok(v)
  }

  // ---- The new image -------------------------------------------------------------------------

  function Clamp32(n: i64): u32 { Max(0, Min(n, U32_MAX)) }

  /** What a legacy vault means in V6: the cooling-off clamped, the identity extended with zeros, every field
      of a later era neutral. */
  function LiftLegacy(v: LegacyVault, authority: Key): VaultV6 {
    VaultV6(
      Head(S.VAULT_VERSION_V6, v.bump, v.passkeyPubkey, v.swigAddress, Clamp32(v.coolingOffSeconds),
           v.pendingVoucherCount, v.pendingWithdrawal, v.supabaseUserId + Zeros(16), authority),
      0, NO_ODOMETERS, NO_CREDIT)
  }

  /** encode_v6_image; the encoding never exceeds the V6 size, so its length check cannot fail. */
  function EncodeV6Image(v: LegacyVault, authority: Key): (b: Bytes)
    ensures |b| == V6_SIZE
  {
    ImageV6(LiftLegacy(v, authority))
  }

  /** A stored authority must sign and is kept; without one the fixed administrator must sign and is stamped. */
  function Gatekeeper(v: LegacyVault): Key {
    match v.storedAuthority
    case Some(stored) => stored
    case None => LEGACY_MIGRATE_ADMIN
  }

  function LegacyToV6(data: Bytes, signer: Key): Result<Bytes> {
    var v :- DecodeLegacy(data);
    :- Need(signer == Gatekeeper(v), PasskeyVerificationFailed);
    Ok(EncodeV6Image(v, signer))
  }

  // ---- Properties ----------------------------------------------------------------------------

  /** The decoder inverts the layouts: an account of the right length that holds an encoding decodes to it. */
  lemma LegacyRoundTrip(v: LegacyVault, slack: Bytes)
    requires |DISCRIMINATOR + PutLegacy(v, slack)|
      == (if v.storedAuthority.Some? then LEGACY_V15_LEN else LEGACY_V1_LEN)
    ensures DecodeLegacy(DISCRIMINATOR + PutLegacy(v, slack)) == Ok(v)
  {
    hide PutU8, GetU8, PutArray, GetArray, PutKey, GetKey, PutI64, GetI64, PutU32, GetU32, PutOption, GetOption,
         PutWithdrawal;
    var k7 := PutAuthority(v.storedAuthority, slack);
    var k6 := PutArray(v.supabaseUserId, k7);
    var k5 := PutOption(PutWithdrawal, v.pendingWithdrawal, k6);
    var k4 := PutU32(v.pendingVoucherCount, k5);
    var k3 := PutI64(v.coolingOffSeconds, k4);
    var k2 := PutKey(v.swigAddress, k3);
    U8RoundTrip(v.bump, PutArray(v.passkeyPubkey, k2));
    ArrayRoundTrip(v.passkeyPubkey, k2);
    KeyRoundTrip(v.swigAddress, k3);
    I64RoundTrip(v.coolingOffSeconds, k4);
    U32RoundTrip(v.pendingVoucherCount, k5);
    if v.pendingWithdrawal.Some? {
      WithdrawalRoundTrip(v.pendingWithdrawal.value, k6);
    }
    OptionRoundTrip(PutWithdrawal, GetWithdrawal, v.pendingWithdrawal, k6);
    ArrayRoundTrip(v.supabaseUserId, k7);
    if v.storedAuthority.Some? {
      KeyRoundTrip(v.storedAuthority.value, slack);
    }
    var data := DISCRIMINATOR + PutLegacy(v, slack);
    assert data[..8] == DISCRIMINATOR && data[8..] == PutLegacy(v, slack);
  }

  /** The tag of the pending withdrawal, the only byte the decoder can reject. */
  const TAG_OFFSET := 86

  /** No buffer of a legacy length over-runs: it decodes exactly when its option tag is 0 or 1. */
  lemma LegacyNeverOverruns(data: Bytes)
    requires |data| == LEGACY_V1_LEN || |data| == LEGACY_V15_LEN
    requires data[..8] == DISCRIMINATOR
    ensures DecodeLegacy(data).Ok? <==> data[TAG_OFFSET] <= 1
    ensures DecodeLegacy(data).Err? ==> DecodeLegacy(data).error == BorshError
  {
    hide OfLe, GetWithdrawal, Signed;
    var b := data[8..];
    var b1 := GetU8(b).value.1;
    assert b1 == data[9..];
    var b2 := GetArray(33, b1).value.1;
    assert b2 == data[42..];
    var b3 := GetKey(b2).value.1;
    assert b3 == data[74..];
    var b4 := GetI64(b3).value.1;
    assert b4 == data[82..];
    var b5 := GetU32(b4).value.1;
    assert b5 == data[TAG_OFFSET..] && b5[0] == data[TAG_OFFSET];
  }

  /** What a legacy vault becomes, field by field: the cooling-off is brought into 32 bits, the identity is extended
      with zeros, the signer is the authority, and nothing of a later era is in use. */
  predicate LegacyInV6(was: LegacyVault, got: VaultV6, signer: Key) {
    && got.head.version == 6
    && got.head.bump == was.bump && got.head.passkeyPubkey == was.passkeyPubkey
    && got.head.swigAddress == was.swigAddress
    && got.head.coolingOffSeconds == (if was.coolingOffSeconds < 0 then 0
                                      else if was.coolingOffSeconds > 0xffff_ffff then 0xffff_ffff
                                      else was.coolingOffSeconds)
    && got.head.pendingVoucherCount == was.pendingVoucherCount
    && got.head.pendingWithdrawal == was.pendingWithdrawal
    && got.head.identityClaim[..16] == was.supabaseUserId
    && (forall k :: 16 <= k < 32 ==> got.head.identityClaim[k] == 0)
    && got.head.dexterAuthority == signer
    && got.liveSessionCount == 0 && C.NothingLocked(got.odometers) && C.NoStandby(got.credit)
  }

  /** What is not of a legacy length, or not a vault, is none. */
  lemma NotLegacy(data: Bytes)
    ensures (|data| != 151 && |data| != 183) || data[..8] != DISCRIMINATOR
      <==> DecodeLegacy(data) == Err(NotALegacyVault)
    ensures DecodeLegacy(data).Err? ==> forall signer :: LegacyToV6(data, signer) == Err(DecodeLegacy(data).error)
  {
    hide GetLegacy;
  }

  /** Exactly the stored authority, or the fixed administrator where none is stored, can migrate a decodable legacy
      account; it ends as a 279-byte V6 account that holds what the legacy one held, padded with zeros. */
  lemma LegacyMigrates(data: Bytes, signer: Key)
    requires DecodeLegacy(data).Ok?
    ensures var v := DecodeLegacy(data).value;
      match LegacyToV6(data, signer)
      case Err(error) =>
        && (v.storedAuthority.Some? ==> signer != v.storedAuthority.value)
        && (v.storedAuthority.None? ==> signer != LEGACY_MIGRATE_ADMIN)
        && error == PasskeyVerificationFailed
      case Ok(out) =>
        && (v.storedAuthority.Some? ==> signer == v.storedAuthority.value)
        && (v.storedAuthority.None? ==> signer == LEGACY_MIGRATE_ADMIN)
        && |out| == 279
        && DecodeV6(out).Ok? && LegacyInV6(v, DecodeV6(out).value, signer)
        && C.Padded(out, 8 + |PutV6(DecodeV6(out).value, [])|)
  {
    hide DecodeLegacy, DecodeV6, PutV6;
    var v := DecodeLegacy(data).value;
    assert (v.supabaseUserId + Zeros(16))[..16] == v.supabaseUserId;
    C.ReadsBackV6(LiftLegacy(v, signer));
  }
}
