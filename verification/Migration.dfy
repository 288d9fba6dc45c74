/** The migration chain V2 -> V3 -> V4 -> V5 -> V6 over raw account bytes: each hop decodes a prefix of the
    account; the first only changes the stamp, the others write the vault over the buffer in the next layout. */
module Migration {
  import opened Prelude
  import opened Borsh
  import opened Layouts
  import S = State

  // ---- Reading -------------------------------------------------------------------------------

  /** The three checks every hop makes before it decodes from byte 8 on, and the decode itself. What
      follows the decoded prefix is ignored. */
  function Decode<T>(get: Bytes -> Read<T>, version: u8, data: Bytes): Result<T> {
    if |data| < 9 || data[..8] != DISCRIMINATOR || data[8] != version then Err(UnsupportedVaultVersion)
    else match get(data[8..])
      case None => Err(BorshError)
      case Some((v, _)) => Ok(v)
  }

  function DecodeV2(data: Bytes): Result<VaultV2> { Decode(GetV2, S.VAULT_VERSION_V2, data) }

  /** What the first hop reads of a V2 account: the fields up to the authority, not the session. */
  function DecodeHead(data: Bytes): Result<Head> { Decode(GetHead, S.VAULT_VERSION_V2, data) }

  function DecodeV3(data: Bytes): Result<VaultV3> { Decode(GetV3, S.VAULT_VERSION_V3, data) }

  function DecodeV4(data: Bytes): Result<VaultV4> { Decode(GetV4, S.VAULT_VERSION_V4, data) }

  function DecodeV5(data: Bytes): Result<VaultV5> { Decode(GetV5, S.VAULT_VERSION_V5, data) }

  function DecodeV6(data: Bytes): Result<VaultV6> { Decode(GetV6, S.VAULT_VERSION_V6, data) }

  // ---- What a vault becomes ------------------------------------------------------------------

  function LiftSession(s: Option<SessionV3>): Option<Session> {
    match s
    case None => None
    case Some(v3) => Some(Session(v3, 0, 0))
  }

  function LiftV4(v: VaultV3): VaultV4 {
    VaultV4(v.head.(version := S.VAULT_VERSION_V4), LiftSession(v.activeSession), NO_ODOMETERS)
  }

  function LiftV5(v: VaultV4): VaultV5 {
    VaultV5(v.head.(version := S.VAULT_VERSION_V5), v.activeSession, v.odometers, NO_CREDIT)
  }

  function LiftV6(v: VaultV5, live: u8): VaultV6 {
    VaultV6(v.head.(version := S.VAULT_VERSION_V6), live, v.odometers, v.credit)
  }

  /** The session is there and has not expired. */
  predicate Live(s: Option<Session>, now: i64) { s.Some? && s.value.v3.grant.expiresAt > now }

  /** The session account the with-session hop creates. */
  datatype SessionImage = SessionImage(version: u8, bump: u8, vault: Key, session: Session)

  // ---- Writing -------------------------------------------------------------------------------

  /** AccountInfo::resize: cut off, or extended with zeros. */
  function Resized(data: Bytes, n: nat): (r: Bytes)
    ensures |r| == n
  {
    if n <= |data| then data[..n] else data + Zeros(n - |data|)
  }

  function Overwritten(data: Bytes, out: Bytes): (r: Bytes)
    requires |out| <= |data|
    ensures |r| == |data|
  {
    out + data[|out|..]
  }

  function ImageV4(v: VaultV4): (b: Bytes)
    ensures |b| <= V4_SIZE
  {
    DISCRIMINATOR + PutV4(v, [])
  }

  function ImageV5(v: VaultV5): (b: Bytes)
    ensures |b| <= V5_SIZE
  {
    DISCRIMINATOR + PutV5(v, [])
  }

  /** Padded with zeros to the full V6 size. */
  function ImageV6(v: VaultV6): (b: Bytes)
    ensures |b| == V6_SIZE
  {
    Resized(DISCRIMINATOR + PutV6(v, []), V6_SIZE)
  }

  // ---- The hops, as functions of the bytes ---------------------------------------------------

  /** The account grows to the size of the current vault, V6, if it is shorter; otherwise only its stamp changes. */
  function V2ToV3(data: Bytes, signer: Key): Result<Bytes> {
    var head :- DecodeHead(data);
    :- Need(head.dexterAuthority == signer, PasskeyVerificationFailed);
    Ok(Resized(data, Max(|data|, V6_SIZE))[8 := S.VAULT_VERSION_V3])
  }

  function V3ToV4(data: Bytes, signer: Key): Result<Bytes> {
    var v3 :- DecodeV3(data);
    :- Need(v3.head.dexterAuthority == signer, PasskeyVerificationFailed);
    Ok(Overwritten(Resized(data, Max(|data|, V4_SIZE)), ImageV4(LiftV4(v3))))
  }

  function V4ToV5(data: Bytes, signer: Key): Result<Bytes> {
    var v4 :- DecodeV4(data);
    :- Need(v4.head.dexterAuthority == signer, PasskeyVerificationFailed);
    Ok(Overwritten(Resized(data, Max(|data|, V5_SIZE)), ImageV5(LiftV5(v4))))
  }

  function V5ToV6(data: Bytes, signer: Key, now: i64): Result<Bytes> {
    var v5 :- DecodeV5(data);
    :- Need(v5.head.dexterAuthority == signer, PasskeyVerificationFailed);
    :- Need(!Live(v5.activeSession, now), SessionAlreadyActive);
    :- Need(V6_SIZE <= |data|, UnsupportedVaultVersion);
    Ok(ImageV6(LiftV6(v5, 0)))
  }

  function V5ToV6WithSession(data: Bytes, signer: Key, counterparty: Key, now: i64): Result<(Bytes, Session)> {
    var v5 :- DecodeV5(data);
    :- Need(v5.head.dexterAuthority == signer, PasskeyVerificationFailed);
    var carried :- OkOr(v5.activeSession, NoActiveSession);
    :- Need(carried.v3.grant.expiresAt > now, SessionExpiryInPast);
    :- Need(carried.v3.grant.allowedCounterparty == counterparty, SessionAccountMisderived);
    :- Need(V6_SIZE <= |data|, UnsupportedVaultVersion);
    Ok((ImageV6(LiftV6(v5, 1)), carried))
  }
}
