/** What the migration chain does to a vault: every hop, and every walk made of hops, preserves its meaning. */
module MigrationChain {
  import opened Prelude
  import opened Borsh
  import opened Layouts
  import opened Appending
  import opened Migration
  import S = State

  // ---- What is kept, field by field ----------------------------------------------------------

  predicate HeadKept(was: Head, got: Head, version: u8) {
    && got.version == version
    && got.bump == was.bump && got.passkeyPubkey == was.passkeyPubkey && got.swigAddress == was.swigAddress
    && got.coolingOffSeconds == was.coolingOffSeconds && got.pendingVoucherCount == was.pendingVoucherCount
    && got.pendingWithdrawal == was.pendingWithdrawal
    && got.identityClaim == was.identityClaim && got.dexterAuthority == was.dexterAuthority
  }

  predicate NothingLocked(o: Odometers) {
    o.outstandingLocked == 0 && o.totalCrystallized == 0 && o.totalSettled == 0
  }

  predicate NoStandby(c: Credit) {
    c.borrowed == 0 && c.standbyBacker.None? && c.standbyCap == 0 && c.borrowRecoveryAt.None?
  }

  /** A V2 session in V3: the same grant, with both revolving meters at zero. */
  predicate GrantKept(was: Option<Grant>, got: Option<SessionV3>) {
    match was
    case None => got.None?
    case Some(grant) =>
      got.Some? && got.value.grant == grant && got.value.currentOutstanding == 0 && got.value.maxRevolvingCapacity == 0
  }

  /** A V3 session in V4: the same fields, with nothing locked. */
  predicate SessionKept(was: Option<SessionV3>, got: Option<Session>) {
    match was
    case None => got.None?
    case Some(v3) =>
      got.Some? && got.value.v3 == v3 && got.value.crystallizedCumulative == 0 && got.value.lastLockedSequence == 0
  }

  predicate V2InV3(was: VaultV2, got: VaultV3) {
    HeadKept(was.head, got.head, 3) && GrantKept(was.activeSession, got.activeSession)
  }

  predicate V3InV4(was: VaultV3, got: VaultV4) {
    && HeadKept(was.head, got.head, 4) && SessionKept(was.activeSession, got.activeSession)
    && NothingLocked(got.odometers)
  }

  predicate V4InV5(was: VaultV4, got: VaultV5) {
    && HeadKept(was.head, got.head, 5) && got.activeSession == was.activeSession
    && got.odometers == was.odometers && NoStandby(got.credit)
  }

  /** The session is not part of a V6 vault, only how many there are. */
  predicate V5InV6(was: VaultV5, got: VaultV6, live: u8) {
    && HeadKept(was.head, got.head, 6) && got.liveSessionCount == live
    && got.odometers == was.odometers && got.credit == was.credit
  }

  predicate V3InV5(was: VaultV3, got: VaultV5) {
    && HeadKept(was.head, got.head, 5) && SessionKept(was.activeSession, got.activeSession)
    && NothingLocked(got.odometers) && NoStandby(got.credit)
  }

  predicate V3InV6(was: VaultV3, got: VaultV6, live: u8) {
    && HeadKept(was.head, got.head, 6) && got.liveSessionCount == live
    && NothingLocked(got.odometers) && NoStandby(got.credit)
  }

  predicate Unexpired(session: Option<Session>, now: i64) {
    session.Some? && session.value.v3.grant.expiresAt > now
  }

  /** How bytes that hold no vault of this version are refused: by their stamp, or, under the right one, by Borsh. */
  predicate Unreadable(data: Bytes, version: u8, error: VaultError) {
    error == if |data| < 9 || data[..8] != DISCRIMINATOR || data[8] != version then UnsupportedVaultVersion
             else BorshError
  }

  /** The bytes of the account outside what was written: those of the old account, and zeros where it has grown. */
  predicate Beyond(was: Bytes, got: Bytes, from: nat) {
    forall k :: from <= k < |got| ==> got[k] == if k < |was| then was[k] else 0
  }

  predicate Padded(got: Bytes, from: nat) {
    forall k :: from <= k < |got| ==> got[k] == 0
  }

  // ---- One hop -------------------------------------------------------------------------------

  lemma VersionFirst(v: Head, k: Bytes)
    ensures |PutHead(v, k)| > 0 && PutHead(v, k)[0] == v.version
  {
  }

  /** Bytes that start with the discriminator and this head pass a hop's first checks. */
  lemma Opens<T>(get: Bytes -> Read<T>, data: Bytes, head: Head, k: Bytes)
    requires data == DISCRIMINATOR + PutHead(head, k)
    ensures Decode(get, head.version, data) ==
      match get(PutHead(head, k))
      case None => Err(BorshError)
      case Some((v, _)) => Ok(v)
  {
    VersionFirst(head, k);
    assert data[8..] == PutHead(head, k);
    assert data[8] == PutHead(head, k)[0];
  }

  /** Whatever else the buffer holds, decoding what a hop wrote gives the written vault back. */
  lemma ReadsBackV4(v: VaultV4, base: Bytes)
    requires |ImageV4(v)| <= |base| && v.head.version == S.VAULT_VERSION_V4
    ensures DecodeV4(Overwritten(base, ImageV4(v))) == Ok(v)
  {
    hide PutHead, PutOption, PutOdometers, GetV4;
    var slack := base[|ImageV4(v)|..];
    V4Append(v, slack);
    V4RoundTrip(v, slack);
    assert Overwritten(base, ImageV4(v)) == DISCRIMINATOR + PutV4(v, slack);
    Opens(GetV4, Overwritten(base, ImageV4(v)), v.head,
          PutOption(PutSession, v.activeSession, PutOdometers(v.odometers, slack)));
  }

  lemma ReadsBackV5(v: VaultV5, base: Bytes)
    requires |ImageV5(v)| <= |base| && v.head.version == S.VAULT_VERSION_V5
    ensures DecodeV5(Overwritten(base, ImageV5(v))) == Ok(v)
  {
    hide PutHead, PutOption, PutOdometers, PutCredit, GetV5;
    var slack := base[|ImageV5(v)|..];
    V5Append(v, slack);
    V5RoundTrip(v, slack);
    assert Overwritten(base, ImageV5(v)) == DISCRIMINATOR + PutV5(v, slack);
    Opens(GetV5, Overwritten(base, ImageV5(v)), v.head,
          PutOption(PutSession, v.activeSession, PutOdometers(v.odometers, PutCredit(v.credit, slack))));
  }

  /** The zero padding of a V6 image is slack as well. */
  lemma ReadsBackV6(v: VaultV6)
    requires v.head.version == S.VAULT_VERSION_V6
    ensures DecodeV6(ImageV6(v)) == Ok(v)
  {
    hide PutHead, PutU8, PutOdometers, PutCredit, GetV6;
    var out := DISCRIMINATOR + PutV6(v, []);
    var slack := Zeros(V6_SIZE - |out|);
    V6Append(v, slack);
    V6RoundTrip(v, slack);
    assert ImageV6(v) == DISCRIMINATOR + PutV6(v, slack);
    Opens(GetV6, ImageV6(v), v.head, PutU8(v.liveSessionCount, PutOdometers(v.odometers, PutCredit(v.credit, slack))));
  }

  /** The same for every generation the hops read; each hop ends with this error. */
  lemma RefusedBytes(data: Bytes)
    ensures DecodeHead(data).Err? ==> Unreadable(data, 2, DecodeHead(data).error)
    ensures DecodeV3(data).Err? ==> Unreadable(data, 3, DecodeV3(data).error)
    ensures DecodeV4(data).Err? ==> Unreadable(data, 4, DecodeV4(data).error)
    ensures DecodeV5(data).Err? ==> Unreadable(data, 5, DecodeV5(data).error)
  {
    hide GetHead, GetV3, GetV4, GetV5;
  }

  /** V3 -> V4 runs for exactly the recorded authority, never shrinks the account, keeps every field and leaves the
      bytes behind the encoding alone. */
  lemma HopToV4(data: Bytes, signer: Key)
    ensures match V3ToV4(data, signer)
      case Err(error) =>
        if DecodeV3(data).Err? then error == DecodeV3(data).error
        else DecodeV3(data).value.head.dexterAuthority != signer && error == PasskeyVerificationFailed
      case Ok(out) =>
        && DecodeV3(data).Ok? && DecodeV3(data).value.head.dexterAuthority == signer
        && |out| == Max(|data|, 341)
        && DecodeV4(out).Ok? && V3InV4(DecodeV3(data).value, DecodeV4(out).value)
        && Beyond(data, out, 8 + |PutV4(DecodeV4(out).value, [])|)
  {
    hide PutV4, DecodeV3, DecodeV4;
    if DecodeV3(data).Ok? {
      ReadsBackV4(LiftV4(DecodeV3(data).value), Resized(data, Max(|data|, V4_SIZE)));
    }
  }

  lemma HopToV5(data: Bytes, signer: Key)
    ensures match V4ToV5(data, signer)
      case Err(error) =>
        if DecodeV4(data).Err? then error == DecodeV4(data).error
        else DecodeV4(data).value.head.dexterAuthority != signer && error == PasskeyVerificationFailed
      case Ok(out) =>
        && DecodeV4(data).Ok? && DecodeV4(data).value.head.dexterAuthority == signer
        && |out| == Max(|data|, 399)
        && DecodeV5(out).Ok? && V4InV5(DecodeV4(data).value, DecodeV5(out).value)
        && Beyond(data, out, 8 + |PutV5(DecodeV5(out).value, [])|)
  {
    hide PutV5, DecodeV4, DecodeV5;
    if DecodeV4(data).Ok? {
      ReadsBackV5(LiftV5(DecodeV4(data).value), Resized(data, Max(|data|, V5_SIZE)));
    }
  }

  /** The plain V5 -> V6 hop drops an expired session and refuses a live one. */
  lemma HopToV6(data: Bytes, signer: Key, now: i64)
    ensures match V5ToV6(data, signer, now)
      case Err(error) =>
        if DecodeV5(data).Err? then error == DecodeV5(data).error
        else if DecodeV5(data).value.head.dexterAuthority != signer then error == PasskeyVerificationFailed
        else if Unexpired(DecodeV5(data).value.activeSession, now) then error == SessionAlreadyActive
        else |data| < V6_SIZE && error == UnsupportedVaultVersion
      case Ok(out) =>
        && DecodeV5(data).Ok? && DecodeV5(data).value.head.dexterAuthority == signer
        && !Unexpired(DecodeV5(data).value.activeSession, now)
        && |data| >= 279 && |out| == 279
        && DecodeV6(out).Ok? && V5InV6(DecodeV5(data).value, DecodeV6(out).value, 0)
        && Padded(out, 8 + |PutV6(DecodeV6(out).value, [])|)
  {
    hide PutV6, DecodeV5, DecodeV6;
    if DecodeV5(data).Ok? {
      ReadsBackV6(LiftV6(DecodeV5(data).value, 0));
    }
  }

  /** The with-session hop carries exactly the live session of the named counterparty out, verbatim. */
  lemma HopToV6WithSession(data: Bytes, signer: Key, counterparty: Key, now: i64)
    ensures match V5ToV6WithSession(data, signer, counterparty, now)
      case Err(error) =>
        if DecodeV5(data).Err? then error == DecodeV5(data).error
        else if DecodeV5(data).value.head.dexterAuthority != signer then error == PasskeyVerificationFailed
        else if DecodeV5(data).value.activeSession.None? then error == NoActiveSession
        else if !Unexpired(DecodeV5(data).value.activeSession, now) then error == SessionExpiryInPast
        else if DecodeV5(data).value.activeSession.value.v3.grant.allowedCounterparty != counterparty
        then error == SessionAccountMisderived
        else |data| < V6_SIZE && error == UnsupportedVaultVersion
      case Ok((out, carried)) =>
        && DecodeV5(data).Ok? && DecodeV5(data).value.head.dexterAuthority == signer
        && Unexpired(DecodeV5(data).value.activeSession, now)
        && DecodeV5(data).value.activeSession == Some(carried) && carried.v3.grant.allowedCounterparty == counterparty
        && |data| >= 279 && |out| == 279
        && DecodeV6(out).Ok? && V5InV6(DecodeV5(data).value, DecodeV6(out).value, 1)
        && Padded(out, 8 + |PutV6(DecodeV6(out).value, [])|)
  {
    hide PutV6, DecodeV5, DecodeV6;
    if DecodeV5(data).Ok? {
      ReadsBackV6(LiftV6(DecodeV5(data).value, 1));
    }
  }

  // ---- From V2 -------------------------------------------------------------------------------

  lemma SetsVersion(v: Head, k: Bytes, version: u8)
    ensures |PutHead(v, k)| > 0 && PutHead(v, k)[0 := version] == PutHead(v.(version := version), k)
  {
    hide PutOption, PutArray, PutU32;
    var rest := PutU8(v.bump, PutArray(v.passkeyPubkey, PutKey(v.swigAddress,
      PutU32(v.coolingOffSeconds, PutU32(v.pendingVoucherCount,
        PutOption(PutWithdrawal, v.pendingWithdrawal, PutIdentity(v, k)))))));
    assert PutHead(v, k) == [v.version] + rest;
  }

  /** The length of a V2 vault's encoding, with the discriminator. */
  function V2Length(v: VaultV2): nat { 8 + HeadLength(v.head) + (if v.activeSession.Some? then 93 else 1) }

  /** What stands behind a V2 vault's encoding once the first hop has sized the account. */
  function Behind(data: Bytes, v: VaultV2): Bytes
    requires V2Length(v) <= |data|
  {
    Resized(data, Max(|data|, V6_SIZE))[V2Length(v)..]
  }

  lemma V2Bytes(data: Bytes)
    requires DecodeV2(data).Ok?
    ensures var v2 := DecodeV2(data).value;
      && V2Length(v2) <= |data| && v2.head.version == S.VAULT_VERSION_V2
      && DecodeHead(data) == Ok(v2.head)
      && Resized(data, Max(|data|, V6_SIZE)) == DISCRIMINATOR + PutV2(v2, Behind(data, v2))
  {
    hide GetHead, PutHead, GetOption, GetGrant, PutGrant;
    var (v2, rest) := GetV2(data[8..]).value;
    V2ReadBack(data[8..]);
    V2Lengths(v2, rest);
    assert data == DISCRIMINATOR + PutV2(v2, rest);
    var grown := Zeros(Max(|data|, V6_SIZE) - |data|);
    V2Append(v2, rest, grown);
    V2Lengths(v2, rest + grown);
    var sized := Resized(data, Max(|data|, V6_SIZE));
    assert sized == data + grown == DISCRIMINATOR + PutV2(v2, rest + grown);
    V2Splits(v2, rest + grown);
    VersionFirst(v2.head, PutOption(PutGrant, v2.activeSession, rest));
  }

  lemma V2Lengths(v: VaultV2, k: Bytes)
    ensures 8 + |PutV2(v, k)| == V2Length(v) + |k|
  {
    hide PutHead, PutGrant;
  }

  lemma V2Splits(v: VaultV2, k: Bytes)
    ensures V2Length(v) <= |DISCRIMINATOR + PutV2(v, k)| && (DISCRIMINATOR + PutV2(v, k))[V2Length(v)..] == k
  {
    hide PutV2;
    V2Lengths(v, k);
    V2Append(v, [], k);
    V2Lengths(v, []);
    assert [] + k == k;
    assert DISCRIMINATOR + PutV2(v, k) == (DISCRIMINATOR + PutV2(v, [])) + k;
  }

  /** What the next generation's reader makes of the account after the hop: the two meters a V3 session ends with are
      the sixteen bytes behind the V2 session, which nothing has written. */
  lemma HopToV3(data: Bytes, signer: Key)
    ensures match V2ToV3(data, signer)
      case Err(error) =>
        if DecodeHead(data).Err? then error == DecodeHead(data).error
        else DecodeHead(data).value.dexterAuthority != signer && error == PasskeyVerificationFailed
      case Ok(out) =>
        && |out| == Max(|data|, 279) && |data| >= 9
        && DecodeHead(data).Ok? && DecodeHead(data).value.dexterAuthority == signer
        && (DecodeV2(data).Ok? ==>
              var v2 := DecodeV2(data).value;
              V2Length(v2) <= |data| && ReadsOn(DecodeV3(out), v2, Behind(data, v2)))
        && out[8] == 3 && (forall k :: 0 <= k < |out| && k != 8 ==> out[k] == if k < |data| then data[k] else 0)
  {
    hide DecodeV2, DecodeV3, Behind, GetV3, GetHead;
    if V2ToV3(data, signer).Ok? && DecodeV2(data).Ok? {
      V2Bytes(data);
      StampedReads(data, DecodeV2(data).value, Behind(data, DecodeV2(data).value));
    }
  }

  /** A V2 vault read as V3 with `t` behind its encoding: the head under its new stamp, and the session, if there is
      one, with the two numbers that stand there for its meters. */
  predicate ReadsOn(r: Result<VaultV3>, v: VaultV2, t: Bytes) {
    match v.activeSession
    case None => r.Ok? && HeadKept(v.head, r.value.head, 3) && r.value.activeSession.None?
    case Some(grant) =>
      if |t| < 16 then r == Err(BorshError)
      else
        && r.Ok? && HeadKept(v.head, r.value.head, 3)
        && r.value.activeSession.Some?
        && var session := r.value.activeSession.value;
        && session.grant == grant
        && session.currentOutstanding == GetU64(t).value.0
        && session.maxRevolvingCapacity == GetU64(t[8..]).value.0
  }

  lemma StampedReads(data: Bytes, v: VaultV2, t: Bytes)
    requires Resized(data, Max(|data|, V6_SIZE)) == DISCRIMINATOR + PutV2(v, t)
    ensures ReadsOn(DecodeV3(Resized(data, Max(|data|, V6_SIZE))[8 := S.VAULT_VERSION_V3]), v, t)
  {
    hide PutHead, GetHead, Resized, PutGrant, GetGrant, PutOption, GetOption, GetU64;
    var out := Resized(data, Max(|data|, V6_SIZE))[8 := S.VAULT_VERSION_V3];
    var k := PutOption(PutGrant, v.activeSession, t);
    var head := v.head.(version := S.VAULT_VERSION_V3);
    SetsVersion(v.head, k, S.VAULT_VERSION_V3);
    assert out == DISCRIMINATOR + PutHead(head, k);
    Opens(GetV3, out, head, k);
    HeadRoundTrip(head, k);
    SessionReadsOn(v, t);
  }

  lemma SessionReadsOn(v: VaultV2, t: Bytes)
    ensures var r := GetOption(GetSessionV3, PutOption(PutGrant, v.activeSession, t));
      match v.activeSession
      case None => r.Some? && r.value.0.None?
      case Some(grant) =>
        if |t| < 16 then r.None?
        else r.Some? && r.value.0 == Some(SessionV3(grant, GetU64(t).value.0, GetU64(t[8..]).value.0))
  {
    hide PutGrant, GetGrant, OfLe, Le;
    match v.activeSession
    case None => U8RoundTrip(0, t);
    case Some(grant) =>
      U8RoundTrip(1, PutGrant(grant, t));
      GrantRoundTrip(grant, t);
      assert GetSessionV3(PutGrant(grant, t)).Some? <==> 16 <= |t|;
  }

  /** The V2 vault carries no session, or sixteen zero bytes follow it. */
  predicate Neutral(v: VaultV2, t: Bytes) {
    v.activeSession.None? || (16 <= |t| && t[..16] == Zeros(16))
  }

  /** Exactly when the first hop preserves a V2 vault: the meters must come out zero, and nothing but the bytes that
      happen to stand there makes them so. */
  lemma V2SurvivesIff(data: Bytes, signer: Key)
    ensures DecodeV2(data).Ok? && V2ToV3(data, signer).Ok? ==>
      var v2 := DecodeV2(data).value;
      && V2Length(v2) <= |data|
      && var r := DecodeV3(V2ToV3(data, signer).value);
      (r.Ok? && V2InV3(v2, r.value) <==> Neutral(v2, Behind(data, v2)))
  {
    hide DecodeV2, DecodeV3, V2ToV3, Behind, GetU64, Zeros;
    HopToV3(data, signer);
    if DecodeV2(data).Ok? && V2ToV3(data, signer).Ok? {
      var t := Behind(data, DecodeV2(data).value);
      if 16 <= |t| {
        ZeroMeters(t);
      }
    }
  }

  lemma ZeroMeters(t: Bytes)
    requires 16 <= |t|
    ensures GetU64(t).value.0 == 0 && GetU64(t[8..]).value.0 == 0 <==> t[..16] == Zeros(16)
  {
    hide OfLe, Le;
    var a, b := t[..8], t[8..][..8];
    ZeroLe(a);
    ZeroLe(b);
    assert t[..16] == a + b;
    assert Zeros(16) == Zeros(8) + Zeros(8);
    assert (a + b)[..8] == a && (a + b)[8..] == b;
    assert (Zeros(8) + Zeros(8))[..8] == Zeros(8) && (Zeros(8) + Zeros(8))[8..] == Zeros(8);
  }

  lemma ZeroLe(b: Bytes)
    requires |b| == 8
    ensures OfLe(b) == 0 <==> b == Zeros(8)
  {
    LeOfLe(b);
    LeZero(8);
    OfLeLe(0, 8);
  }

  lemma {:induction false} LeZero(w: nat)
    ensures Le(0, w) == Zeros(w)
  {
    if w > 0 {
      LeZero(w - 1);
      assert Zeros(w) == [0] + Zeros(w - 1);
    }
  }

  /** A V2 account of 289 bytes that has both a pending withdrawal and a session has nothing behind it: after the hop
      no later one can read it, whoever signs. */
  lemma FullV2IsStranded(data: Bytes, signer: Key, next: Key)
    ensures DecodeV2(data).Ok? && |data| == V2_SIZE && V2ToV3(data, signer).Ok? ==>
      var v2, out := DecodeV2(data).value, V2ToV3(data, signer).value;
      |out| == V2_SIZE
      && (v2.head.pendingWithdrawal.Some? && v2.activeSession.Some? ==> V3ToV4(out, next) == Err(BorshError))
  {
    hide DecodeV2, DecodeV3, V2ToV3;
    HopToV3(data, signer);
  }

  const SOME_KEY: Key := seq(32, _ => 1)

  /** A V2 vault with every option present. */
  const FULL_V2 := VaultV2(
    Head(S.VAULT_VERSION_V2, 255, seq(33, _ => 1), SOME_KEY, 0, 0, Some(PendingWithdrawal(1, SOME_KEY, 0)),
         SOME_KEY, SOME_KEY),
    Some(Grant(SOME_KEY, 1, 100, SOME_KEY, 0, 0)))

  /** There is such an account, and its authority can make the hop. */
  lemma FullV2Exists()
    ensures var data := DISCRIMINATOR + PutV2(FULL_V2, []);
      |data| == V2_SIZE && DecodeV2(data) == Ok(FULL_V2) && V2ToV3(data, SOME_KEY).Ok?
  {
    hide GetV2, PutHead, GetHead, PutOption;
    var k := PutOption(PutGrant, FULL_V2.activeSession, []);
    V2RoundTrip(FULL_V2, []);
    V2Lengths(FULL_V2, []);
    Opens(GetV2, DISCRIMINATOR + PutV2(FULL_V2, []), FULL_V2.head, k);
    Opens(GetHead, DISCRIMINATOR + PutV2(FULL_V2, []), FULL_V2.head, k);
    HeadRoundTrip(FULL_V2.head, k);
  }

  // ---- Walks ---------------------------------------------------------------------------------

  /** The last hop, whichever instruction it takes: a live session leaves for its own account, exactly as it was, and
      is counted; any other is dropped. */
  ghost predicate Finishes(b: Bytes, v5: VaultV5, signer: Key, now: i64) {
    if Unexpired(v5.activeSession, now) then
      var carried := v5.activeSession.value;
      && V5ToV6(b, signer, now) == Err(SessionAlreadyActive)
      && var c := V5ToV6WithSession(b, signer, carried.v3.grant.allowedCounterparty, now);
      && c.Ok? && c.value.1 == carried
      && |c.value.0| == 279 && DecodeV6(c.value.0).Ok? && V5InV6(v5, DecodeV6(c.value.0).value, 1)
    else
      && (forall cp :: V5ToV6WithSession(b, signer, cp, now).Err?)
      && var c := V5ToV6(b, signer, now);
      && c.Ok?
      && |c.value| == 279 && DecodeV6(c.value).Ok? && V5InV6(v5, DecodeV6(c.value).value, 0)
  }

  /** Every V5 account of at least 279 bytes finishes when its authority signs. */
  lemma Finishing(b: Bytes, signer: Key, now: i64)
    ensures DecodeV5(b).Ok? && V6_SIZE <= |b| && DecodeV5(b).value.head.dexterAuthority == signer
      ==> Finishes(b, DecodeV5(b).value, signer, now)
  {
    hide V5ToV6, V5ToV6WithSession, DecodeV5, DecodeV6;
    HopToV6(b, signer, now);
    forall cp
      ensures V5ToV6WithSession(b, signer, cp, now).Ok?
        ==> DecodeV5(b).Ok? && Unexpired(DecodeV5(b).value.activeSession, now)
    {
      HopToV6WithSession(b, signer, cp, now);
    }
    if DecodeV5(b).Ok? && Unexpired(DecodeV5(b).value.activeSession, now) {
      HopToV6WithSession(b, signer, DecodeV5(b).value.activeSession.value.v3.grant.allowedCounterparty, now);
    }
  }

  /** A V4 vault, in its own size or in the shell of the next generation, ends as V6 with every V4 field kept. */
  lemma WalkFromV4(data: Bytes, signer: Key, now: i64)
    ensures DecodeV4(data).Ok? && DecodeV4(data).value.head.dexterAuthority == signer && |data| <= 399 ==>
      var b := V4ToV5(data, signer);
      && b.Ok? && |b.value| == 399
      && DecodeV5(b.value).Ok? && V4InV5(DecodeV4(data).value, DecodeV5(b.value).value)
      && Finishes(b.value, DecodeV5(b.value).value, signer, now)
  {
    hide V4ToV5, DecodeV4, DecodeV5, Finishes, Beyond;
    HopToV5(data, signer);
    if V4ToV5(data, signer).Ok? {
      Finishing(V4ToV5(data, signer).value, signer, now);
    }
  }

  /** What the end of the chain holds of a V3 vault: its fields in the V6 vault, and its session, if it was live, in
      what the last hop carries out. */
  ghost predicate FinishesFromV3(b: Bytes, v3: VaultV3, signer: Key, now: i64) {
    if v3.activeSession.Some? && v3.activeSession.value.grant.expiresAt > now then
      var c := V5ToV6WithSession(b, signer, v3.activeSession.value.grant.allowedCounterparty, now);
      && c.Ok? && SessionKept(v3.activeSession, Some(c.value.1))
      && |c.value.0| == 279 && DecodeV6(c.value.0).Ok? && V3InV6(v3, DecodeV6(c.value.0).value, 1)
    else
      var c := V5ToV6(b, signer, now);
      c.Ok? && |c.value| == 279 && DecodeV6(c.value).Ok? && V3InV6(v3, DecodeV6(c.value).value, 0)
  }

  /** The whole chain from V3: the sizes on the way are 341, 399 and 279, and every field arrives. */
  lemma ChainPreservesMeaning(data: Bytes, signer: Key, now: i64)
    requires DecodeV3(data).Ok? && DecodeV3(data).value.head.dexterAuthority == signer
    requires |data| <= V4_SIZE
    ensures var a := V3ToV4(data, signer);
      && a.Ok? && |a.value| == 341
      && var b := V4ToV5(a.value, signer);
      && b.Ok? && |b.value| == 399
      && FinishesFromV3(b.value, DecodeV3(data).value, signer, now)
  {
    hide V3ToV4, V4ToV5, V5ToV6, V5ToV6WithSession, DecodeV3, DecodeV4, DecodeV5, DecodeV6, Beyond;
    HopToV4(data, signer);
    WalkFromV4(V3ToV4(data, signer).value, signer, now);
  }

  /** Every V3 vault in a 305-byte account is such a starting point, whatever bytes follow its encoding. */
  lemma V3AccountsDecode(v: VaultV3, slack: Bytes)
    requires v.head.version == S.VAULT_VERSION_V3
    ensures |PutV3(v, [])| <= V3_SIZE - 8
    ensures DecodeV3(DISCRIMINATOR + PutV3(v, slack)) == Ok(v)
  {
    hide PutHead, PutOption, GetV3;
    V3RoundTrip(v, slack);
    Opens(GetV3, DISCRIMINATOR + PutV3(v, slack), v.head, PutOption(PutSessionV3, v.activeSession, slack));
    V3Fits(v);
  }

  lemma V3Fits(v: VaultV3)
    ensures |PutV3(v, [])| <= V3_SIZE - 8
  {
  }

  // ---- The layout-overlap repair -------------------------------------------------------------

  /** The vault in V6 bytes that carry a V4 stamp. */
  ghost function BornBroken(data: Bytes): Option<VaultV6> {
    if |data| == V6_SIZE && data[..8] == DISCRIMINATOR && data[8] == S.VAULT_VERSION_V4 then
      var (v, _) :- GetV6(data[8..]);
      Some(v)
    else None
  }

  /** The V4 reader takes the count for its session tag: it accepts the bytes exactly when the count is zero. */
  lemma OverlapReadsAsV4(data: Bytes)
    ensures match BornBroken(data)
      case None => true
      case Some(v) =>
        && (DecodeV4(data).Ok? <==> v.liveSessionCount == 0)
        && (DecodeV4(data).Ok? ==> DecodeV4(data).value == VaultV4(v.head, None, v.odometers))
  {
    hide GetHead, PutHead, GetOdometers, PutOdometers, GetSession, PutSession, GetCredit;
    if BornBroken(data).Some? {
      HeadReadBack(data[8..]);
      var (head, b1) := GetHead(data[8..]).value;
      assert |b1| <= V6_SIZE - 8 - 140;
    }
  }

  /** The repair: walking such an account up from V4 gives back the same vault under the right stamp, with
      neutral credit. */
  lemma RepairRestores(data: Bytes, signer: Key, now: i64)
    ensures match BornBroken(data)
      case None => true
      case Some(v) =>
        v.liveSessionCount == 0 && v.head.dexterAuthority == signer ==>
          var b := V4ToV5(data, signer);
          && b.Ok? && |b.value| == V5_SIZE
          && var c := V5ToV6(b.value, signer, now);
          && c.Ok? && |c.value| == V6_SIZE
          && DecodeV6(c.value).Ok?
          && var got := DecodeV6(c.value).value;
          && HeadKept(v.head, got.head, 6) && got.liveSessionCount == 0
          && got.odometers == v.odometers && NoStandby(got.credit)
  {
    hide V4ToV5, V5ToV6, V5ToV6WithSession, DecodeV4, DecodeV6, GetV6;
    if BornBroken(data).Some? {
      assert |data| == V6_SIZE;
      hide BornBroken;
      OverlapReadsAsV4(data);
      WalkFromV4(data, signer, now);
    }
  }
}
