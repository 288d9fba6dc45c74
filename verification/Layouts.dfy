/** The byte layouts of the Vault generations V2 to V6 and of the session account. Fields that always travel
    together are grouped; Borsh writes a group exactly as it writes its fields in order. */
module Layouts {
  import opened Prelude
  import opened Borsh

  /** sha256("account:Vault")[0..8]. */
  const DISCRIMINATOR: Bytes := [0xd3, 0x08, 0xe8, 0x2b, 0x02, 0x98, 0x75, 0x77]

  // 8 + INIT_SPACE of each generation.
  const V2_SIZE := 289
  const V3_SIZE := 305
  const V4_SIZE := 341
  const V5_SIZE := 399
  const V6_SIZE := 279

  datatype PendingWithdrawal = PendingWithdrawal(amount: u64, destination: Key, requestedAt: i64)

  type Passkey = k: Bytes | |k| == 33 witness seq(33, _ => 0)

  /** The fields every generation starts with. */
  datatype Head = Head(
    version: u8,
    bump: u8,
    passkeyPubkey: Passkey,
    swigAddress: Key,
    coolingOffSeconds: u32,
    pendingVoucherCount: u32,
    pendingWithdrawal: Option<PendingWithdrawal>,
    identityClaim: Key,
    dexterAuthority: Key)

  /** The session fields of V2. */
  datatype Grant = Grant(
    sessionPubkey: Key,
    maxAmount: u64,
    expiresAt: i64,
    allowedCounterparty: Key,
    nonce: u32,
    spent: u64)

  /** V3 appends the revolving meter to the session. */
  datatype SessionV3 = SessionV3(grant: Grant, currentOutstanding: u64, maxRevolvingCapacity: u64)

  /** V4 appends the lock odometers to the session. */
  datatype Session = Session(v3: SessionV3, crystallizedCumulative: u64, lastLockedSequence: u32)

  datatype Odometers = Odometers(outstandingLocked: u64, totalCrystallized: u64, totalSettled: u64)

  datatype Credit = Credit(borrowed: u64, standbyBacker: Option<Key>, standbyCap: u64, borrowRecoveryAt: Option<i64>)

  datatype VaultV2 = VaultV2(head: Head, activeSession: Option<Grant>)

  datatype VaultV3 = VaultV3(head: Head, activeSession: Option<SessionV3>)

  datatype VaultV4 = VaultV4(head: Head, activeSession: Option<Session>, odometers: Odometers)

  datatype VaultV5 = VaultV5(head: Head, activeSession: Option<Session>, odometers: Odometers, credit: Credit)

  datatype VaultV6 = VaultV6(head: Head, liveSessionCount: u8, odometers: Odometers, credit: Credit)

  const NO_ODOMETERS := Odometers(0, 0, 0)
  const NO_CREDIT := Credit(0, None, 0, None)

  // ---- Pending withdrawal --------------------------------------------------------------------

  function PutWithdrawal(v: PendingWithdrawal, k: Bytes): (b: Bytes)
    ensures |b| == 48 + |k|
  {
    PutU64(v.amount, PutKey(v.destination, PutI64(v.requestedAt, k)))
  }

  function GetWithdrawal(b: Bytes): (r: Read<PendingWithdrawal>)
    ensures r.Some? <==> 48 <= |b|
    ensures r.Some? ==> b == PutWithdrawal(r.value.0, r.value.1)
  {
    var (amount, b1) :- GetU64(b);
    var (destination, b2) :- GetKey(b1);
    var (requestedAt, b3) :- GetI64(b2);
    Some((PendingWithdrawal(amount, destination, requestedAt), b3))
  }

  lemma WithdrawalRoundTrip(v: PendingWithdrawal, k: Bytes)
    ensures GetWithdrawal(PutWithdrawal(v, k)) == Some((v, k))
  {
    hide PutU64, GetU64, PutKey, GetKey, PutI64, GetI64;
    U64RoundTrip(v.amount, PutKey(v.destination, PutI64(v.requestedAt, k)));
    KeyRoundTrip(v.destination, PutI64(v.requestedAt, k));
    I64RoundTrip(v.requestedAt, k);
  }

  // ---- The common head -----------------------------------------------------------------------

  function HeadLength(v: Head): nat { if v.pendingWithdrawal.Some? then 188 else 140 }

  function PutIdentity(v: Head, k: Bytes): Bytes { PutKey(v.identityClaim, PutKey(v.dexterAuthority, k)) }

  function PutHead(v: Head, k: Bytes): (b: Bytes)
    ensures |b| == HeadLength(v) + |k|
  {
    PutU8(v.version, PutU8(v.bump, PutArray(v.passkeyPubkey, PutKey(v.swigAddress,
      PutU32(v.coolingOffSeconds, PutU32(v.pendingVoucherCount,
        PutOption(PutWithdrawal, v.pendingWithdrawal, PutIdentity(v, k))))))))
  }

  function GetHead(b: Bytes): (r: Read<Head>)
  {
    var (version, b1) :- GetU8(b);
    var (bump, b2) :- GetU8(b1);
    var (passkey, b3) :- GetArray(33, b2);
    var (swig, b4) :- GetKey(b3);
    var (cooling, b5) :- GetU32(b4);
    var (pvc, b6) :- GetU32(b5);
    var (pending, b7) :- GetOption(GetWithdrawal, b6);
    var (identity, b8) :- GetKey(b7);
    var (authority, b9) :- GetKey(b8);
    Some((Head(version, bump, passkey, swig, cooling, pvc, pending, identity, authority), b9))
  }

  lemma HeadRoundTrip(v: Head, k: Bytes)
    ensures GetHead(PutHead(v, k)) == Some((v, k))
  {
    hide PutU8, GetU8, PutArray, GetArray, PutKey, GetKey, PutU32, GetU32, PutOption, GetOption, PutWithdrawal;
    var k8 := PutKey(v.dexterAuthority, k);
    var k7 := PutKey(v.identityClaim, k8);
    var k6 := PutOption(PutWithdrawal, v.pendingWithdrawal, k7);
    var k5 := PutU32(v.pendingVoucherCount, k6);
    var k4 := PutU32(v.coolingOffSeconds, k5);
    var k3 := PutKey(v.swigAddress, k4);
    var k2 := PutArray(v.passkeyPubkey, k3);
    var k1 := PutU8(v.bump, k2);
    U8RoundTrip(v.version, k1);
    U8RoundTrip(v.bump, k2);
    ArrayRoundTrip(v.passkeyPubkey, k3);
    KeyRoundTrip(v.swigAddress, k4);
    U32RoundTrip(v.coolingOffSeconds, k5);
    U32RoundTrip(v.pendingVoucherCount, k6);
    if v.pendingWithdrawal.Some? {
      WithdrawalRoundTrip(v.pendingWithdrawal.value, k7);
    }
    OptionRoundTrip(PutWithdrawal, GetWithdrawal, v.pendingWithdrawal, k7);
    KeyRoundTrip(v.identityClaim, k8);
    KeyRoundTrip(v.dexterAuthority, k);
  }

  lemma HeadReadBack(b: Bytes)
    ensures var r := GetHead(b); r.Some? ==> b == PutHead(r.value.0, r.value.1)
  {
    hide PutU8, GetU8, PutArray, GetArray, PutKey, GetKey, PutU32, GetU32, PutOption, GetOption, PutWithdrawal,
         GetWithdrawal;
    var r := GetHead(b);
    if r.Some? {
      var b1 := GetU8(b).value.1;
      var b2 := GetU8(b1).value.1;
      var b3 := GetArray(33, b2).value.1;
      var b4 := GetKey(b3).value.1;
      var b5 := GetU32(b4).value.1;
      var b6 := GetU32(b5).value.1;
      OptionReadBack(PutWithdrawal, GetWithdrawal, b6);
    }
  }

  // ---- Sessions ------------------------------------------------------------------------------

  function PutGrant(v: Grant, k: Bytes): (b: Bytes)
    ensures |b| == 92 + |k|
  {
    PutKey(v.sessionPubkey, PutU64(v.maxAmount, PutI64(v.expiresAt,
      PutKey(v.allowedCounterparty, PutU32(v.nonce, PutU64(v.spent, k))))))
  }

  function GetGrant(b: Bytes): (r: Read<Grant>)
    ensures r.Some? <==> 92 <= |b|
    ensures r.Some? ==> b == PutGrant(r.value.0, r.value.1)
  {
    var (sessionPubkey, b1) :- GetKey(b);
    var (maxAmount, b2) :- GetU64(b1);
    var (expiresAt, b3) :- GetI64(b2);
    var (counterparty, b4) :- GetKey(b3);
    var (nonce, b5) :- GetU32(b4);
    var (spent, b6) :- GetU64(b5);
    Some((Grant(sessionPubkey, maxAmount, expiresAt, counterparty, nonce, spent), b6))
  }

  lemma GrantRoundTrip(v: Grant, k: Bytes)
    ensures GetGrant(PutGrant(v, k)) == Some((v, k))
  {
    hide PutKey, GetKey, PutU64, GetU64, PutI64, GetI64, PutU32, GetU32;
    var k5 := PutU64(v.spent, k);
    var k4 := PutU32(v.nonce, k5);
    var k3 := PutKey(v.allowedCounterparty, k4);
    var k2 := PutI64(v.expiresAt, k3);
    var k1 := PutU64(v.maxAmount, k2);
    KeyRoundTrip(v.sessionPubkey, k1);
    U64RoundTrip(v.maxAmount, k2);
    I64RoundTrip(v.expiresAt, k3);
    KeyRoundTrip(v.allowedCounterparty, k4);
    U32RoundTrip(v.nonce, k5);
    U64RoundTrip(v.spent, k);
  }

  function PutSessionV3(v: SessionV3, k: Bytes): (b: Bytes)
    ensures |b| == 108 + |k|
  {
    PutGrant(v.grant, PutU64(v.currentOutstanding, PutU64(v.maxRevolvingCapacity, k)))
  }

  function GetSessionV3(b: Bytes): (r: Read<SessionV3>)
    ensures r.Some? <==> 108 <= |b|
    ensures r.Some? ==> b == PutSessionV3(r.value.0, r.value.1)
  {
    var (grant, b1) :- GetGrant(b);
    var (outstanding, b2) :- GetU64(b1);
    var (capacity, b3) :- GetU64(b2);
    Some((SessionV3(grant, outstanding, capacity), b3))
  }

  lemma SessionV3RoundTrip(v: SessionV3, k: Bytes)
    ensures GetSessionV3(PutSessionV3(v, k)) == Some((v, k))
  {
    hide PutGrant, GetGrant, PutU64, GetU64;
    var k2 := PutU64(v.maxRevolvingCapacity, k);
    GrantRoundTrip(v.grant, PutU64(v.currentOutstanding, k2));
    U64RoundTrip(v.currentOutstanding, k2);
    U64RoundTrip(v.maxRevolvingCapacity, k);
  }

  function PutSession(v: Session, k: Bytes): (b: Bytes)
    ensures |b| == 120 + |k|
  {
    PutSessionV3(v.v3, PutU64(v.crystallizedCumulative, PutU32(v.lastLockedSequence, k)))
  }

  function GetSession(b: Bytes): (r: Read<Session>)
    ensures r.Some? <==> 120 <= |b|
    ensures r.Some? ==> b == PutSession(r.value.0, r.value.1)
  {
    var (v3, b1) :- GetSessionV3(b);
    var (crystallized, b2) :- GetU64(b1);
    var (sequence, b3) :- GetU32(b2);
    Some((Session(v3, crystallized, sequence), b3))
  }

  lemma SessionRoundTrip(v: Session, k: Bytes)
    ensures GetSession(PutSession(v, k)) == Some((v, k))
  {
    hide PutSessionV3, GetSessionV3, PutU64, GetU64, PutU32, GetU32;
    var k2 := PutU32(v.lastLockedSequence, k);
    SessionV3RoundTrip(v.v3, PutU64(v.crystallizedCumulative, k2));
    U64RoundTrip(v.crystallizedCumulative, k2);
    U32RoundTrip(v.lastLockedSequence, k);
  }

  // ---- The tails -----------------------------------------------------------------------------

  function PutOdometers(v: Odometers, k: Bytes): (b: Bytes)
    ensures |b| == 24 + |k|
  {
    PutU64(v.outstandingLocked, PutU64(v.totalCrystallized, PutU64(v.totalSettled, k)))
  }

  function GetOdometers(b: Bytes): (r: Read<Odometers>)
    ensures r.Some? <==> 24 <= |b|
    ensures r.Some? ==> b == PutOdometers(r.value.0, r.value.1)
  {
    var (outstanding, b1) :- GetU64(b);
    var (crystallized, b2) :- GetU64(b1);
    var (settled, b3) :- GetU64(b2);
    Some((Odometers(outstanding, crystallized, settled), b3))
  }

  lemma OdometersRoundTrip(v: Odometers, k: Bytes)
    ensures GetOdometers(PutOdometers(v, k)) == Some((v, k))
  {
    hide PutU64, GetU64;
    var k2 := PutU64(v.totalSettled, k);
    U64RoundTrip(v.outstandingLocked, PutU64(v.totalCrystallized, k2));
    U64RoundTrip(v.totalCrystallized, k2);
    U64RoundTrip(v.totalSettled, k);
  }

  function CreditLength(v: Credit): nat {
    18 + (if v.standbyBacker.Some? then 32 else 0) + (if v.borrowRecoveryAt.Some? then 8 else 0)
  }

  function PutCredit(v: Credit, k: Bytes): (b: Bytes)
    ensures |b| == CreditLength(v) + |k|
  {
    PutU64(v.borrowed, PutOption(PutKey, v.standbyBacker,
      PutU64(v.standbyCap, PutOption(PutI64, v.borrowRecoveryAt, k))))
  }

  function GetCredit(b: Bytes): (r: Read<Credit>)
  {
    var (borrowed, b1) :- GetU64(b);
    var (backer, b2) :- GetOption(GetKey, b1);
    var (cap, b3) :- GetU64(b2);
    var (recoveryAt, b4) :- GetOption(GetI64, b3);
    Some((Credit(borrowed, backer, cap, recoveryAt), b4))
  }

  lemma CreditRoundTrip(v: Credit, k: Bytes)
    ensures GetCredit(PutCredit(v, k)) == Some((v, k))
  {
    hide PutU64, GetU64, PutOption, GetOption, PutKey, GetKey, PutI64, GetI64;
    var k3 := PutOption(PutI64, v.borrowRecoveryAt, k);
    var k2 := PutU64(v.standbyCap, k3);
    var k1 := PutOption(PutKey, v.standbyBacker, k2);
    U64RoundTrip(v.borrowed, k1);
    if v.standbyBacker.Some? {
      KeyRoundTrip(v.standbyBacker.value, k2);
    }
    OptionRoundTrip(PutKey, GetKey, v.standbyBacker, k2);
    U64RoundTrip(v.standbyCap, k3);
    if v.borrowRecoveryAt.Some? {
      I64RoundTrip(v.borrowRecoveryAt.value, k);
    }
    OptionRoundTrip(PutI64, GetI64, v.borrowRecoveryAt, k);
  }

  lemma CreditReadBack(b: Bytes)
    ensures var r := GetCredit(b); r.Some? ==> b == PutCredit(r.value.0, r.value.1)
  {
    hide PutU64, GetU64, PutOption, GetOption, PutKey, GetKey, PutI64, GetI64;
    var r := GetCredit(b);
    if r.Some? {
      var b1 := GetU64(b).value.1;
      OptionReadBack(PutKey, GetKey, b1);
      var b3 := GetU64(GetOption(GetKey, b1).value.1).value.1;
      OptionReadBack(PutI64, GetI64, b3);
    }
  }

  // ---- The generations -----------------------------------------------------------------------

  function PutV2(v: VaultV2, k: Bytes): Bytes { PutHead(v.head, PutOption(PutGrant, v.activeSession, k)) }

  function PutV3(v: VaultV3, k: Bytes): Bytes { PutHead(v.head, PutOption(PutSessionV3, v.activeSession, k)) }

  function PutV4(v: VaultV4, k: Bytes): (b: Bytes)
    ensures |b| <= V4_SIZE - 8 + |k|
  {
    PutHead(v.head, PutOption(PutSession, v.activeSession, PutOdometers(v.odometers, k)))
  }

  function PutV5(v: VaultV5, k: Bytes): (b: Bytes)
    ensures |b| <= V5_SIZE - 8 + |k|
  {
    PutHead(v.head, PutOption(PutSession, v.activeSession, PutOdometers(v.odometers, PutCredit(v.credit, k))))
  }

  /** Only a vault with every option present fills the space it is given. */
  function PutV6(v: VaultV6, k: Bytes): (b: Bytes)
    ensures |b| <= V6_SIZE - 8 + |k|
    ensures |b| == V6_SIZE - 8 + |k| <==>
      v.head.pendingWithdrawal.Some? && v.credit.standbyBacker.Some? && v.credit.borrowRecoveryAt.Some?
  {
    PutHead(v.head, PutU8(v.liveSessionCount, PutOdometers(v.odometers, PutCredit(v.credit, k))))
  }

  function GetV2(b: Bytes): Read<VaultV2> {
    var (head, b1) :- GetHead(b);
    var (session, b2) :- GetOption(GetGrant, b1);
    Some((VaultV2(head, session), b2))
  }

  function GetV3(b: Bytes): Read<VaultV3> {
    var (head, b1) :- GetHead(b);
    var (session, b2) :- GetOption(GetSessionV3, b1);
    Some((VaultV3(head, session), b2))
  }

  function GetV4(b: Bytes): Read<VaultV4> {
    var (head, b1) :- GetHead(b);
    var (session, b2) :- GetOption(GetSession, b1);
    var (odometers, b3) :- GetOdometers(b2);
    Some((VaultV4(head, session, odometers), b3))
  }

  function GetV5(b: Bytes): Read<VaultV5> {
    var (head, b1) :- GetHead(b);
    var (session, b2) :- GetOption(GetSession, b1);
    var (odometers, b3) :- GetOdometers(b2);
    var (credit, b4) :- GetCredit(b3);
    Some((VaultV5(head, session, odometers, credit), b4))
  }

  function GetV6(b: Bytes): Read<VaultV6> {
    var (head, b1) :- GetHead(b);
    var (count, b2) :- GetU8(b1);
    var (odometers, b3) :- GetOdometers(b2);
    var (credit, b4) :- GetCredit(b3);
    Some((VaultV6(head, count, odometers, credit), b4))
  }

  lemma V2RoundTrip(v: VaultV2, k: Bytes)
    ensures GetV2(PutV2(v, k)) == Some((v, k))
  {
    hide PutHead, GetHead, PutOption, GetOption, PutGrant, GetGrant;
    HeadRoundTrip(v.head, PutOption(PutGrant, v.activeSession, k));
    if v.activeSession.Some? {
      GrantRoundTrip(v.activeSession.value, k);
    }
    OptionRoundTrip(PutGrant, GetGrant, v.activeSession, k);
  }

  lemma V2ReadBack(b: Bytes)
    ensures var r := GetV2(b); r.Some? ==> b == PutV2(r.value.0, r.value.1)
  {
    hide PutHead, GetHead, PutOption, GetOption, PutGrant, GetGrant;
    if GetV2(b).Some? {
      HeadReadBack(b);
      OptionReadBack(PutGrant, GetGrant, GetHead(b).value.1);
    }
  }

  lemma V3RoundTrip(v: VaultV3, k: Bytes)
    ensures GetV3(PutV3(v, k)) == Some((v, k))
  {
    hide PutHead, GetHead, PutOption, GetOption, PutSessionV3, GetSessionV3;
    HeadRoundTrip(v.head, PutOption(PutSessionV3, v.activeSession, k));
    if v.activeSession.Some? {
      SessionV3RoundTrip(v.activeSession.value, k);
    }
    OptionRoundTrip(PutSessionV3, GetSessionV3, v.activeSession, k);
  }

  lemma V4RoundTrip(v: VaultV4, k: Bytes)
    ensures GetV4(PutV4(v, k)) == Some((v, k))
  {
    hide PutHead, GetHead, PutOption, GetOption, PutSession, GetSession, PutOdometers, GetOdometers;
    var k1 := PutOdometers(v.odometers, k);
    HeadRoundTrip(v.head, PutOption(PutSession, v.activeSession, k1));
    if v.activeSession.Some? {
      SessionRoundTrip(v.activeSession.value, k1);
    }
    OptionRoundTrip(PutSession, GetSession, v.activeSession, k1);
    OdometersRoundTrip(v.odometers, k);
  }

  lemma V5RoundTrip(v: VaultV5, k: Bytes)
    ensures GetV5(PutV5(v, k)) == Some((v, k))
  {
    hide PutHead, GetHead, PutOption, GetOption, PutSession, GetSession, PutOdometers, GetOdometers, PutCredit,
         GetCredit;
    var k2 := PutCredit(v.credit, k);
    var k1 := PutOdometers(v.odometers, k2);
    HeadRoundTrip(v.head, PutOption(PutSession, v.activeSession, k1));
    if v.activeSession.Some? {
      SessionRoundTrip(v.activeSession.value, k1);
    }
    OptionRoundTrip(PutSession, GetSession, v.activeSession, k1);
    OdometersRoundTrip(v.odometers, k2);
    CreditRoundTrip(v.credit, k);
  }

  lemma V6RoundTrip(v: VaultV6, k: Bytes)
    ensures GetV6(PutV6(v, k)) == Some((v, k))
  {
    hide PutHead, GetHead, PutU8, GetU8, PutOdometers, GetOdometers, PutCredit, GetCredit;
    var k2 := PutCredit(v.credit, k);
    var k1 := PutOdometers(v.odometers, k2);
    HeadRoundTrip(v.head, PutU8(v.liveSessionCount, k1));
    U8RoundTrip(v.liveSessionCount, k1);
    OdometersRoundTrip(v.odometers, k2);
    CreditRoundTrip(v.credit, k);
  }

  /** A V6 vault's bytes are its encoding followed by whatever was left unread. */
  lemma V6ReadBack(b: Bytes)
    ensures var r := GetV6(b); r.Some? ==> b == PutV6(r.value.0, r.value.1)
  {
    hide PutHead, GetHead, PutU8, GetU8, PutOdometers, GetOdometers, PutCredit, GetCredit;
    if GetV6(b).Some? {
      HeadReadBack(b);
      var b3 := GetOdometers(GetU8(GetHead(b).value.1).value.1).value.1;
      CreditReadBack(b3);
    }
  }
}
