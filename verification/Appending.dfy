/** Bytes after an encoding do not disturb it: every writer commutes with appending. */
module Appending {
  import opened Prelude
  import opened Borsh
  import opened Layouts

  lemma U8Append(v: u8, k: Bytes, t: Bytes)
    ensures PutU8(v, k) + t == PutU8(v, k + t)
  {
  }

  lemma ArrayAppend(a: Bytes, k: Bytes, t: Bytes)
    ensures PutArray(a, k) + t == PutArray(a, k + t)
  {
  }

  lemma U32Append(v: u32, k: Bytes, t: Bytes)
    ensures PutU32(v, k) + t == PutU32(v, k + t)
  {
  }

  lemma U64Append(v: u64, k: Bytes, t: Bytes)
    ensures PutU64(v, k) + t == PutU64(v, k + t)
  {
  }

  lemma OptionAppend<T>(put: (T, Bytes) -> Bytes, o: Option<T>, k: Bytes, t: Bytes)
    requires o.Some? ==> put(o.value, k) + t == put(o.value, k + t)
    ensures PutOption(put, o, k) + t == PutOption(put, o, k + t)
  {
    match o
    case None => U8Append(0, k, t);
    case Some(v) => U8Append(1, put(v, k), t);
  }

  lemma WithdrawalAppend(v: PendingWithdrawal, k: Bytes, t: Bytes)
    ensures PutWithdrawal(v, k) + t == PutWithdrawal(v, k + t)
  {
    hide PutU64, PutArray;
    var k2 := PutI64(v.requestedAt, k);
    U64Append(v.amount, PutKey(v.destination, k2), t);
    ArrayAppend(v.destination, k2, t);
    U64Append(Unsigned(v.requestedAt), k, t);
  }

  lemma HeadAppend(v: Head, k: Bytes, t: Bytes)
    ensures PutHead(v, k) + t == PutHead(v, k + t)
  {
    hide PutU8, PutU32, PutArray, PutOption, PutWithdrawal;
    var k8 := PutKey(v.dexterAuthority, k);
    var k7 := PutKey(v.identityClaim, k8);
    var k6 := PutOption(PutWithdrawal, v.pendingWithdrawal, k7);
    var k5 := PutU32(v.pendingVoucherCount, k6);
    var k4 := PutU32(v.coolingOffSeconds, k5);
    var k3 := PutKey(v.swigAddress, k4);
    var k2 := PutArray(v.passkeyPubkey, k3);
    U8Append(v.version, PutU8(v.bump, k2), t);
    U8Append(v.bump, k2, t);
    ArrayAppend(v.passkeyPubkey, k3, t);
    ArrayAppend(v.swigAddress, k4, t);
    U32Append(v.coolingOffSeconds, k5, t);
    U32Append(v.pendingVoucherCount, k6, t);
    if v.pendingWithdrawal.Some? {
      WithdrawalAppend(v.pendingWithdrawal.value, k7, t);
    }
    OptionAppend(PutWithdrawal, v.pendingWithdrawal, k7, t);
    ArrayAppend(v.identityClaim, k8, t);
    ArrayAppend(v.dexterAuthority, k, t);
  }

  lemma GrantAppend(v: Grant, k: Bytes, t: Bytes)
    ensures PutGrant(v, k) + t == PutGrant(v, k + t)
  {
    hide PutU32, PutU64, PutArray;
    var k5 := PutU64(v.spent, k);
    var k4 := PutU32(v.nonce, k5);
    var k3 := PutKey(v.allowedCounterparty, k4);
    var k2 := PutI64(v.expiresAt, k3);
    var k1 := PutU64(v.maxAmount, k2);
    ArrayAppend(v.sessionPubkey, k1, t);
    U64Append(v.maxAmount, k2, t);
    U64Append(Unsigned(v.expiresAt), k3, t);
    ArrayAppend(v.allowedCounterparty, k4, t);
    U32Append(v.nonce, k5, t);
    U64Append(v.spent, k, t);
  }

  lemma SessionAppend(v: Session, k: Bytes, t: Bytes)
    ensures PutSession(v, k) + t == PutSession(v, k + t)
  {
    hide PutU32, PutU64, PutGrant;
    var k4 := PutU32(v.lastLockedSequence, k);
    var k3 := PutU64(v.crystallizedCumulative, k4);
    var k2 := PutU64(v.v3.maxRevolvingCapacity, k3);
    GrantAppend(v.v3.grant, PutU64(v.v3.currentOutstanding, k2), t);
    U64Append(v.v3.currentOutstanding, k2, t);
    U64Append(v.v3.maxRevolvingCapacity, k3, t);
    U64Append(v.crystallizedCumulative, k4, t);
    U32Append(v.lastLockedSequence, k, t);
  }

  lemma OdometersAppend(v: Odometers, k: Bytes, t: Bytes)
    ensures PutOdometers(v, k) + t == PutOdometers(v, k + t)
  {
    hide PutU64;
    var k2 := PutU64(v.totalSettled, k);
    U64Append(v.outstandingLocked, PutU64(v.totalCrystallized, k2), t);
    U64Append(v.totalCrystallized, k2, t);
    U64Append(v.totalSettled, k, t);
  }

  lemma CreditAppend(v: Credit, k: Bytes, t: Bytes)
    ensures PutCredit(v, k) + t == PutCredit(v, k + t)
  {
    hide PutU64, PutOption, PutArray;
    var k3 := PutOption(PutI64, v.borrowRecoveryAt, k);
    var k2 := PutU64(v.standbyCap, k3);
    U64Append(v.borrowed, PutOption(PutKey, v.standbyBacker, k2), t);
    if v.standbyBacker.Some? {
      ArrayAppend(v.standbyBacker.value, k2, t);
    }
    OptionAppend(PutKey, v.standbyBacker, k2, t);
    U64Append(v.standbyCap, k3, t);
    if v.borrowRecoveryAt.Some? {
      U64Append(Unsigned(v.borrowRecoveryAt.value), k, t);
    }
    OptionAppend(PutI64, v.borrowRecoveryAt, k, t);
  }

  lemma V2Append(v: VaultV2, k: Bytes, t: Bytes)
    ensures PutV2(v, k) + t == PutV2(v, k + t)
  {
    hide PutHead, PutOption, PutGrant;
    HeadAppend(v.head, PutOption(PutGrant, v.activeSession, k), t);
    if v.activeSession.Some? {
      GrantAppend(v.activeSession.value, k, t);
    }
    OptionAppend(PutGrant, v.activeSession, k, t);
  }

  lemma V4Append(v: VaultV4, t: Bytes)
    ensures PutV4(v, []) + t == PutV4(v, t)
  {
    hide PutHead, PutOption, PutSession, PutOdometers;
    var k1 := PutOdometers(v.odometers, []);
    HeadAppend(v.head, PutOption(PutSession, v.activeSession, k1), t);
    if v.activeSession.Some? {
      SessionAppend(v.activeSession.value, k1, t);
    }
    OptionAppend(PutSession, v.activeSession, k1, t);
    OdometersAppend(v.odometers, [], t);
    assert [] + t == t;
  }

  lemma V5Append(v: VaultV5, t: Bytes)
    ensures PutV5(v, []) + t == PutV5(v, t)
  {
    hide PutHead, PutOption, PutSession, PutOdometers, PutCredit;
    var k2 := PutCredit(v.credit, []);
    var k1 := PutOdometers(v.odometers, k2);
    HeadAppend(v.head, PutOption(PutSession, v.activeSession, k1), t);
    if v.activeSession.Some? {
      SessionAppend(v.activeSession.value, k1, t);
    }
    OptionAppend(PutSession, v.activeSession, k1, t);
    OdometersAppend(v.odometers, k2, t);
    CreditAppend(v.credit, [], t);
    assert [] + t == t;
  }

  lemma V6Append(v: VaultV6, t: Bytes)
    ensures PutV6(v, []) + t == PutV6(v, t)
  {
    hide PutHead, PutU8, PutOdometers, PutCredit;
    var k2 := PutCredit(v.credit, []);
    var k1 := PutOdometers(v.odometers, k2);
    HeadAppend(v.head, PutU8(v.liveSessionCount, k1), t);
    U8Append(v.liveSessionCount, k1, t);
    OdometersAppend(v.odometers, k2, t);
    CreditAppend(v.credit, [], t);
    assert [] + t == t;
  }
}
