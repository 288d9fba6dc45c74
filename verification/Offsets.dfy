/** Where every field stands in the bytes: little-endian, in declaration order, at the offsets readers of the raw
    account rely on. */
module Offsets {
  import opened Prelude
  import opened Borsh
  import opened Layouts
  import opened Appending
  import opened Legacy

  function Digit256(n: nat, i: nat): nat { if i == 0 then n % 256 else Digit256(n / 256, i - 1) }

  /** Byte `i` of a little-endian number is its digit of weight 256 to the power of `i`. */
  lemma {:induction false} LittleEndian(n: nat, w: nat, i: nat)
    requires i < w
    ensures Le(n, w)[i] == Digit256(n, i)
  {
    if i > 0 {
      LittleEndian(n / 256, w - 1, i - 1);
    }
  }

  // ---- One field -----------------------------------------------------------------------------

  lemma U64Stands(v: u64, k: Bytes)
    ensures |PutU64(v, k)| == 8 + |k| && PutU64(v, k)[..8] == Le(v, 8) && PutU64(v, k)[8..] == k
  {
  }

  lemma U32Stands(v: u32, k: Bytes)
    ensures |PutU32(v, k)| == 4 + |k| && PutU32(v, k)[..4] == Le(v, 4) && PutU32(v, k)[4..] == k
  {
  }

  lemma ArrayStands(a: Bytes, k: Bytes)
    ensures |PutArray(a, k)| == |a| + |k| && PutArray(a, k)[..|a|] == a && PutArray(a, k)[|a|..] == k
  {
  }

  lemma OptionTag<T>(put: (T, Bytes) -> Bytes, o: Option<T>, k: Bytes)
    ensures PutOption(put, o, k) != [] && PutOption(put, o, k)[0] == (if o.Some? then 1 else 0)
    ensures PutOption(put, o, k)[1..] == if o.Some? then put(o.value, k) else k
  {
  }

  lemma SliceOfRest(b: Bytes, at: nat, n: nat)
    requires at + n <= |b|
    ensures b[at..][..n] == b[at..at + n] && b[at..][n..] == b[at + n..]
  {
  }

  // ---- Groups of fields ----------------------------------------------------------------------

  lemma WithdrawalOffsets(v: PendingWithdrawal, k: Bytes)
    ensures var b := PutWithdrawal(v, k);
      && b[0..8] == Le(v.amount, 8) && b[8..40] == v.destination && b[40..48] == Le(Unsigned(v.requestedAt), 8)
      && b[48..] == k
  {
  }

  /** The head, with the discriminator before it at the offsets 8, 9, 10, 43, 75, 79 and 83 of the account. */
  lemma HeadOffsets(v: Head, k: Bytes)
    ensures var b := PutHead(v, k);
      && b[0] == v.version && b[1] == v.bump && b[2..35] == v.passkeyPubkey && b[35..67] == v.swigAddress
      && b[67..71] == Le(v.coolingOffSeconds, 4) && b[71..75] == Le(v.pendingVoucherCount, 4)
      && b[75..] == PutOption(PutWithdrawal, v.pendingWithdrawal, v.identityClaim + v.dexterAuthority + k)
  {
  }

  lemma SessionOffsets(v: Session, k: Bytes)
    ensures var b, g := PutSession(v, k), v.v3.grant;
      && b[0..32] == g.sessionPubkey && b[32..40] == Le(g.maxAmount, 8) && b[40..48] == Le(Unsigned(g.expiresAt), 8)
      && b[48..80] == g.allowedCounterparty && b[80..84] == Le(g.nonce, 4) && b[84..92] == Le(g.spent, 8)
      && b[92..100] == Le(v.v3.currentOutstanding, 8) && b[100..108] == Le(v.v3.maxRevolvingCapacity, 8)
      && b[108..116] == Le(v.crystallizedCumulative, 8) && b[116..120] == Le(v.lastLockedSequence, 4)
      && b[120..] == k
  {
  }

  /** The first 92 and the first 108 bytes of a session are what V2 and V3 hold of it. */
  lemma ShorterSessions(v: Session, k: Bytes)
    ensures PutGrant(v.v3.grant, []) == PutSession(v, k)[..92]
    ensures PutSessionV3(v.v3, []) == PutSession(v, k)[..108]
  {
  }

  lemma OdometersOffsets(v: Odometers, k: Bytes)
    ensures var b := PutOdometers(v, k);
      && b[0..8] == Le(v.outstandingLocked, 8) && b[8..16] == Le(v.totalCrystallized, 8)
      && b[16..24] == Le(v.totalSettled, 8) && b[24..] == k
  {
  }

  lemma CreditOffsets(v: Credit, k: Bytes)
    ensures var b := PutCredit(v, k);
      && b[0..8] == Le(v.borrowed, 8)
      && b[8] == (if v.standbyBacker.Some? then 1 else 0)
      && (v.standbyBacker.Some? ==> b[9..41] == v.standbyBacker.value)
      && var at := if v.standbyBacker.Some? then 41 else 9;
      && b[at..at + 8] == Le(v.standbyCap, 8)
      && b[at + 8] == (if v.borrowRecoveryAt.Some? then 1 else 0)
      && (v.borrowRecoveryAt.Some? ==> b[at + 9..at + 17] == Le(Unsigned(v.borrowRecoveryAt.value), 8))
  {
    hide Le, PutU64, PutArray, PutOption;
    var k3 := PutOption(PutI64, v.borrowRecoveryAt, k);
    var k2 := PutU64(v.standbyCap, k3);
    var k1 := PutOption(PutKey, v.standbyBacker, k2);
    var b := PutCredit(v, k);
    U64Stands(v.borrowed, k1);
    OptionTag(PutKey, v.standbyBacker, k2);
    assert b[8] == b[8..][0] && b[9..] == b[8..][1..];
    var at := if v.standbyBacker.Some? then 41 else 9;
    if v.standbyBacker.Some? {
      ArrayStands(v.standbyBacker.value, k2);
      SliceOfRest(b, 9, 32);
    }
    assert b[at..] == k2;
    U64Stands(v.standbyCap, k3);
    SliceOfRest(b, at, 8);
    OptionTag(PutI64, v.borrowRecoveryAt, k);
    assert b[at + 8] == b[at + 8..][0] && b[at + 9..] == b[at + 8..][1..];
    if v.borrowRecoveryAt.Some? {
      U64Stands(Unsigned(v.borrowRecoveryAt.value), k);
      SliceOfRest(b, at + 9, 8);
    }
  }

  // ---- The generations -----------------------------------------------------------------------

  lemma HeadThen(v: Head, k: Bytes)
    ensures PutHead(v, k) == PutHead(v, []) + k
  {
    hide PutHead;
    HeadAppend(v, [], k);
    assert [] + k == k;
  }

  lemma SessionThen(session: Option<Session>, k: Bytes)
    ensures PutOption(PutSession, session, k) == PutOption(PutSession, session, []) + k
  {
    hide PutSession;
    if session.Some? { SessionAppend(session.value, [], k); }
    OptionAppend(PutSession, session, [], k);
    assert [] + k == k;
  }

  lemma OdometersThen(v: Odometers, k: Bytes)
    ensures PutOdometers(v, k) == PutOdometers(v, []) + k
  {
    hide PutOdometers;
    OdometersAppend(v, [], k);
    assert [] + k == k;
  }

  /** The order of the groups in each generation: what V4 and V5 appended stands at the end, and V6 has its count
      where the session was. */
  lemma GroupsInOrder(v4: VaultV4, v5: VaultV5, v6: VaultV6)
    ensures PutV4(v4, [])
         == PutHead(v4.head, []) + PutOption(PutSession, v4.activeSession, []) + PutOdometers(v4.odometers, [])
    ensures PutV5(v5, [])
         == PutHead(v5.head, []) + PutOption(PutSession, v5.activeSession, []) + PutOdometers(v5.odometers, [])
            + PutCredit(v5.credit, [])
    ensures PutV6(v6, [])
         == PutHead(v6.head, []) + [v6.liveSessionCount] + PutOdometers(v6.odometers, []) + PutCredit(v6.credit, [])
  {
    hide PutHead, PutOption, PutOdometers, PutCredit;
    HeadThen(v4.head, PutOption(PutSession, v4.activeSession, PutOdometers(v4.odometers, [])));
    SessionThen(v4.activeSession, PutOdometers(v4.odometers, []));
    var tail5 := PutOdometers(v5.odometers, PutCredit(v5.credit, []));
    HeadThen(v5.head, PutOption(PutSession, v5.activeSession, tail5));
    SessionThen(v5.activeSession, tail5);
    OdometersThen(v5.odometers, PutCredit(v5.credit, []));
    var tail6 := PutOdometers(v6.odometers, PutCredit(v6.credit, []));
    HeadThen(v6.head, PutU8(v6.liveSessionCount, tail6));
    OdometersThen(v6.odometers, PutCredit(v6.credit, []));
  }

  lemma LegacyOffsets(v: LegacyVault, k: Bytes)
    ensures var b := PutLegacy(v, k);
      && b[0] == v.bump && b[1..34] == v.passkeyPubkey && b[34..66] == v.swigAddress
      && b[66..74] == Le(Unsigned(v.coolingOffSeconds), 8) && b[74..78] == Le(v.pendingVoucherCount, 4)
      && b[78..] == PutOption(PutWithdrawal, v.pendingWithdrawal, v.supabaseUserId
           + (if v.storedAuthority.Some? then v.storedAuthority.value else []) + k)
  {
    hide Le, PutU32, PutU64, PutArray, PutOption, PutWithdrawal;
    var last := PutArray(v.supabaseUserId, PutAuthority(v.storedAuthority, k));
    var k5 := PutOption(PutWithdrawal, v.pendingWithdrawal, last);
    var k4 := PutU32(v.pendingVoucherCount, k5);
    var k3 := PutI64(v.coolingOffSeconds, k4);
    var k2 := PutKey(v.swigAddress, k3);
    var k1 := PutArray(v.passkeyPubkey, k2);
    var b := PutLegacy(v, k);
    assert b == [v.bump] + k1;
    ArrayStands(v.passkeyPubkey, k2);
    ArrayStands(v.swigAddress, k3);
    U64Stands(Unsigned(v.coolingOffSeconds), k4);
    U32Stands(v.pendingVoucherCount, k5);
    assert b[1..] == k1;
    SliceOfRest(b, 1, 33);
    SliceOfRest(b, 34, 32);
    SliceOfRest(b, 66, 8);
    SliceOfRest(b, 74, 4);
    UserStands(v, k);
  }

  lemma UserStands(v: LegacyVault, k: Bytes)
    ensures PutArray(v.supabaseUserId, PutAuthority(v.storedAuthority, k))
         == v.supabaseUserId + (if v.storedAuthority.Some? then v.storedAuthority.value else []) + k
  {
  }
}
