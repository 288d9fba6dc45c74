/** Each instruction as a function from the accounts it finds to the accounts it leaves, or to the
    error it ends with. A transaction is an instruction together with the SignV2 transfer the
    instruction authorizes, so it also ends with InsufficientFunds when that transfer cannot run. */
module Protocol {
  import opened Prelude
  import opened State

  /** The canonical bump find_program_address yields for (vault, counterparty). */
  type Bumps = (Pubkey, Pubkey) -> u8

  // ---- Account lookups the Anchor constraints perform ----------------------------------------

  function VaultAt(s: State, vk: Pubkey): Result<Vault> {
    if vk in s.vaults then Ok(s.vaults[vk]) else Err(AccountMissing)
  }

  function ClaimAt(s: State, ck: Pubkey): Result<LockedClaim> {
    if ck in s.claims then Ok(s.claims[ck]) else Err(AccountMissing)
  }

  function BackerAt(s: State, financier: Pubkey): Result<StandbyBacker> {
    if financier in s.backers then Ok(s.backers[financier]) else Err(AccountMissing)
  }

  /** seeds = [SESSION_SEED, vault, counterparty], bump = session.bump */
  function SessionAt(s: State, vk: Pubkey, sk: Pubkey, counterparty: Pubkey): Result<SessionAccount> {
    if sk !in s.sessions then Err(AccountMissing)
    else if sk != SessionAddress(vk, counterparty, s.sessions[sk].bump) then Err(ConstraintSeeds)
    else Ok(s.sessions[sk])
  }

  /** The SignV2 TransferChecked that follows an instruction. */
  function Debit(s: State, wallet: Pubkey, amount: u64): Result<State> {
    if s.Balance(wallet) < amount then Err(InsufficientFunds)
    else Ok(s.(balances := s.balances[wallet := s.Balance(wallet) - amount]))
  }

  function PutVault(s: State, vk: Pubkey, v: Vault): State {
    s.(vaults := s.vaults[vk := v])
  }

  // ---- The environment -----------------------------------------------------------------------

  function Tick(s: State, seconds: nat): Result<State> {
    if s.now + seconds > I64_MAX then Err(ArithmeticOverflow) else Ok(s.(now := s.now + seconds))
  }

  function Deposit(s: State, wallet: Pubkey, amount: u64): Result<State> {
    if s.Balance(wallet) + amount > U64_MAX then Err(ArithmeticOverflow)
    else Ok(s.(balances := s.balances[wallet := s.Balance(wallet) + amount]))
  }

  // ---- Vault life cycle ----------------------------------------------------------------------

  function InitializeVault(s: State, vk: Pubkey, passkeyPrefix: u8, coolingOff: u32, authority: Pubkey): Result<State> {
    if vk in s.vaults then Err(AccountInUse) else
    :- Need(passkeyPrefix == 2 || passkeyPrefix == 3, PasskeyVerificationFailed);
    Ok(PutVault(s, vk, Vault(VAULT_VERSION_V6, DEFAULT_KEY, coolingOff, 0, None, authority,
                             0, 0, 0, 0, 0, None, 0, None, None)))
  }

  predicate KnownVersion(v: Vault) {
    VAULT_VERSION_V2 <= v.version <= VAULT_VERSION_V6
  }

  function SetSwig(s: State, vk: Pubkey, swig: Pubkey, passkeyOk: bool): Result<State> {
    var v :- VaultAt(s, vk);
    :- Need(KnownVersion(v), UnsupportedVaultVersion);
    :- Need(v.swig == DEFAULT_KEY, PasskeyVerificationFailed);
    :- Need(passkeyOk, PasskeyVerificationFailed);
    Ok(PutVault(s, vk, v.(swig := swig)))
  }

  // ---- Sessions ------------------------------------------------------------------------------

  datatype RegisterArgs = RegisterArgs(
    sessionPubkey: Pubkey,
    maxAmount: u64,
    expiresAt: i64,
    counterparty: Pubkey,
    nonce: u32,
    maxRevolving: u64)

  /** One entry of remaining_accounts. */
  datatype AccountRef = AccountRef(key: Pubkey, writable: bool)

  /** The sibling loop's running values; `sessions` is the transaction's working copy. */
  datatype Scan = Scan(sum: u64, live: u8, swept: u8, sessions: map<Pubkey, SessionAccount>)

  function ScanOne(now: i64, vk: Pubkey, target: Pubkey, prev: Option<Pubkey>, acc: Scan,
                   acct: AccountRef): Result<Scan>
  {
    if prev.Some? && !(acct.key > prev.value) then Err(SessionAccountsNotSorted) else
    :- Need(acct.key != target, SessionAccountMisderived);
    :- Need(acct.key in acc.sessions, SessionAccountForeign);
    var sib := acc.sessions[acct.key];
    :- Need(sib.vault == vk, SessionAccountForeign);
    :- Need(acct.key == SessionAddress(vk, sib.reg.counterparty, sib.bump), SessionAccountMisderived);
    if sib.reg.expiresAt > now then
      var sum :- CheckedAdd64(acc.sum, sib.reg.maxAmount, SessionWouldOvercommitVault);
      var live :- CheckedAdd8(acc.live, 1, SessionWouldOvercommitVault);
      Ok(acc.(sum := sum, live := live))
    else
      :- Need(acct.writable, SessionAccountNotWritable);
      var swept :- CheckedAdd8(acc.swept, 1, SessionWouldOvercommitVault);
      Ok(acc.(swept := swept, sessions := acc.sessions[acct.key := sib.Cleared()]))
  }

  function LastKey(refs: seq<AccountRef>): Option<Pubkey> {
    if refs == [] then None else Some(refs[|refs| - 1].key)
  }

  function ScanSiblings(now: i64, vk: Pubkey, target: Pubkey, sessions: map<Pubkey, SessionAccount>,
                        refs: seq<AccountRef>): Result<Scan>
  {
    if refs == [] then Ok(Scan(0, 0, 0, sessions))
    else
      var before := refs[..|refs| - 1];
      var acc :- ScanSiblings(now, vk, target, sessions, before);
      ScanOne(now, vk, target, LastKey(before), acc, refs[|refs| - 1])
  }

  /** The account init_if_needed hands to the handler: vacant addresses come up zeroed. */
  function SessionOrZero(sessions: map<Pubkey, SessionAccount>, key: Pubkey): SessionAccount {
    if key in sessions then sessions[key] else SessionAccount(0, 0, DEFAULT_KEY, NO_SESSION)
  }

  function FreshRegistration(a: RegisterArgs): SessionRegistration {
    SessionRegistration(a.sessionPubkey, a.maxAmount, a.expiresAt, a.counterparty, a.nonce, 0, 0, a.maxRevolving, 0, 0)
  }

  function RegisterTarget(bumps: Bumps, vk: Pubkey, counterparty: Pubkey): Pubkey {
    SessionAddress(vk, counterparty, bumps(vk, counterparty))
  }

  function RegisterSessionKey(bumps: Bumps, s: State, vk: Pubkey, a: RegisterArgs, refs: seq<AccountRef>,
                              passkeyOk: bool): Result<State>
  {
    var v :- VaultAt(s, vk);
    var target := RegisterTarget(bumps, vk, a.counterparty);
    var existing := SessionOrZero(s.sessions, target);
    var isNew := existing.version == 0;
    :- Need(v.version == VAULT_VERSION_V6, UnsupportedVaultVersion);
    :- Need(a.maxAmount > 0, SessionCapZero);
    :- Need(a.maxRevolving > 0, RevolvingCapacityZero);
    :- Need(a.expiresAt > s.now, SessionExpiryInPast);
    :- Need(v.liveSessions < 255, SessionCountAtMax);
    var scan :- ScanSiblings(s.now, vk, target, s.sessions, refs);
    var total :- CheckedAdd8(scan.live, scan.swept, IncompleteSessionSet);
    var expected :- CheckedSub8(v.liveSessions, if isNew then 0 else 1, IncompleteSessionSet);
    :- Need(total == expected, IncompleteSessionSet);
    var withNew :- CheckedAdd64(scan.sum, a.maxAmount, SessionWouldOvercommitVault);
    var combined :- CheckedAdd64(withNew, v.outstandingLocked, SessionWouldOvercommitVault);
    :- Need(combined <= s.Balance(v.swig), SessionWouldOvercommitVault);
    :- Need(passkeyOk, PasskeyVerificationFailed);
    if scan.swept > v.liveSessions then Err(IncompleteSessionSet) else
    var resynced: u8 := v.liveSessions - scan.swept;
    if isNew && resynced == U8_MAX then Err(SessionCountAtMax) else
    var count: u8 := if isNew then resynced + 1 else resynced;
    var account := if isNew then SessionAccount(SESSION_VERSION_V1, bumps(vk, a.counterparty), vk, FreshRegistration(a))
                   else existing.(reg := FreshRegistration(a));
    Ok(PutVault(s, vk, v.(liveSessions := count)).(sessions := scan.sessions[target := account]))
  }

  function RevokeSessionKey(s: State, vk: Pubkey, sk: Pubkey, counterparty: Pubkey, passkeyOk: bool): Result<State> {
    var v :- VaultAt(s, vk);
    var session :- SessionAt(s, vk, sk, counterparty);
    :- Need(v.version == VAULT_VERSION_V6, UnsupportedVaultVersion);
    :- Need(session.version != 0, NoActiveSession);
    :- Need(passkeyOk, PasskeyVerificationFailed);
    var count :- CheckedSub8(v.liveSessions, 1, IncompleteSessionSet);
    Ok(PutVault(s, vk, v.(liveSessions := count)).(sessions := s.sessions[sk := session.Cleared()]))
  }

  function CloseSession(s: State, vk: Pubkey, sk: Pubkey, counterparty: Pubkey, authority: Pubkey): Result<State> {
    var v :- VaultAt(s, vk);
    :- Need(v.dexterAuthority == authority, PasskeyVerificationFailed);
    var session :- SessionAt(s, vk, sk, counterparty);
    :- Need(v.version == VAULT_VERSION_V6, UnsupportedVaultVersion);
    :- Need(session.version == 0, SessionStillLive);
    Ok(s.(sessions := s.sessions - {sk}))
  }

  // ---- From V5 to V6 -------------------------------------------------------------------------

  /** The plain hop: an expired inline session is dropped, a live one refused. */
  function MigrateV5ToV6(s: State, vk: Pubkey, authority: Pubkey): Result<State> {
    var v :- VaultAt(s, vk);
    :- Need(v.version == VAULT_VERSION_V5, UnsupportedVaultVersion);
    :- Need(v.dexterAuthority == authority, PasskeyVerificationFailed);
    :- Need(v.activeSession.Some? ==> v.activeSession.value.expiresAt <= s.now, SessionAlreadyActive);
    Ok(PutVault(s, vk, v.(version := VAULT_VERSION_V6, liveSessions := 0, activeSession := None)))
  }

  /** The live inline session moves, as it is, to a session account that must not exist yet. */
  function MigrateV5ToV6WithSession(bumps: Bumps, s: State, vk: Pubkey, counterparty: Pubkey,
                                    authority: Pubkey): Result<State>
  {
    var v :- VaultAt(s, vk);
    var target := RegisterTarget(bumps, vk, counterparty);
    :- Need(target !in s.sessions, AccountInUse);
    :- Need(v.version == VAULT_VERSION_V5, UnsupportedVaultVersion);
    :- Need(v.dexterAuthority == authority, PasskeyVerificationFailed);
    var carried :- OkOr(v.activeSession, NoActiveSession);
    :- Need(carried.expiresAt > s.now, SessionExpiryInPast);
    :- Need(carried.counterparty == counterparty, SessionAccountMisderived);
    Ok(PutVault(s, vk, v.(version := VAULT_VERSION_V6, liveSessions := 1, activeSession := None))
       .(sessions := s.sessions[target := SessionAccount(SESSION_VERSION_V1, bumps(vk, counterparty), vk, carried)]))
  }

  // ---- Vouchers ------------------------------------------------------------------------------

  /** `session` is the optional account: Some((address, counterparty)) when the caller passes one. */
  function SettleVoucher(s: State, vk: Pubkey, sk: Option<Pubkey>, counterparty: Pubkey, amount: u64, increment: bool,
                         authority: Pubkey): Result<State>
  {
    var v :- VaultAt(s, vk);
    :- Need(v.dexterAuthority == authority, PasskeyVerificationFailed);
    var session :- if sk.Some? then SessionAt(s, vk, sk.value, counterparty) else Ok(SessionOrZero(map[], DEFAULT_KEY));
    :- Need(v.version == VAULT_VERSION_V6, UnsupportedVaultVersion);
    if increment then
      :- Need(sk.Some?, NoActiveSession);
      :- Need(session.version != 0, NoActiveSession);
      var outstanding :- CheckedAdd64(session.reg.currentOutstanding, amount, RevolvingCapacityExceeded);
      :- Need(outstanding <= session.reg.maxRevolving, RevolvingCapacityExceeded);
      var session' := session.(reg := session.reg.(currentOutstanding := outstanding));
      Ok(PutVault(s, vk, v.(pendingVouchers := SatAdd32(v.pendingVouchers, 1)))
         .(sessions := s.sessions[sk.value := session']))
    else
      :- Need(v.pendingVouchers > 0, NoPendingWithdrawal);
      Ok(PutVault(s, vk, v.(pendingVouchers := v.pendingVouchers - 1)))
  }

  /** The guards both terminal paths share: a live, unexpired session, and a cumulative amount above
      the frontier and within the cap. */
  function VoucherGuards(s: State, session: SessionAccount, cumulative: u64): Check {
    if session.version == 0 then Fail(NoActiveSession)
    else if !(s.now < session.reg.expiresAt) then Fail(SessionExpiryInPast)
    else if !(cumulative > session.reg.Frontier()) then Fail(LockRangeAlreadyClaimed)
    else if !(cumulative <= session.reg.maxAmount) then Fail(InvalidVoucherSignature)
    else Pass
  }

  function SettleTabVoucher(s: State, vk: Pubkey, sk: Pubkey, counterparty: Pubkey, cumulative: u64,
                            authority: Pubkey, voucherOk: bool): Result<State>
  {
    var v :- VaultAt(s, vk);
    :- Need(v.dexterAuthority == authority, PasskeyVerificationFailed);
    var session :- SessionAt(s, vk, sk, counterparty);
    :- Need(v.version == VAULT_VERSION_V6, UnsupportedVaultVersion);
    :- Need(v.swig != DEFAULT_KEY, PasskeyVerificationFailed);
    :- VoucherGuards(s, session, cumulative);
    :- Need(voucherOk, PasskeyVerificationFailed);
    if cumulative < session.reg.spent then Err(InvalidVoucherSignature) else
    var increment: u64 := cumulative - session.reg.spent;
    var reg := session.reg.(spent := cumulative,
                            currentOutstanding := SatSub64(session.reg.currentOutstanding, increment));
    Debit(PutVault(s, vk, v.(pendingVouchers := SatSub32(v.pendingVouchers, 1)))
          .(sessions := s.sessions[sk := session.(reg := reg)]), v.swig, increment)
  }

  // ---- Locked claims -------------------------------------------------------------------------

  datatype LockArgs = LockArgs(
    cumulative: u64,
    sequence: u32,
    voucherHash: nat,
    maturityAt: Option<i64>,
    holderRecoveryAt: Option<i64>,
    counterparty: Pubkey)

  function LockVoucher(s: State, vk: Pubkey, sk: Pubkey, a: LockArgs, holder: Pubkey, authority: Pubkey,
                       voucherOk: bool, hashOk: bool): Result<State>
  {
    var v :- VaultAt(s, vk);
    :- Need(v.dexterAuthority == authority, PasskeyVerificationFailed);
    var session :- SessionAt(s, vk, sk, a.counterparty);
    var ck := ClaimAddress(vk, a.voucherHash);
    :- Need(ck !in s.claims, AccountInUse);
    :- Need(v.version == VAULT_VERSION_V6, UnsupportedVaultVersion);
    :- Need(v.swig != DEFAULT_KEY, PasskeyVerificationFailed);
    :- Need(a.maturityAt.Some? && a.holderRecoveryAt.Some? ==> a.holderRecoveryAt.value > a.maturityAt.value,
            RecoveryBeforeMaturity);
    :- VoucherGuards(s, session, a.cumulative);
    :- Need(voucherOk, PasskeyVerificationFailed);
    :- Need(hashOk, InvalidVoucherSignature);
    if a.cumulative <= session.reg.crystallized then Err(LockRangeAlreadyClaimed) else
    var delta: u64 := a.cumulative - session.reg.crystallized;
    var outstanding :- CheckedAdd64(v.outstandingLocked, delta, LockWouldOvercommitVault);
    :- Need(outstanding <= s.Balance(v.swig), LockWouldOvercommitVault);
    var reg := session.reg.(currentOutstanding := SatSub64(session.reg.currentOutstanding, delta),
                            crystallized := SatAdd64(session.reg.crystallized, delta),
                            lastLockedSequence := a.sequence);
    var v' := v.(outstandingLocked := outstanding, totalCrystallized := SatAdd64(v.totalCrystallized, delta));
    var claim := LockedClaim(vk, session.reg.sessionPubkey, a.voucherHash, delta, s.now, a.maturityAt,
                             a.holderRecoveryAt, holder, Pending, None, None);
    Ok(PutVault(s, vk, v').(sessions := s.sessions[sk := session.(reg := reg)], claims := s.claims[ck := claim]))
  }

  function SettleLockedVoucher(s: State, vk: Pubkey, ck: Pubkey, holder: Pubkey, authority: Pubkey): Result<State> {
    var claim :- ClaimAt(s, ck);
    var v :- VaultAt(s, vk);
    :- Need(claim.status == Pending, LockRangeAlreadyClaimed);
    :- Need(claim.vault == vk, PasskeyVerificationFailed);
    :- Need(claim.currentHolder == holder, PasskeyVerificationFailed);
    :- Need(v.dexterAuthority == authority, PasskeyVerificationFailed);
    :- Need(claim.maturityAt.Some? ==> s.now >= claim.maturityAt.value, CoolingOffNotElapsed);
    var v' := v.(outstandingLocked := SatSub64(v.outstandingLocked, claim.amount),
                 totalSettled := SatAdd64(v.totalSettled, claim.amount));
    Debit(PutVault(s, vk, v').(claims := s.claims[ck := claim.(status := Settled, settledAt := Some(s.now))]),
          v.swig, claim.amount)
  }

  function RecoverAbandonedLock(s: State, vk: Pubkey, ck: Pubkey, passkeyOk: bool): Result<State> {
    var claim :- ClaimAt(s, ck);
    var v :- VaultAt(s, vk);
    :- Need(claim.status == Pending, NothingToRelease);
    :- Need(claim.vault == vk, PasskeyVerificationFailed);
    var recoveryAt :- OkOr(claim.holderRecoveryAt, NothingToRelease);
    :- Need(s.now >= recoveryAt, ForceReleaseTooEarly);
    :- Need(passkeyOk, PasskeyVerificationFailed);
    var v' := v.(outstandingLocked := SatSub64(v.outstandingLocked, claim.amount));
    Ok(PutVault(s, vk, v').(claims := s.claims[ck := claim.(status := Abandoned, recoveredAt := Some(s.now))]))
  }

  function TransferLockOwnership(s: State, ck: Pubkey, holder: Pubkey, newHolder: Pubkey): Result<State> {
    var claim :- ClaimAt(s, ck);
    :- Need(claim.status == Pending, LockRangeAlreadyClaimed);
    :- Need(claim.currentHolder == holder, PasskeyVerificationFailed);
    Ok(s.(claims := s.claims[ck := claim.(currentHolder := newHolder)]))
  }

  // ---- Credit --------------------------------------------------------------------------------

  predicate CreditVersion(v: Vault) {
    v.version == VAULT_VERSION_V5 || v.version == VAULT_VERSION_V6
  }

  function SetStandbyReserve(s: State, financier: Pubkey, newReserve: u64, walletSigned: bool): Result<State> {
    if !walletSigned then Err(ConstraintSigner) else
    var b := if financier in s.backers then s.backers[financier] else StandbyBacker(0, DEFAULT_KEY, 0, 0);
    var live :=
      if b.version == 0 then
        b.(version := STANDBY_BACKER_VERSION_V1, financierSwig := financier, aggregatePromised := 0)
      else b;
    :- Need(newReserve >= live.aggregatePromised, ReserveBelowPromised);
    Ok(s.(backers := s.backers[financier := live.(committedReserve := newReserve)]))
  }

  function OpenStandby(s: State, vk: Pubkey, financier: Pubkey, cap: u64, passkeyOk: bool): Result<State> {
    var v :- VaultAt(s, vk);
    var b :- BackerAt(s, financier);
    :- Need(CreditVersion(v), UnsupportedVaultVersion);
    :- Need(cap > 0, StandbyCapZero);
    :- Need(passkeyOk, PasskeyVerificationFailed);
    :- Need(v.standbyBacker.Some? ==> v.standbyBacker.value == financier, StandbyBackerMismatch);
    :- Need(b.financierSwig == financier, NoStandbyBackerLedger);
    :- Need(cap >= v.borrowed, ResizeBelowBorrowed);
    var oldCap := if v.standbyBacker.Some? then v.standbyCap else 0;
    var aggregate :-
      if cap >= oldCap then
        var raised :- CheckedAdd64(b.aggregatePromised, cap - oldCap, StandbyWouldExceedReserve);
        if raised <= b.committedReserve then Ok(raised) else Err(StandbyWouldExceedReserve)
      else
        Ok(SatSub64(b.aggregatePromised, oldCap - cap));
    Ok(PutVault(s, vk, v.(standbyBacker := Some(financier), standbyCap := cap))
       .(backers := s.backers[financier := b.(aggregatePromised := aggregate)]))
  }

  datatype Closer = User(passkeyOk: bool) | Financier(walletSigned: bool)

  function CloseStandby(s: State, vk: Pubkey, financier: Pubkey, closer: Closer): Result<State> {
    var v :- VaultAt(s, vk);
    var b :- BackerAt(s, financier);
    var backer :- OkOr(v.standbyBacker, NoStandbyBacker);
    :- (match closer
        case User(passkeyOk) => Need(passkeyOk, PasskeyVerificationFailed)
        case Financier(walletSigned) =>
          if financier != backer then Fail(StandbyBackerMismatch) else Need(walletSigned, FinancierConsentMissing));
    :- Need(CreditVersion(v), UnsupportedVaultVersion);
    :- Need(v.borrowed == 0, StandbyStillBorrowed);
    :- Need(b.financierSwig == backer, NoStandbyBackerLedger);
    Ok(PutVault(s, vk, v.(standbyBacker := None, standbyCap := 0))
       .(backers := s.backers[financier := b.(aggregatePromised := SatSub64(b.aggregatePromised, v.standbyCap))]))
  }

  function DrawCredit(s: State, vk: Pubkey, financier: Pubkey, amount: u64, window: i64,
                      authority: Pubkey): Result<State>
  {
    var v :- VaultAt(s, vk);
    :- Need(v.dexterAuthority == authority, PasskeyVerificationFailed);
    :- Need(CreditVersion(v), UnsupportedVaultVersion);
    var backer :- OkOr(v.standbyBacker, NoStandbyBacker);
    :- Need(backer == financier, NoStandbyBacker);
    var borrowed :- CheckedAdd64(v.borrowed, amount, CreditWouldExceedStandbyCap);
    :- Need(borrowed <= v.standbyCap, CreditWouldExceedStandbyCap);
    var deadline :-
      if v.borrowRecoveryAt.Some? then Ok(v.borrowRecoveryAt)
      else if I64_MIN <= s.now + window <= I64_MAX then Ok(Some(s.now + window))
      else Err(CreditWouldExceedStandbyCap);
    Debit(PutVault(s, vk, v.(borrowed := borrowed, borrowRecoveryAt := deadline)), financier, amount)
  }

  function RepayCredit(s: State, vk: Pubkey, amount: u64, authority: Pubkey): Result<State> {
    var v :- VaultAt(s, vk);
    :- Need(v.dexterAuthority == authority, PasskeyVerificationFailed);
    :- Need(CreditVersion(v), UnsupportedVaultVersion);
    :- Need(v.borrowed > 0, NothingBorrowed);
    var repay := Min(amount, v.borrowed);
    var borrowed := SatSub64(v.borrowed, repay);
    Debit(PutVault(s, vk, v.(borrowed := borrowed,
                             borrowRecoveryAt := if borrowed == 0 then None else v.borrowRecoveryAt)), v.swig, repay)
  }

  function SeizeCollateral(s: State, vk: Pubkey, authority: Pubkey): Result<State> {
    var v :- VaultAt(s, vk);
    :- Need(v.dexterAuthority == authority, PasskeyVerificationFailed);
    :- Need(CreditVersion(v), UnsupportedVaultVersion);
    :- Need(v.borrowed > 0, NothingBorrowed);
    var deadline :- OkOr(v.borrowRecoveryAt, NothingBorrowed);
    :- Need(s.now >= deadline, BorrowRecoveryTooEarly);
    Debit(PutVault(s, vk, v.(borrowed := 0, borrowRecoveryAt := None)), v.swig, v.borrowed)
  }

  // ---- Withdrawal ----------------------------------------------------------------------------

  /** |now - signedAt| with the source's fallback to i64::MAX when the subtraction overflows. */
  function Drift(now: i64, signedAt: i64): int {
    var d := now - signedAt;
    if I64_MIN <= d <= I64_MAX then Max(d, -d) else I64_MAX
  }

  function RequestWithdrawal(s: State, vk: Pubkey, amount: u64, destination: Pubkey, signedAt: i64,
                             passkeyOk: bool): Result<State>
  {
    var v :- VaultAt(s, vk);
    :- Need(KnownVersion(v), UnsupportedVaultVersion);
    :- Need(Drift(s.now, signedAt) <= MAX_REQUEST_DRIFT, PasskeyVerificationFailed);
    :- Need(passkeyOk, PasskeyVerificationFailed);
    Ok(PutVault(s, vk, v.(pendingWithdrawal := Some(PendingWithdrawal(amount, destination, signedAt)))))
  }

  function FinalizeWithdrawal(s: State, vk: Pubkey, passkeyOk: bool): Result<State> {
    var v :- VaultAt(s, vk);
    var pending :- OkOr(v.pendingWithdrawal, NoPendingWithdrawal);
    :- Need(v.swig != DEFAULT_KEY, NoPendingWithdrawal);
    :- Need(Max(SatSubI64(s.now, pending.requestedAt), 0) >= v.coolingOffSeconds, CoolingOffNotElapsed);
    :- Need(v.pendingVouchers == 0, PendingVouchersExist);
    :- Need(KnownVersion(v), UnsupportedVaultVersion);
    var after :- CheckedSub64(s.Balance(v.swig), pending.amount, WithdrawalWouldViolateReservation);
    :- Need(after >= v.outstandingLocked, WithdrawalWouldViolateReservation);
    var reserved :- CheckedAdd64(v.outstandingLocked, v.borrowed, WithdrawalWouldViolatePin);
    :- Need(after >= reserved, WithdrawalWouldViolatePin);
    :- Need(passkeyOk, PasskeyVerificationFailed);
    Debit(PutVault(s, vk, v.(pendingWithdrawal := None)), v.swig, pending.amount)
  }

  function ForceRelease(s: State, vk: Pubkey, passkeyOk: bool): Result<State> {
    var v :- VaultAt(s, vk);
    :- Need(KnownVersion(v), UnsupportedVaultVersion);
    :- Need(v.pendingVouchers > 0, NothingToRelease);
    var pending :- OkOr(v.pendingWithdrawal, NothingToRelease);
    :- Need(Max(SatSubI64(s.now, pending.requestedAt), 0) >= FORCE_RELEASE_GRACE_SECONDS, ForceReleaseTooEarly);
    :- Need(passkeyOk, PasskeyVerificationFailed);
    Ok(PutVault(s, vk, v.(pendingVouchers := v.pendingVouchers - 1)))
  }

  // ---- Runs ----------------------------------------------------------------------------------

  datatype EnvCall =
    | Ticks(seconds: nat)
    | Deposits(wallet: Pubkey, amount: u64)
    | Initializes(vk: Pubkey, passkeyPrefix: u8, coolingOff: u32, authority: Pubkey)
    | SetsSwig(vk: Pubkey, swig: Pubkey, passkeyOk: bool)

  datatype SessionCall =
    | Registers(vk: Pubkey, args: RegisterArgs, refs: seq<AccountRef>, passkeyOk: bool)
    | Revokes(vk: Pubkey, sk: Pubkey, counterparty: Pubkey, passkeyOk: bool)
    | Closes(vk: Pubkey, sk: Pubkey, counterparty: Pubkey, authority: Pubkey)

  datatype UpgradeCall =
    | Migrates(vk: Pubkey, authority: Pubkey)
    | MigratesWithSession(vk: Pubkey, counterparty: Pubkey, authority: Pubkey)

  datatype TabCall =
    | SettlesVoucher(vk: Pubkey, osk: Option<Pubkey>, counterparty: Pubkey, amount: u64, increment: bool,
                     authority: Pubkey)
    | SettlesTab(vk: Pubkey, sk: Pubkey, counterparty: Pubkey, cumulative: u64, authority: Pubkey, voucherOk: bool)
    | Locks(vk: Pubkey, sk: Pubkey, args: LockArgs, holder: Pubkey, authority: Pubkey, voucherOk: bool, hashOk: bool)

  datatype ClaimCall =
    | SettlesLocked(vk: Pubkey, ck: Pubkey, holder: Pubkey, authority: Pubkey)
    | Recovers(vk: Pubkey, ck: Pubkey, passkeyOk: bool)
    | Transfers(ck: Pubkey, holder: Pubkey, newHolder: Pubkey)

  datatype CreditCall =
    | SetsReserve(financier: Pubkey, newReserve: u64, walletSigned: bool)
    | OpensStandby(vk: Pubkey, financier: Pubkey, cap: u64, passkeyOk: bool)
    | ClosesStandby(vk: Pubkey, financier: Pubkey, closer: Closer)
    | Draws(vk: Pubkey, financier: Pubkey, amount: u64, window: i64, authority: Pubkey)
    | Repays(vk: Pubkey, amount: u64, authority: Pubkey)
    | Seizes(vk: Pubkey, authority: Pubkey)

  datatype ExitCall =
    | Requests(vk: Pubkey, amount: u64, destination: Pubkey, signedAt: i64, passkeyOk: bool)
    | Finalizes(vk: Pubkey, passkeyOk: bool)
    | ForceReleases(vk: Pubkey, passkeyOk: bool)

  datatype Call =
    | Env(env: EnvCall)
    | Session(session: SessionCall)
    | Upgrade(upgrade: UpgradeCall)
    | Tab(tab: TabCall)
    | Claim(claim: ClaimCall)
    | Credit(credit: CreditCall)
    | Exit(exit: ExitCall)

  function EnvStep(s: State, c: EnvCall): Result<State> {
    match c
    case Ticks(seconds) => Tick(s, seconds)
    case Deposits(wallet, amount) => Deposit(s, wallet, amount)
    case Initializes(vk, prefix, coolingOff, authority) => InitializeVault(s, vk, prefix, coolingOff, authority)
    case SetsSwig(vk, swig, ok) => SetSwig(s, vk, swig, ok)
  }

  function SessionStep(bumps: Bumps, s: State, c: SessionCall): Result<State> {
    match c
    case Registers(vk, args, refs, ok) => RegisterSessionKey(bumps, s, vk, args, refs, ok)
    case Revokes(vk, sk, cp, ok) => RevokeSessionKey(s, vk, sk, cp, ok)
    case Closes(vk, sk, cp, authority) => CloseSession(s, vk, sk, cp, authority)
  }

  function UpgradeStep(bumps: Bumps, s: State, c: UpgradeCall): Result<State> {
    match c
    case Migrates(vk, authority) => MigrateV5ToV6(s, vk, authority)
    case MigratesWithSession(vk, cp, authority) => MigrateV5ToV6WithSession(bumps, s, vk, cp, authority)
  }

  function TabStep(s: State, c: TabCall): Result<State> {
    match c
    case SettlesVoucher(vk, osk, cp, amount, increment, authority) =>
      SettleVoucher(s, vk, osk, cp, amount, increment, authority)
    case SettlesTab(vk, sk, cp, cumulative, authority, ok) => SettleTabVoucher(s, vk, sk, cp, cumulative, authority, ok)
    case Locks(vk, sk, args, holder, authority, ok, hashOk) =>
      LockVoucher(s, vk, sk, args, holder, authority, ok, hashOk)
  }

  function ClaimStep(s: State, c: ClaimCall): Result<State> {
    match c
    case SettlesLocked(vk, ck, holder, authority) => SettleLockedVoucher(s, vk, ck, holder, authority)
    case Recovers(vk, ck, ok) => RecoverAbandonedLock(s, vk, ck, ok)
    case Transfers(ck, holder, newHolder) => TransferLockOwnership(s, ck, holder, newHolder)
  }

  function CreditStep(s: State, c: CreditCall): Result<State> {
    match c
    case SetsReserve(financier, reserve, ok) => SetStandbyReserve(s, financier, reserve, ok)
    case OpensStandby(vk, financier, cap, ok) => OpenStandby(s, vk, financier, cap, ok)
    case ClosesStandby(vk, financier, closer) => CloseStandby(s, vk, financier, closer)
    case Draws(vk, financier, amount, window, authority) => DrawCredit(s, vk, financier, amount, window, authority)
    case Repays(vk, amount, authority) => RepayCredit(s, vk, amount, authority)
    case Seizes(vk, authority) => SeizeCollateral(s, vk, authority)
  }

  function ExitStep(s: State, c: ExitCall): Result<State> {
    match c
    case Requests(vk, amount, destination, signedAt, ok) => RequestWithdrawal(s, vk, amount, destination, signedAt, ok)
    case Finalizes(vk, ok) => FinalizeWithdrawal(s, vk, ok)
    case ForceReleases(vk, ok) => ForceRelease(s, vk, ok)
  }

  function Step(bumps: Bumps, s: State, c: Call): Result<State> {
    match c
    case Env(e) => EnvStep(s, e)
    case Session(e) => SessionStep(bumps, s, e)
    case Upgrade(e) => UpgradeStep(bumps, s, e)
    case Tab(e) => TabStep(s, e)
    case Claim(e) => ClaimStep(s, e)
    case Credit(e) => CreditStep(s, e)
    case Exit(e) => ExitStep(s, e)
  }

  /** Transactions are atomic: one that ends in an error leaves every account as it was. */
  function Exec(bumps: Bumps, s: State, c: Call): State {
    match Step(bumps, s, c)
    case Ok(s') => s'
    case Err(_) => s
  }

  function Run(bumps: Bumps, s: State, calls: seq<Call>): State {
    if calls == [] then s else Exec(bumps, Run(bumps, s, calls[..|calls| - 1]), calls[|calls| - 1])
  }

  lemma RunExtends(bumps: Bumps, s: State, calls: seq<Call>, c: Call)
    ensures Run(bumps, s, calls + [c]) == Exec(bumps, Run(bumps, s, calls), c)
  {
    assert (calls + [c])[..|calls|] == calls;
  }

  lemma RunSnoc(bumps: Bumps, s: State, calls: seq<Call>, i: nat)
    requires i < |calls|
    ensures Run(bumps, s, calls[..i + 1]) == Exec(bumps, Run(bumps, s, calls[..i]), calls[i])
  {
    assert calls[..i + 1][..i] == calls[..i];
  }
}
