/** What every instruction promises, read off the accounts before and after: which error refuses it, and otherwise
    what each field holds afterwards and what stays as it was. Nothing here refers to how an instruction computes. */
module Specification {
  import opened Prelude
  import opened State
  import opened Protocol
  import opened SiblingScan

  // ---- Frames --------------------------------------------------------------------------------

  /** The vault is there before and after, and every other vault is as it was. */
  ghost predicate OnlyVault(s: State, s': State, vk: Pubkey) {
    vk in s.vaults && vk in s'.vaults && s'.vaults == s.vaults[vk := s'.vaults[vk]]
  }

  ghost predicate OnlySession(s: State, s': State, sk: Pubkey) {
    sk in s.sessions && sk in s'.sessions && s'.sessions == s.sessions[sk := s'.sessions[sk]]
  }

  /** One wallet has paid the amount, every other holds what it held. */
  ghost predicate Pays(s: State, s': State, wallet: Pubkey, amount: int) {
    forall w :: s'.Balance(w) == s.Balance(w) - (if w == wallet then amount else 0)
  }

  predicate AtSeeds(s: State, vk: Pubkey, sk: Pubkey, counterparty: Pubkey)
    requires sk in s.sessions
  {
    sk == SessionAddress(vk, counterparty, s.sessions[sk].bump)
  }

  /** Nothing of the scope is left; the account keeps its bump and its vault. */
  predicate Blanked(was: SessionAccount, got: SessionAccount) {
    && got.version == 0 && got.bump == was.bump && got.vault == was.vault
    && got.reg.sessionPubkey == DEFAULT_KEY && got.reg.counterparty == DEFAULT_KEY
    && got.reg.maxAmount == 0 && got.reg.expiresAt == 0 && got.reg.nonce == 0 && got.reg.maxRevolving == 0
    && ZeroOdometers(got.reg)
  }

  predicate ZeroOdometers(r: SessionRegistration) {
    r.spent == 0 && r.currentOutstanding == 0 && r.crystallized == 0 && r.lastLockedSequence == 0
  }

  /** The registration the arguments ask for, with nothing used of it yet. */
  predicate Scoped(r: SessionRegistration, a: RegisterArgs) {
    && r.sessionPubkey == a.sessionPubkey && r.counterparty == a.counterparty
    && r.maxAmount == a.maxAmount && r.expiresAt == a.expiresAt && r.nonce == a.nonce
    && r.maxRevolving == a.maxRevolving
    && ZeroOdometers(r)
  }

  // ---- The environment -----------------------------------------------------------------------

  function EnvRefusal(s: State, c: EnvCall): Option<VaultError> {
    match c
    case Ticks(seconds) => if s.now + seconds > I64_MAX then Some(ArithmeticOverflow) else None
    case Deposits(wallet, amount) => if s.Balance(wallet) + amount > U64_MAX then Some(ArithmeticOverflow) else None
    case Initializes(vk, prefix, _, _) =>
      if vk in s.vaults then Some(AccountInUse)
      else if prefix !in {2, 3} then Some(PasskeyVerificationFailed)
      else None
    case SetsSwig(vk, _, passkeyOk) =>
      if vk !in s.vaults then Some(AccountMissing)
      else if s.vaults[vk].version !in {2, 3, 4, 5, 6} then Some(UnsupportedVaultVersion)
      else if s.vaults[vk].swig != DEFAULT_KEY || !passkeyOk then Some(PasskeyVerificationFailed)
      else None
  }

  ghost predicate EnvLeaves(s: State, s': State, c: EnvCall) {
    match c
    case Ticks(seconds) => s' == s.(now := s'.now) && s'.now == s.now + seconds
    case Deposits(wallet, amount) => s' == s.(balances := s'.balances) && Pays(s, s', wallet, -(amount as int))
    case Initializes(vk, _, coolingOff, authority) =>
      && s' == s.(vaults := s'.vaults) && vk in s'.vaults && s'.vaults == s.vaults[vk := s'.vaults[vk]]
      && NewVault(s'.vaults[vk], coolingOff, authority)
    case SetsSwig(vk, swig, _) =>
      && s' == s.(vaults := s'.vaults) && OnlyVault(s, s', vk)
      && s'.vaults[vk] == s.vaults[vk].(swig := swig)
  }

  /** A V6 vault that has no wallet yet and holds, owes and awaits nothing. */
  predicate NewVault(v: Vault, coolingOff: u32, authority: Pubkey) {
    && v.version == 6 && v.swig == DEFAULT_KEY && v.coolingOffSeconds == coolingOff && v.dexterAuthority == authority
    && v.pendingVouchers == 0 && v.pendingWithdrawal.None? && v.liveSessions == 0 && v.activeSession.None?
    && v.outstandingLocked == 0 && v.totalCrystallized == 0 && v.totalSettled == 0
    && v.borrowed == 0 && v.standbyBacker.None? && v.standbyCap == 0 && v.borrowRecoveryAt.None?
  }

  // ---- Sessions ------------------------------------------------------------------------------

  /** What is wrong with entry `i` of the list, given that the entries before it are in order. */
  ghost function EntryRefusal(s: State, vk: Pubkey, target: Pubkey, refs: seq<AccountRef>, i: nat): Option<VaultError>
    requires i < |refs|
  {
    var key, earlier := refs[i].key, Keys(refs[..i]);
    if i > 0 && key <= refs[i - 1].key then Some(SessionAccountsNotSorted)
    else if key == target then Some(SessionAccountMisderived)
    else if key !in s.sessions || s.sessions[key].vault != vk then Some(SessionAccountForeign)
    else if !AtSeeds(s, vk, key, s.sessions[key].reg.counterparty) then Some(SessionAccountMisderived)
    else if s.sessions[key].reg.expiresAt > s.now then
      if CapSum(s.now, s.sessions, earlier) + s.sessions[key].reg.maxAmount > U64_MAX
         || |UnexpiredAmong(s.now, s.sessions, earlier)| == 255 then Some(SessionWouldOvercommitVault)
      else None
    else if !refs[i].writable then Some(SessionAccountNotWritable)
    else if |earlier - UnexpiredAmong(s.now, s.sessions, earlier)| == 255 then Some(SessionWouldOvercommitVault)
    else None
  }

  /** The first entry that is not in order decides. */
  ghost function ListRefusal(s: State, vk: Pubkey, target: Pubkey, refs: seq<AccountRef>): Option<VaultError> {
    if refs == [] then None
    else
      var n := |refs| - 1;
      var before := ListRefusal(s, vk, target, refs[..n]);
      if before.Some? then before else EntryRefusal(s, vk, target, refs, n)
  }

  /** The target has no live session yet. */
  predicate FirstTouch(s: State, target: Pubkey) {
    target in s.sessions ==> s.sessions[target].version == 0
  }

  ghost function RegisterRefusal(bumps: Bumps, s: State, c: SessionCall): Option<VaultError>
    requires c.Registers?
  {
    if c.vk !in s.vaults then Some(AccountMissing)
    else
      var v, target := s.vaults[c.vk], SessionAddress(c.vk, c.args.counterparty, bumps(c.vk, c.args.counterparty));
      if v.version != 6 then Some(UnsupportedVaultVersion)
      else if c.args.maxAmount == 0 then Some(SessionCapZero)
      else if c.args.maxRevolving == 0 then Some(RevolvingCapacityZero)
      else if c.args.expiresAt <= s.now then Some(SessionExpiryInPast)
      else if v.liveSessions == 255 then Some(SessionCountAtMax)
      else if ListRefusal(s, c.vk, target, c.refs).Some? then ListRefusal(s, c.vk, target, c.refs)
      else if |c.refs| != v.liveSessions - (if FirstTouch(s, target) then 0 else 1) then Some(IncompleteSessionSet)
      else if CapSum(s.now, s.sessions, Keys(c.refs)) + c.args.maxAmount + v.outstandingLocked > s.Balance(v.swig)
      then Some(SessionWouldOvercommitVault)
      else if !c.passkeyOk then Some(PasskeyVerificationFailed)
      else None
  }

  /** The target holds the registration asked for; of the entries passed the expired ones are blank; no other session
      account moves, and of the vault only the count. */
  ghost predicate RegisterEffect(bumps: Bumps, s: State, s': State, c: SessionCall)
    requires c.Registers?
  {
    var bump := bumps(c.vk, c.args.counterparty);
    var target := SessionAddress(c.vk, c.args.counterparty, bump);
    var swept := Keys(c.refs) - UnexpiredAmong(s.now, s.sessions, Keys(c.refs));
    && s' == s.(vaults := s'.vaults, sessions := s'.sessions)
    && OnlyVault(s, s', c.vk)
    && s'.vaults[c.vk].liveSessions == s.vaults[c.vk].liveSessions - |swept| + (if FirstTouch(s, target) then 1 else 0)
    && s'.vaults[c.vk] == s.vaults[c.vk].(liveSessions := s'.vaults[c.vk].liveSessions)
    && s'.sessions.Keys == s.sessions.Keys + {target}
    && Scoped(s'.sessions[target].reg, c.args)
    && (if FirstTouch(s, target) then
          s'.sessions[target].version == 1 && s'.sessions[target].bump == bump && s'.sessions[target].vault == c.vk
        else
          && s'.sessions[target].version == s.sessions[target].version
          && s'.sessions[target].bump == s.sessions[target].bump
          && s'.sessions[target].vault == s.sessions[target].vault)
    && (forall k :: k in s.sessions && k != target ==>
          if k in swept then Blanked(s.sessions[k], s'.sessions[k]) else s'.sessions[k] == s.sessions[k])
  }

  ghost function SessionRefusal(bumps: Bumps, s: State, c: SessionCall): Option<VaultError> {
    match c
    case Registers(_, _, _, _) => RegisterRefusal(bumps, s, c)
    case Revokes(vk, sk, cp, passkeyOk) =>
      if vk !in s.vaults || sk !in s.sessions then Some(AccountMissing)
      else if !AtSeeds(s, vk, sk, cp) then Some(ConstraintSeeds)
      else if s.vaults[vk].version != 6 then Some(UnsupportedVaultVersion)
      else if s.sessions[sk].version == 0 then Some(NoActiveSession)
      else if !passkeyOk then Some(PasskeyVerificationFailed)
      else if s.vaults[vk].liveSessions == 0 then Some(IncompleteSessionSet)
      else None
    case Closes(vk, sk, cp, authority) =>
      if vk !in s.vaults then Some(AccountMissing)
      else if s.vaults[vk].dexterAuthority != authority then Some(PasskeyVerificationFailed)
      else if sk !in s.sessions then Some(AccountMissing)
      else if !AtSeeds(s, vk, sk, cp) then Some(ConstraintSeeds)
      else if s.vaults[vk].version != 6 then Some(UnsupportedVaultVersion)
      else if s.sessions[sk].version != 0 then Some(SessionStillLive)
      else None
  }

  ghost predicate SessionLeaves(bumps: Bumps, s: State, s': State, c: SessionCall) {
    match c
    case Registers(_, _, _, _) => RegisterEffect(bumps, s, s', c)
    case Revokes(vk, sk, _, _) =>
      && s' == s.(vaults := s'.vaults, sessions := s'.sessions)
      && OnlyVault(s, s', vk) && OnlySession(s, s', sk)
      && s'.vaults[vk].liveSessions == s.vaults[vk].liveSessions - 1
      && s'.vaults[vk] == s.vaults[vk].(liveSessions := s'.vaults[vk].liveSessions)
      && Blanked(s.sessions[sk], s'.sessions[sk])
    case Closes(_, sk, _, _) =>
      s' == s.(sessions := s'.sessions) && sk !in s'.sessions && s'.sessions == s.sessions - {sk}
  }

  // ---- From V5 to V6 -------------------------------------------------------------------------

  function UpgradeRefusal(bumps: Bumps, s: State, c: UpgradeCall): Option<VaultError> {
    if c.vk !in s.vaults then Some(AccountMissing)
    else
      var v := s.vaults[c.vk];
      if c.MigratesWithSession? && SessionAddress(c.vk, c.counterparty, bumps(c.vk, c.counterparty)) in s.sessions
      then Some(AccountInUse)
      else if v.version != 5 then Some(UnsupportedVaultVersion)
      else if v.dexterAuthority != c.authority then Some(PasskeyVerificationFailed)
      else if c.Migrates? then
        if v.activeSession.Some? && v.activeSession.value.expiresAt > s.now then Some(SessionAlreadyActive) else None
      else if v.activeSession.None? then Some(NoActiveSession)
      else if v.activeSession.value.expiresAt <= s.now then Some(SessionExpiryInPast)
      else if v.activeSession.value.counterparty != c.counterparty then Some(SessionAccountMisderived)
      else None
  }

  /** The vault is stamped 6 and its inline session goes: into an account of its own, exactly as it was, or away. */
  ghost predicate UpgradeLeaves(bumps: Bumps, s: State, s': State, c: UpgradeCall) {
    && s' == s.(vaults := s'.vaults, sessions := s'.sessions)
    && OnlyVault(s, s', c.vk)
    && s'.vaults[c.vk] == s.vaults[c.vk].(version := 6, activeSession := None,
                                          liveSessions := if c.MigratesWithSession? then 1 else 0)
    && match c
       case Migrates(_, _) => s'.sessions == s.sessions
       case MigratesWithSession(vk, cp, _) =>
         var target := SessionAddress(vk, cp, bumps(vk, cp));
         && target in s'.sessions && s'.sessions == s.sessions[target := s'.sessions[target]]
         && s'.sessions[target].version == 1 && s'.sessions[target].bump == bumps(vk, cp)
         && s'.sessions[target].vault == vk && Some(s'.sessions[target].reg) == s.vaults[vk].activeSession
  }

  // ---- Vouchers ------------------------------------------------------------------------------

  /** What refuses a cumulative amount along either terminal path. */
  function AmountRefusal(s: State, session: SessionAccount, cumulative: u64): Option<VaultError> {
    if session.version == 0 then Some(NoActiveSession)
    else if s.now >= session.reg.expiresAt then Some(SessionExpiryInPast)
    else if cumulative <= session.reg.spent || cumulative <= session.reg.crystallized then Some(LockRangeAlreadyClaimed)
    else if cumulative > session.reg.maxAmount then Some(InvalidVoucherSignature)
    else None
  }

  function SettleVoucherRefusal(s: State, c: TabCall): Option<VaultError>
    requires c.SettlesVoucher?
  {
    if c.vk !in s.vaults then Some(AccountMissing)
    else if s.vaults[c.vk].dexterAuthority != c.authority then Some(PasskeyVerificationFailed)
    else if c.osk.Some? && c.osk.value !in s.sessions then Some(AccountMissing)
    else if c.osk.Some? && !AtSeeds(s, c.vk, c.osk.value, c.counterparty) then Some(ConstraintSeeds)
    else if s.vaults[c.vk].version != 6 then Some(UnsupportedVaultVersion)
    else if !c.increment then if s.vaults[c.vk].pendingVouchers == 0 then Some(NoPendingWithdrawal) else None
    else if c.osk.None? || s.sessions[c.osk.value].version == 0 then Some(NoActiveSession)
    else
      var r := s.sessions[c.osk.value].reg;
      if r.currentOutstanding + c.amount > r.maxRevolving then Some(RevolvingCapacityExceeded) else None
  }

  function SettleTabRefusal(s: State, c: TabCall): Option<VaultError>
    requires c.SettlesTab?
  {
    if c.vk !in s.vaults then Some(AccountMissing)
    else if s.vaults[c.vk].dexterAuthority != c.authority then Some(PasskeyVerificationFailed)
    else if c.sk !in s.sessions then Some(AccountMissing)
    else if !AtSeeds(s, c.vk, c.sk, c.counterparty) then Some(ConstraintSeeds)
    else if s.vaults[c.vk].version != 6 then Some(UnsupportedVaultVersion)
    else if s.vaults[c.vk].swig == DEFAULT_KEY then Some(PasskeyVerificationFailed)
    else if AmountRefusal(s, s.sessions[c.sk], c.cumulative).Some? then AmountRefusal(s, s.sessions[c.sk], c.cumulative)
    else if !c.voucherOk then Some(PasskeyVerificationFailed)
    else if s.Balance(s.vaults[c.vk].swig) < c.cumulative - s.sessions[c.sk].reg.spent then Some(InsufficientFunds)
    else None
  }

  function LockRefusal(s: State, c: TabCall): Option<VaultError>
    requires c.Locks?
  {
    if c.vk !in s.vaults then Some(AccountMissing)
    else if s.vaults[c.vk].dexterAuthority != c.authority then Some(PasskeyVerificationFailed)
    else if c.sk !in s.sessions then Some(AccountMissing)
    else if !AtSeeds(s, c.vk, c.sk, c.args.counterparty) then Some(ConstraintSeeds)
    else if ClaimAddress(c.vk, c.args.voucherHash) in s.claims then Some(AccountInUse)
    else
      var v, r := s.vaults[c.vk], s.sessions[c.sk].reg;
      if v.version != 6 then Some(UnsupportedVaultVersion)
      else if v.swig == DEFAULT_KEY then Some(PasskeyVerificationFailed)
      else if c.args.maturityAt.Some? && c.args.holderRecoveryAt.Some?
              && c.args.holderRecoveryAt.value <= c.args.maturityAt.value then Some(RecoveryBeforeMaturity)
      else if AmountRefusal(s, s.sessions[c.sk], c.args.cumulative).Some?
      then AmountRefusal(s, s.sessions[c.sk], c.args.cumulative)
      else if !c.voucherOk then Some(PasskeyVerificationFailed)
      else if !c.hashOk then Some(InvalidVoucherSignature)
      else if v.outstandingLocked + c.args.cumulative - r.crystallized > s.Balance(v.swig)
      then Some(LockWouldOvercommitVault)
      else None
  }

  function TabRefusal(s: State, c: TabCall): Option<VaultError> {
    match c
    case SettlesVoucher(_, _, _, _, _, _) => SettleVoucherRefusal(s, c)
    case SettlesTab(_, _, _, _, _, _) => SettleTabRefusal(s, c)
    case Locks(_, _, _, _, _, _, _) => LockRefusal(s, c)
  }

  /** Opening a tab raises the meter by the amount and counts one voucher more, unless the count is full; releasing
      one counts one less and touches no session. */
  ghost predicate SettleVoucherLeaves(s: State, s': State, c: TabCall)
    requires c.SettlesVoucher?
  {
    && s' == s.(vaults := s'.vaults, sessions := s'.sessions)
    && OnlyVault(s, s', c.vk)
    && s'.vaults[c.vk] == s.vaults[c.vk].(pendingVouchers := s'.vaults[c.vk].pendingVouchers)
    && if c.increment then
         && s'.vaults[c.vk].pendingVouchers == Min(s.vaults[c.vk].pendingVouchers + 1, U32_MAX)
         && c.osk.Some? && OnlySession(s, s', c.osk.value)
         && s'.sessions[c.osk.value].reg.currentOutstanding == s.sessions[c.osk.value].reg.currentOutstanding + c.amount
         && SameButMeter(s.sessions[c.osk.value], s'.sessions[c.osk.value])
       else
         s'.vaults[c.vk].pendingVouchers == s.vaults[c.vk].pendingVouchers - 1 && s'.sessions == s.sessions
  }

  predicate SameButMeter(was: SessionAccount, got: SessionAccount) {
    got == was.(reg := was.reg.(currentOutstanding := got.reg.currentOutstanding))
  }

  /** The wallet pays the rise of `spent`, the meter falls by it as far as zero, and one voucher less is pending, if
      any was. */
  ghost predicate SettleTabLeaves(s: State, s': State, c: TabCall)
    requires c.SettlesTab?
  {
    && s' == s.(vaults := s'.vaults, sessions := s'.sessions, balances := s'.balances)
    && OnlyVault(s, s', c.vk) && OnlySession(s, s', c.sk)
    && var was, got := s.sessions[c.sk].reg, s'.sessions[c.sk].reg;
    && got.spent == c.cumulative
    && got.currentOutstanding == Max(0, was.currentOutstanding - (c.cumulative - was.spent))
    && s'.sessions[c.sk]
         == s.sessions[c.sk].(reg := was.(spent := got.spent, currentOutstanding := got.currentOutstanding))
    && s'.vaults[c.vk].pendingVouchers == Max(0, s.vaults[c.vk].pendingVouchers - 1)
    && s'.vaults[c.vk] == s.vaults[c.vk].(pendingVouchers := s'.vaults[c.vk].pendingVouchers)
    && Pays(s, s', s.vaults[c.vk].swig, c.cumulative - was.spent)
  }

  /** The claim is new, pending and of the rise over crystallized_cumulative, which moves up to the voucher; the vault
      reserves the rise and counts it; the meter falls by it as far as zero; no money moves. */
  ghost predicate LockLeaves(s: State, s': State, c: TabCall)
    requires c.Locks?
  {
    var ck := ClaimAddress(c.vk, c.args.voucherHash);
    && s' == s.(vaults := s'.vaults, sessions := s'.sessions, claims := s'.claims)
    && OnlyVault(s, s', c.vk) && OnlySession(s, s', c.sk)
    && var was, got := s.sessions[c.sk].reg, s'.sessions[c.sk].reg;
    var rise := c.args.cumulative - was.crystallized;
    && got.crystallized == c.args.cumulative && got.lastLockedSequence == c.args.sequence
    && got.currentOutstanding == Max(0, was.currentOutstanding - rise)
    && s'.sessions[c.sk] == s.sessions[c.sk].(reg := was.(crystallized := got.crystallized,
         lastLockedSequence := got.lastLockedSequence, currentOutstanding := got.currentOutstanding))
    && s'.vaults[c.vk].outstandingLocked == s.vaults[c.vk].outstandingLocked + rise
    && s'.vaults[c.vk].totalCrystallized == Min(s.vaults[c.vk].totalCrystallized + rise, U64_MAX)
    && s'.vaults[c.vk] == s.vaults[c.vk].(outstandingLocked := s'.vaults[c.vk].outstandingLocked,
         totalCrystallized := s'.vaults[c.vk].totalCrystallized)
    && ck in s'.claims && s'.claims == s.claims[ck := s'.claims[ck]]
    && s'.claims[ck].amount == rise
    && NewClaim(s'.claims[ck], s.now, was.sessionPubkey, c)
  }

  predicate NewClaim(claim: LockedClaim, now: i64, sessionPubkey: Pubkey, c: TabCall)
    requires c.Locks?
  {
    && claim.vault == c.vk && claim.sessionPubkeyAtLock == sessionPubkey && claim.voucherHash == c.args.voucherHash
    && claim.createdAt == now && claim.maturityAt == c.args.maturityAt
    && claim.holderRecoveryAt == c.args.holderRecoveryAt && claim.currentHolder == c.holder
    && claim.status == Pending && claim.settledAt.None? && claim.recoveredAt.None?
  }

  ghost predicate TabLeaves(s: State, s': State, c: TabCall) {
    match c
    case SettlesVoucher(_, _, _, _, _, _) => SettleVoucherLeaves(s, s', c)
    case SettlesTab(_, _, _, _, _, _) => SettleTabLeaves(s, s', c)
    case Locks(_, _, _, _, _, _, _) => LockLeaves(s, s', c)
  }

  // ---- Locked claims -------------------------------------------------------------------------

  function ClaimRefusal(s: State, c: ClaimCall): Option<VaultError> {
    if c.ck !in s.claims then Some(AccountMissing)
    else
      var claim := s.claims[c.ck];
      match c
      case SettlesLocked(vk, _, holder, authority) =>
        if vk !in s.vaults then Some(AccountMissing)
        else if claim.status != Pending then Some(LockRangeAlreadyClaimed)
        else if claim.vault != vk || claim.currentHolder != holder || s.vaults[vk].dexterAuthority != authority
        then Some(PasskeyVerificationFailed)
        else if claim.maturityAt.Some? && s.now < claim.maturityAt.value then Some(CoolingOffNotElapsed)
        else if s.Balance(s.vaults[vk].swig) < claim.amount then Some(InsufficientFunds)
        else None
      case Recovers(vk, _, passkeyOk) =>
        if vk !in s.vaults then Some(AccountMissing)
        else if claim.status != Pending then Some(NothingToRelease)
        else if claim.vault != vk then Some(PasskeyVerificationFailed)
        else if claim.holderRecoveryAt.None? then Some(NothingToRelease)
        else if s.now < claim.holderRecoveryAt.value then Some(ForceReleaseTooEarly)
        else if !passkeyOk then Some(PasskeyVerificationFailed)
        else None
      case Transfers(_, holder, _) =>
        if claim.status != Pending then Some(LockRangeAlreadyClaimed)
        else if claim.currentHolder != holder then Some(PasskeyVerificationFailed)
        else None
  }

  /** A claim that ends leaves the reservation, which falls by its amount as far as zero. */
  ghost predicate Unreserves(s: State, s': State, vk: Pubkey, amount: u64) {
    && OnlyVault(s, s', vk)
    && s'.vaults[vk].outstandingLocked == Max(0, s.vaults[vk].outstandingLocked - amount)
  }

  ghost predicate ClaimLeaves(s: State, s': State, c: ClaimCall) {
    && c.ck in s.claims && c.ck in s'.claims && s'.claims == s.claims[c.ck := s'.claims[c.ck]]
    && var claim := s.claims[c.ck];
    match c
    case SettlesLocked(vk, ck, _, _) =>
      && s' == s.(vaults := s'.vaults, claims := s'.claims, balances := s'.balances)
      && Unreserves(s, s', vk, claim.amount)
      && s'.vaults[vk].totalSettled == Min(s.vaults[vk].totalSettled + claim.amount, U64_MAX)
      && s'.vaults[vk] == s.vaults[vk].(outstandingLocked := s'.vaults[vk].outstandingLocked,
           totalSettled := s'.vaults[vk].totalSettled)
      && s'.claims[ck] == claim.(status := Settled, settledAt := Some(s.now))
      && Pays(s, s', s.vaults[vk].swig, claim.amount)
    case Recovers(vk, ck, _) =>
      && s' == s.(vaults := s'.vaults, claims := s'.claims)
      && Unreserves(s, s', vk, claim.amount)
      && s'.vaults[vk] == s.vaults[vk].(outstandingLocked := s'.vaults[vk].outstandingLocked)
      && s'.claims[ck] == claim.(status := Abandoned, recoveredAt := Some(s.now))
    case Transfers(ck, _, newHolder) =>
      s' == s.(claims := s'.claims) && s'.claims[ck] == claim.(currentHolder := newHolder)
  }

  // ---- Credit --------------------------------------------------------------------------------

  /** The cap a vault holds, and with it what its financier has promised it. */
  function Promised(v: Vault): u64 { if v.standbyBacker.Some? then v.standbyCap else 0 }

  function StandbyRefusal(s: State, c: CreditCall): Option<VaultError>
    requires c.OpensStandby? || c.ClosesStandby?
  {
    if c.vk !in s.vaults || c.financier !in s.backers then Some(AccountMissing)
    else
      var v, b := s.vaults[c.vk], s.backers[c.financier];
      match c
      case OpensStandby(_, f, cap, passkeyOk) =>
        if v.version !in {5, 6} then Some(UnsupportedVaultVersion)
        else if cap == 0 then Some(StandbyCapZero)
        else if !passkeyOk then Some(PasskeyVerificationFailed)
        else if v.standbyBacker.Some? && v.standbyBacker.value != f then Some(StandbyBackerMismatch)
        else if b.financierSwig != f then Some(NoStandbyBackerLedger)
        else if cap < v.borrowed then Some(ResizeBelowBorrowed)
        else if cap >= Promised(v) && b.aggregatePromised + cap - Promised(v) > b.committedReserve
        then Some(StandbyWouldExceedReserve)
        else None
      case ClosesStandby(_, f, closer) =>
        if v.standbyBacker.None? then Some(NoStandbyBacker)
        else if closer.User? && !closer.passkeyOk then Some(PasskeyVerificationFailed)
        else if closer.Financier? && f != v.standbyBacker.value then Some(StandbyBackerMismatch)
        else if closer.Financier? && !closer.walletSigned then Some(FinancierConsentMissing)
        else if v.version !in {5, 6} then Some(UnsupportedVaultVersion)
        else if v.borrowed > 0 then Some(StandbyStillBorrowed)
        else if b.financierSwig != v.standbyBacker.value then Some(NoStandbyBackerLedger)
        else None
  }

  function LoanRefusal(s: State, c: CreditCall): Option<VaultError>
    requires c.Draws? || c.Repays? || c.Seizes?
  {
    if c.vk !in s.vaults then Some(AccountMissing)
    else
      var v := s.vaults[c.vk];
      if v.dexterAuthority != c.authority then Some(PasskeyVerificationFailed)
      else if v.version !in {5, 6} then Some(UnsupportedVaultVersion)
      else match c
        case Draws(_, f, amount, window, _) =>
          if v.standbyBacker != Some(f) then Some(NoStandbyBacker)
          else if v.borrowed + amount > v.standbyCap then Some(CreditWouldExceedStandbyCap)
          else if v.borrowRecoveryAt.None? && !(I64_MIN <= s.now + window <= I64_MAX)
          then Some(CreditWouldExceedStandbyCap)
          else if s.Balance(f) < amount then Some(InsufficientFunds)
          else None
        case Repays(_, amount, _) =>
          if v.borrowed == 0 then Some(NothingBorrowed)
          else if s.Balance(v.swig) < Min(amount, v.borrowed) then Some(InsufficientFunds)
          else None
        case Seizes(_, _) =>
          if v.borrowed == 0 || v.borrowRecoveryAt.None? then Some(NothingBorrowed)
          else if s.now < v.borrowRecoveryAt.value then Some(BorrowRecoveryTooEarly)
          else if s.Balance(v.swig) < v.borrowed then Some(InsufficientFunds)
          else None
  }

  function CreditRefusal(s: State, c: CreditCall): Option<VaultError> {
    match c
    case SetsReserve(f, newReserve, walletSigned) =>
      if !walletSigned then Some(ConstraintSigner)
      else if f in s.backers && s.backers[f].version != 0 && newReserve < s.backers[f].aggregatePromised
      then Some(ReserveBelowPromised)
      else None
    case OpensStandby(_, _, _, _) => StandbyRefusal(s, c)
    case ClosesStandby(_, _, _) => StandbyRefusal(s, c)
    case _ => LoanRefusal(s, c)
  }

  ghost predicate OnlyBacker(s: State, s': State, f: Pubkey) {
    f in s'.backers && s'.backers == s.backers[f := s'.backers[f]]
  }

  /** The ledger of financier `f` moves from the old promise to the new, never below zero, and nothing else of it. */
  ghost predicate Repromises(s: State, s': State, f: Pubkey, was: u64, got: u64) {
    && f in s.backers && OnlyBacker(s, s', f)
    && s'.backers[f].aggregatePromised == Max(0, s.backers[f].aggregatePromised + got - was)
    && s'.backers[f] == s.backers[f].(aggregatePromised := s'.backers[f].aggregatePromised)
  }

  ghost predicate CreditLeaves(s: State, s': State, c: CreditCall) {
    match c
    case SetsReserve(f, newReserve, _) =>
      && s' == s.(backers := s'.backers) && OnlyBacker(s, s', f)
      && s'.backers[f].committedReserve == newReserve
      && (if f in s.backers && s.backers[f].version != 0 then
            s'.backers[f] == s.backers[f].(committedReserve := newReserve)
          else s'.backers[f].version == 1 && s'.backers[f].financierSwig == f && s'.backers[f].aggregatePromised == 0)
    case OpensStandby(vk, f, cap, _) =>
      && s' == s.(vaults := s'.vaults, backers := s'.backers)
      && OnlyVault(s, s', vk) && s'.vaults[vk] == s.vaults[vk].(standbyBacker := Some(f), standbyCap := cap)
      && Repromises(s, s', f, Promised(s.vaults[vk]), cap)
    case ClosesStandby(vk, f, _) =>
      && s' == s.(vaults := s'.vaults, backers := s'.backers)
      && OnlyVault(s, s', vk) && s'.vaults[vk] == s.vaults[vk].(standbyBacker := None, standbyCap := 0)
      && Repromises(s, s', f, s.vaults[vk].standbyCap, 0)
    case Draws(vk, f, amount, window, _) =>
      && s' == s.(vaults := s'.vaults, balances := s'.balances)
      && OnlyVault(s, s', vk)
      && var was, got := s.vaults[vk], s'.vaults[vk];
      && got.borrowed == was.borrowed + amount
      && (if was.borrowRecoveryAt.Some? then got.borrowRecoveryAt == was.borrowRecoveryAt
          else got.borrowRecoveryAt.Some? && got.borrowRecoveryAt.value == s.now + window)
      && got == was.(borrowed := got.borrowed, borrowRecoveryAt := got.borrowRecoveryAt)
      && Pays(s, s', f, amount)
    case Repays(vk, amount, _) =>
      && s' == s.(vaults := s'.vaults, balances := s'.balances)
      && OnlyVault(s, s', vk)
      && var was, got := s.vaults[vk], s'.vaults[vk];
      && got.borrowed == Max(0, was.borrowed - amount)
      && got.borrowRecoveryAt == (if got.borrowed == 0 then None else was.borrowRecoveryAt)
      && got == was.(borrowed := got.borrowed, borrowRecoveryAt := got.borrowRecoveryAt)
      && Pays(s, s', was.swig, was.borrowed - got.borrowed)
    case Seizes(vk, _) =>
      && s' == s.(vaults := s'.vaults, balances := s'.balances)
      && OnlyVault(s, s', vk) && s'.vaults[vk] == s.vaults[vk].(borrowed := 0, borrowRecoveryAt := None)
      && Pays(s, s', s.vaults[vk].swig, s.vaults[vk].borrowed)
  }

  // ---- Withdrawal ----------------------------------------------------------------------------

  /** The timestamp is at least so long ago; where there is nothing to wait for it may lie ahead. */
  predicate Waited(s: State, requestedAt: i64, seconds: nat) {
    seconds > 0 ==> s.now >= requestedAt + seconds
  }

  function ExitRefusal(s: State, c: ExitCall): Option<VaultError> {
    if c.vk !in s.vaults then Some(AccountMissing)
    else
      var v := s.vaults[c.vk];
      match c
      case Requests(_, _, _, signedAt, passkeyOk) =>
        if v.version !in {2, 3, 4, 5, 6} then Some(UnsupportedVaultVersion)
        else if signedAt < s.now - 300 || signedAt > s.now + 300 || !passkeyOk then Some(PasskeyVerificationFailed)
        else None
      case Finalizes(_, passkeyOk) =>
        if v.pendingWithdrawal.None? || v.swig == DEFAULT_KEY then Some(NoPendingWithdrawal)
        else
          var pending := v.pendingWithdrawal.value;
          if !Waited(s, pending.requestedAt, v.coolingOffSeconds) then Some(CoolingOffNotElapsed)
          else if v.pendingVouchers > 0 then Some(PendingVouchersExist)
          else if v.version !in {2, 3, 4, 5, 6} then Some(UnsupportedVaultVersion)
          else if s.Balance(v.swig) < pending.amount + v.outstandingLocked then Some(WithdrawalWouldViolateReservation)
          else if s.Balance(v.swig) < pending.amount + v.outstandingLocked + v.borrowed
          then Some(WithdrawalWouldViolatePin)
          else if !passkeyOk then Some(PasskeyVerificationFailed)
          else None
      case ForceReleases(_, passkeyOk) =>
        if v.version !in {2, 3, 4, 5, 6} then Some(UnsupportedVaultVersion)
        else if v.pendingVouchers == 0 || v.pendingWithdrawal.None? then Some(NothingToRelease)
        else if !Waited(s, v.pendingWithdrawal.value.requestedAt, 7 * 24 * 3600) then Some(ForceReleaseTooEarly)
        else if !passkeyOk then Some(PasskeyVerificationFailed)
        else None
  }

  ghost predicate ExitLeaves(s: State, s': State, c: ExitCall) {
    && s' == s.(vaults := s'.vaults, balances := s'.balances)
    && OnlyVault(s, s', c.vk)
    && match c
       case Requests(vk, amount, destination, signedAt, _) =>
         && s'.balances == s.balances
         && s'.vaults[vk].pendingWithdrawal.Some?
         && var got := s'.vaults[vk].pendingWithdrawal.value;
         && got.amount == amount && got.destination == destination && got.requestedAt == signedAt
         && s'.vaults[vk] == s.vaults[vk].(pendingWithdrawal := Some(got))
       case Finalizes(vk, _) =>
         && s.vaults[vk].pendingWithdrawal.Some?
         && s'.vaults[vk] == s.vaults[vk].(pendingWithdrawal := None)
         && Pays(s, s', s.vaults[vk].swig, s.vaults[vk].pendingWithdrawal.value.amount)
       case ForceReleases(vk, _) =>
         && s'.balances == s.balances
         && s'.vaults[vk].pendingVouchers == s.vaults[vk].pendingVouchers - 1
         && s'.vaults[vk] == s.vaults[vk].(pendingVouchers := s'.vaults[vk].pendingVouchers)
  }

  // ---- Any instruction -----------------------------------------------------------------------

  ghost function Refusal(bumps: Bumps, s: State, c: Call): Option<VaultError> {
    match c
    case Env(e) => EnvRefusal(s, e)
    case Session(e) => SessionRefusal(bumps, s, e)
    case Upgrade(e) => UpgradeRefusal(bumps, s, e)
    case Tab(e) => TabRefusal(s, e)
    case Claim(e) => ClaimRefusal(s, e)
    case Credit(e) => CreditRefusal(s, e)
    case Exit(e) => ExitRefusal(s, e)
  }

  ghost predicate Leaves(bumps: Bumps, s: State, s': State, c: Call) {
    match c
    case Env(e) => EnvLeaves(s, s', e)
    case Session(e) => SessionLeaves(bumps, s, s', e)
    case Upgrade(e) => UpgradeLeaves(bumps, s, s', e)
    case Tab(e) => TabLeaves(s, s', e)
    case Claim(e) => ClaimLeaves(s, s', e)
    case Credit(e) => CreditLeaves(s, s', e)
    case Exit(e) => ExitLeaves(s, s', e)
  }

  /** The outcome is the one specified. */
  ghost predicate Meets(bumps: Bumps, s: State, c: Call, outcome: Result<State>) {
    match Refusal(bumps, s, c)
    case Some(error) => outcome == Err(error)
    case None => outcome.Ok? && Leaves(bumps, s, outcome.value, c)
  }
}
