/** Why solvency asks for one path, no credit and no early withdrawal: runs from genesis that end with less in the
    wallet than the claims and the open sessions need. */
module Insolvency {
  import opened Prelude
  import opened State
  import opened Protocol
  import opened Sums
  import opened SessionCount
  import opened Solvency
  import opened Scenario

  // ---- Opening sessions ----------------------------------------------------------------------

  /** Two sessions with a cap of 5 each, for counterparties 2 and 3. */
  const ONE := RegisterArgs(9, 5, 100, 2, 0, 5)
  const OTHER := RegisterArgs(8, 5, 100, 3, 0, 5)

  function KeyOne(bumps: Bumps): Pubkey { RegisterTarget(bumps, 1, 2) }

  function KeyOther(bumps: Bumps): Pubkey { RegisterTarget(bumps, 1, 3) }

  function OneOpen(bumps: Bumps, reg: SessionRegistration): map<Pubkey, SessionAccount> {
    map[KeyOne(bumps) := SessionAccount(SESSION_VERSION_V1, bumps(1, 2), 1, reg)]
  }

  function BothOpen(bumps: Bumps, reg: SessionRegistration, other: SessionRegistration): map<Pubkey, SessionAccount> {
    map[KeyOne(bumps) := SessionAccount(SESSION_VERSION_V1, bumps(1, 2), 1, reg),
        KeyOther(bumps) := SessionAccount(SESSION_VERSION_V1, bumps(1, 3), 1, other)]
  }

  lemma DistinctKeys(bumps: Bumps)
    ensures KeyOne(bumps) != KeyOther(bumps)
  {
    hide Pair;
    if KeyOne(bumps) == KeyOther(bumps) { SessionAddressInjective(1, 2, bumps(1, 2), 1, 3, bumps(1, 3)); }
  }

  /** Vault 1 in `s` is as a new one but for its credit terms. */
  lemma OpensOne(bumps: Bumps, s: State, v: Vault)
    requires s.vaults == map[1 := v] && s.sessions == map[] && s.now == 0
    requires v.version == VAULT_VERSION_V6 && v.liveSessions == 0 && v.outstandingLocked == 0 && s.Balance(v.swig) >= 5
    ensures RegisterSessionKey(bumps, s, 1, ONE, [], true)
         == Ok(s.(vaults := map[1 := v.(liveSessions := 1)], sessions := OneOpen(bumps, FreshRegistration(ONE))))
  {
    hide SessionAddress;
    var s' := RegisterSessionKey(bumps, s, 1, ONE, [], true).value;
    assert s'.vaults == map[1 := v.(liveSessions := 1)];
    assert s'.sessions == OneOpen(bumps, FreshRegistration(ONE));
  }

  // ---- Both paths in one epoch ---------------------------------------------------------------

  /** With 5 deposited and session one alone, 4 are settled along the tab path. */
  function TabCalls(bumps: Bumps): seq<Call> {
    Funding(5) + [Session(Registers(1, ONE, [], true))] + [Tab(SettlesTab(1, KeyOne(bumps), 2, 4, 3, true))]
  }

  function AfterTabs(bumps: Bumps): State {
    Funded(1).(vaults := map[1 := VaultOne(1)], sessions := OneOpen(bumps, FreshRegistration(ONE).(spent := 4)))
  }

  lemma SettlesOneTab(bumps: Bumps, s: State)
    requires s == Funded(5).(vaults := map[1 := VaultOne(1)], sessions := OneOpen(bumps, FreshRegistration(ONE)))
    ensures SettleTabVoucher(s, 1, KeyOne(bumps), 2, 4, 3, true) == Ok(AfterTabs(bumps))
  {
    hide SessionAddress;
    var s' := SettleTabVoucher(s, 1, KeyOne(bumps), 2, 4, 3, true).value;
    assert s'.vaults == AfterTabs(bumps).vaults && s'.sessions == AfterTabs(bumps).sessions;
    assert s'.balances == AfterTabs(bumps).balances;
  }

  /** The program itself gets there. */
  lemma AfterTabsIsReached(bumps: Bumps)
    ensures Run(bumps, GENESIS, TabCalls(bumps)) == AfterTabs(bumps)
  {
    hide RegisterTarget, Run, RegisterSessionKey, SettleTabVoucher, AfterTabs;
    var c3, c4 := Session(Registers(1, ONE, [], true)), Tab(SettlesTab(1, KeyOne(bumps), 2, 4, 3, true));
    var open := Funded(5).(vaults := map[1 := VaultOne(1)], sessions := OneOpen(bumps, FreshRegistration(ONE)));
    FundingRun(bumps, 5);
    OpensOne(bumps, Funded(5), VaultOne(0));
    Then(bumps, Funding(5), Funded(5), c3, open);
    SettlesOneTab(bumps, open);
    Then(bumps, Funding(5) + [c3], open, c4, AfterTabs(bumps));
  }

  /** There the vault is solvent, yet a lock of the remaining 1 is measured from crystallized_cumulative, so it
      asks for all 5 and runs into the over-commit check. */
  lemma MixedPathsOvercommit(bumps: Bumps, voucherHash: nat)
    ensures var s := Run(bumps, GENESIS, TabCalls(bumps));
            && Solvent(s, 1) && Slack(s, 1) == 0
            && LockVoucher(s, 1, KeyOne(bumps), LockArgs(5, 1, voucherHash, None, None, 2), 8, 3, true, true)
                 == Err(LockWouldOvercommitVault)
  {
    hide SessionAddress, ClaimAddress, Run;
    AfterTabsIsReached(bumps);
    var s := AfterTabs(bumps);
    SumPick(s.sessions, Exposure(s.now, 1), KeyOne(bumps));
    assert s.sessions - {KeyOne(bumps)} == map[];
  }

  /** With 10 deposited and both sessions open, session one has 4 settled along the tab path and is then locked up to
      its cap, which counts the 4 again; then the other session takes its 5. */
  function MixedCalls(bumps: Bumps): seq<Call> {
    Funding(10)
    + [Session(Registers(1, ONE, [], true))]
    + [Session(Registers(1, OTHER, [AccountRef(KeyOne(bumps), false)], true))]
    + [Tab(SettlesTab(1, KeyOne(bumps), 2, 4, 3, true))]
    + [Tab(Locks(1, KeyOne(bumps), LockArgs(5, 1, 0, None, None, 2), 8, 3, true, true))]
    + [Tab(SettlesTab(1, KeyOther(bumps), 3, 5, 3, true))]
  }

  function WithOne(bumps: Bumps): State {
    Funded(10).(vaults := map[1 := VaultOne(1)], sessions := OneOpen(bumps, FreshRegistration(ONE)))
  }

  function WithBoth(bumps: Bumps): State {
    Funded(10).(vaults := map[1 := VaultOne(2)],
                sessions := BothOpen(bumps, FreshRegistration(ONE), FreshRegistration(OTHER)))
  }

  /** 4 settled: the vault is exactly covered. */
  function AfterTab(bumps: Bumps): State {
    WithBoth(bumps).(sessions := BothOpen(bumps, FreshRegistration(ONE).(spent := 4), FreshRegistration(OTHER)),
                     balances := map[7 := 6])
  }

  function AfterLock(bumps: Bumps): State {
    AfterTab(bumps).(
      vaults := map[1 := VaultOne(2).(outstandingLocked := 5, totalCrystallized := 5)],
      sessions := BothOpen(bumps, FreshRegistration(ONE).(spent := 4, crystallized := 5, lastLockedSequence := 1),
                           FreshRegistration(OTHER)),
      claims := map[ClaimAddress(1, 0) := LockedClaim(1, 9, 0, 5, 0, None, None, 8, Pending, None, None)])
  }

  function AfterMixed(bumps: Bumps): State {
    AfterLock(bumps).(
      sessions := BothOpen(bumps, FreshRegistration(ONE).(spent := 4, crystallized := 5, lastLockedSequence := 1),
                           FreshRegistration(OTHER).(spent := 5)),
      balances := map[7 := 1])
  }

  lemma OpensOther(bumps: Bumps)
    ensures RegisterSessionKey(bumps, WithOne(bumps), 1, OTHER, [AccountRef(KeyOne(bumps), false)], true)
      == Ok(WithBoth(bumps))
  {
    hide SessionAddress;
    var s, refs := WithOne(bumps), [AccountRef(KeyOne(bumps), false)];
    DistinctKeys(bumps);
    ScanOfOne(0, 1, KeyOther(bumps), s.sessions, refs[0]);
    var s' := RegisterSessionKey(bumps, s, 1, OTHER, refs, true).value;
    assert s'.vaults == WithBoth(bumps).vaults && s'.sessions == WithBoth(bumps).sessions;
  }

  /** Either session is found through its seeds, and writing it back writes just that one. */
  lemma BothAreFound(bumps: Bumps, s: State, reg: SessionRegistration, other: SessionRegistration)
    requires s.sessions == BothOpen(bumps, reg, other)
    ensures SessionAt(s, 1, KeyOne(bumps), 2) == Ok(SessionAccount(SESSION_VERSION_V1, bumps(1, 2), 1, reg))
    ensures SessionAt(s, 1, KeyOther(bumps), 3) == Ok(SessionAccount(SESSION_VERSION_V1, bumps(1, 3), 1, other))
  {
    hide SessionAddress;
    DistinctKeys(bumps);
  }

  lemma WritesOne(bumps: Bumps, reg: SessionRegistration, other: SessionRegistration, after: SessionRegistration)
    ensures BothOpen(bumps, reg, other)[KeyOne(bumps) := SessionAccount(SESSION_VERSION_V1, bumps(1, 2), 1, after)]
         == BothOpen(bumps, after, other)
  {
    hide RegisterTarget;
    DistinctKeys(bumps);
  }

  lemma WritesOther(bumps: Bumps, reg: SessionRegistration, other: SessionRegistration, after: SessionRegistration)
    ensures BothOpen(bumps, reg, other)[KeyOther(bumps) := SessionAccount(SESSION_VERSION_V1, bumps(1, 3), 1, after)]
         == BothOpen(bumps, reg, after)
  {
    hide RegisterTarget;
    DistinctKeys(bumps);
  }

  lemma SettlesFour(bumps: Bumps)
    ensures SettleTabVoucher(WithBoth(bumps), 1, KeyOne(bumps), 2, 4, 3, true) == Ok(AfterTab(bumps))
  {
    hide SessionAt, KeyOne, KeyOther, BothOpen;
    var s, s' := WithBoth(bumps), AfterTab(bumps);
    BothAreFound(bumps, s, FreshRegistration(ONE), FreshRegistration(OTHER));
    WritesOne(bumps, FreshRegistration(ONE), FreshRegistration(OTHER), FreshRegistration(ONE).(spent := 4));
    assert s.vaults[1 := VaultOne(2)] == s'.vaults && s.balances[7 := 6] == s'.balances;
  }

  lemma LocksFive(bumps: Bumps)
    ensures LockVoucher(AfterTab(bumps), 1, KeyOne(bumps), LockArgs(5, 1, 0, None, None, 2), 8, 3, true, true)
         == Ok(AfterLock(bumps))
  {
    hide SessionAt, KeyOne, KeyOther, BothOpen, ClaimAddress;
    var s, s', ck := AfterTab(bumps), AfterLock(bumps), ClaimAddress(1, 0);
    var was := FreshRegistration(ONE).(spent := 4);
    BothAreFound(bumps, s, was, FreshRegistration(OTHER));
    WritesOne(bumps, was, FreshRegistration(OTHER), was.(crystallized := 5, lastLockedSequence := 1));
    assert s.vaults[1 := s'.vaults[1]] == s'.vaults && s.claims[ck := s'.claims[ck]] == s'.claims;
  }

  lemma OtherSettlesFive(bumps: Bumps)
    ensures SettleTabVoucher(AfterLock(bumps), 1, KeyOther(bumps), 3, 5, 3, true) == Ok(AfterMixed(bumps))
  {
    hide SessionAt, KeyOne, KeyOther, BothOpen, ClaimAddress;
    var s, s' := AfterLock(bumps), AfterMixed(bumps);
    var one := FreshRegistration(ONE).(spent := 4, crystallized := 5, lastLockedSequence := 1);
    BothAreFound(bumps, s, one, FreshRegistration(OTHER));
    WritesOther(bumps, one, FreshRegistration(OTHER), FreshRegistration(OTHER).(spent := 5));
    assert s.vaults[1 := s'.vaults[1]] == s'.vaults && s.balances[7 := 1] == s'.balances;
  }

  lemma MixedRun(bumps: Bumps)
    ensures Run(bumps, GENESIS, MixedCalls(bumps)) == AfterMixed(bumps)
  {
    hide RegisterTarget, Run, RegisterSessionKey, SettleTabVoucher, LockVoucher, WithBoth, AfterTab, AfterLock,
         AfterMixed;
    var one, other := KeyOne(bumps), KeyOther(bumps);
    var c3, c4 := Session(Registers(1, ONE, [], true)), Session(Registers(1, OTHER, [AccountRef(one, false)], true));
    var c5 := Tab(SettlesTab(1, one, 2, 4, 3, true));
    var c6 := Tab(Locks(1, one, LockArgs(5, 1, 0, None, None, 2), 8, 3, true, true));
    var c7 := Tab(SettlesTab(1, other, 3, 5, 3, true));
    FundingRun(bumps, 10);
    OpensOne(bumps, Funded(10), VaultOne(0));
    Then(bumps, Funding(10), Funded(10), c3, WithOne(bumps));
    OpensOther(bumps);
    Then(bumps, Funding(10) + [c3], WithOne(bumps), c4, WithBoth(bumps));
    SettlesFour(bumps);
    Then(bumps, Funding(10) + [c3] + [c4], WithBoth(bumps), c5, AfterTab(bumps));
    LocksFive(bumps);
    Then(bumps, Funding(10) + [c3] + [c4] + [c5], AfterTab(bumps), c6, AfterLock(bumps));
    OtherSettlesFive(bumps);
    Then(bumps, Funding(10) + [c3] + [c4] + [c5] + [c6], AfterLock(bumps), c7, AfterMixed(bumps));
  }

  /** Every one of those calls goes through, and the claim of 5 can then not be paid out of the 1 that is left. */
  lemma MixedPathsEndInsolvent(bumps: Bumps)
    ensures var s := Run(bumps, GENESIS, MixedCalls(bumps));
            && 1 in s.vaults && Slack(s, 1) == -4
            && SettleLockedVoucher(s, 1, ClaimAddress(1, 0), 8, 3) == Err(InsufficientFunds)
  {
    hide SessionAddress, ClaimAddress, Run, Sum;
    MixedRun(bumps);
    var s := AfterMixed(bumps);
    SumEq(s.sessions, Exposure(s.now, 1), map[], Exposure(s.now, 1));
    EmptySum(map[], Exposure(s.now, 1));
  }

  // ---- A loan repaid -------------------------------------------------------------------------

  /** Financier 20 holds 5, all of it in reserve, and stands by for vault 1, which holds 5, with that. */
  function StandbyCalls(): seq<Call> {
    Funding(5)
    + [Credit(SetsReserve(20, 5, true))]
    + [Env(Deposits(20, 5))]
    + [Credit(OpensStandby(1, 20, 5, true))]
  }

  /** A vault with 5 draws 5 from its financier, opens a session with a cap of 5 and repays. */
  function RepayCalls(): seq<Call> {
    StandbyCalls()
    + [Credit(Draws(1, 20, 5, 3600, 3))]
    + [Session(Registers(1, ONE, [], true))]
    + [Credit(Repays(1, 5, 3))]
  }

  function Standing(live: u8, borrowed: u64): Vault {
    VaultOne(live).(standbyBacker := Some(20), standbyCap := 5, borrowed := borrowed,
                    borrowRecoveryAt := if borrowed > 0 then Some(3600) else None)
  }

  function BackedBy(v: Vault, wallet: u64, financier: u64): State {
    GENESIS.(vaults := map[1 := v], balances := map[7 := wallet, 20 := financier],
             backers := map[20 := StandbyBacker(STANDBY_BACKER_VERSION_V1, 20, 5, 5)])
  }

  function AfterRepay(bumps: Bumps): State {
    BackedBy(Standing(1, 0), 0, 0).(sessions := OneOpen(bumps, FreshRegistration(ONE)))
  }

  lemma StandbyRun(bumps: Bumps)
    ensures Run(bumps, GENESIS, StandbyCalls()) == BackedBy(Standing(0, 0), 5, 5)
  {
    hide Run;
    var c0, c1, c2 := Credit(SetsReserve(20, 5, true)), Env(Deposits(20, 5)), Credit(OpensStandby(1, 20, 5, true));
    var s1 := Funded(5).(backers := map[20 := StandbyBacker(STANDBY_BACKER_VERSION_V1, 20, 5, 0)]);
    var s2 := s1.(balances := map[7 := 5, 20 := 5]);
    var s3 := BackedBy(Standing(0, 0), 5, 5);
    FundingRun(bumps, 5);
    assert Funded(5).backers[20 := s1.backers[20]] == s1.backers;
    Then(bumps, Funding(5), Funded(5), c0, s1);
    assert s1.balances[20 := 5] == s2.balances;
    Then(bumps, Funding(5) + [c0], s1, c1, s2);
    assert s2.vaults[1 := s3.vaults[1]] == s3.vaults && s2.backers[20 := s3.backers[20]] == s3.backers;
    Then(bumps, Funding(5) + [c0] + [c1], s2, c2, s3);
  }

  lemma DrawsFive(bumps: Bumps)
    ensures DrawCredit(BackedBy(Standing(0, 0), 5, 5), 1, 20, 5, 3600, 3) == Ok(BackedBy(Standing(0, 5), 5, 0))
  {
    var s, s' := BackedBy(Standing(0, 0), 5, 5), BackedBy(Standing(0, 5), 5, 0);
    assert s.vaults[1 := s'.vaults[1]] == s'.vaults && s.balances[20 := 0] == s'.balances;
  }

  lemma RepaysFive(bumps: Bumps, s: State)
    requires s == BackedBy(Standing(1, 5), 5, 0).(sessions := OneOpen(bumps, FreshRegistration(ONE)))
    ensures RepayCredit(s, 1, 5, 3) == Ok(AfterRepay(bumps))
  {
    hide SessionAddress;
    var s' := AfterRepay(bumps);
    assert s.vaults[1 := s'.vaults[1]] == s'.vaults && s.balances[7 := 0] == s'.balances;
  }

  lemma RepayRun(bumps: Bumps)
    ensures Run(bumps, GENESIS, RepayCalls()) == AfterRepay(bumps)
  {
    hide RegisterTarget, Run, RegisterSessionKey, RepayCredit, DrawCredit;
    var calls := StandbyCalls();
    var c4, c5, c6 := Credit(Draws(1, 20, 5, 3600, 3)), Session(Registers(1, ONE, [], true)), Credit(Repays(1, 5, 3));
    var lent := BackedBy(Standing(0, 5), 5, 0);
    var open := BackedBy(Standing(1, 5), 5, 0).(sessions := OneOpen(bumps, FreshRegistration(ONE)));
    StandbyRun(bumps);
    DrawsFive(bumps);
    Then(bumps, calls, BackedBy(Standing(0, 0), 5, 5), c4, lent);
    OpensOne(bumps, lent, Standing(0, 5));
    Then(bumps, calls + [c4], lent, c5, open);
    RepaysFive(bumps, open);
    Then(bumps, calls + [c4] + [c5], open, c6, AfterRepay(bumps));
  }

  lemma OneIsExposed(bumps: Bumps, s: State)
    requires s.now == 0 && s.sessions == OneOpen(bumps, FreshRegistration(ONE))
    ensures Exposed(s, 1) == 5
  {
    hide SessionAddress;
    SumPick(s.sessions, Exposure(s.now, 1), KeyOne(bumps));
    assert s.sessions - {KeyOne(bumps)} == map[];
  }

  /** The repayment empties the wallet the session was promised. */
  lemma RepaymentEndsInsolvent(bumps: Bumps)
    ensures var s := Run(bumps, GENESIS, RepayCalls()); 1 in s.vaults && Slack(s, 1) == -5
  {
    hide RegisterTarget, Run, Exposed;
    RepayRun(bumps);
    OneIsExposed(bumps, AfterRepay(bumps));
  }

  // ---- A withdrawal before the session expires -----------------------------------------------

  /** A vault with 5 opens a session with a cap of 5 and withdraws everything. */
  function WithdrawCalls(): seq<Call> {
    Funding(5)
    + [Session(Registers(1, ONE, [], true))]
    + [Exit(Requests(1, 5, 6, 0, true))]
    + [Exit(Finalizes(1, true))]
  }

  function OpenWith(bumps: Bumps, pending: Option<PendingWithdrawal>, wallet: u64): State {
    GENESIS.(vaults := map[1 := VaultOne(1).(pendingWithdrawal := pending)], balances := map[7 := wallet],
             sessions := OneOpen(bumps, FreshRegistration(ONE)))
  }

  lemma RequestsFive(bumps: Bumps)
    ensures RequestWithdrawal(OpenWith(bumps, None, 5), 1, 5, 6, 0, true)
         == Ok(OpenWith(bumps, Some(PendingWithdrawal(5, 6, 0)), 5))
  {
    hide SessionAddress;
    var s, s' := OpenWith(bumps, None, 5), OpenWith(bumps, Some(PendingWithdrawal(5, 6, 0)), 5);
    assert s.vaults[1 := s'.vaults[1]] == s'.vaults;
  }

  lemma FinalizesFive(bumps: Bumps)
    ensures FinalizeWithdrawal(OpenWith(bumps, Some(PendingWithdrawal(5, 6, 0)), 5), 1, true)
      == Ok(OpenWith(bumps, None, 0))
  {
    hide SessionAddress;
    var s, s' := OpenWith(bumps, Some(PendingWithdrawal(5, 6, 0)), 5), OpenWith(bumps, None, 0);
    assert s.vaults[1 := s'.vaults[1]] == s'.vaults && s.balances[7 := 0] == s'.balances;
  }

  lemma WithdrawRun(bumps: Bumps)
    ensures Run(bumps, GENESIS, WithdrawCalls()) == OpenWith(bumps, None, 0)
  {
    hide RegisterTarget, Run, RegisterSessionKey, RequestWithdrawal, FinalizeWithdrawal;
    var c3, c4, c5 := Session(Registers(1, ONE, [], true)), Exit(Requests(1, 5, 6, 0, true)), Exit(Finalizes(1, true));
    var requested := OpenWith(bumps, Some(PendingWithdrawal(5, 6, 0)), 5);
    FundingRun(bumps, 5);
    OpensOne(bumps, Funded(5), VaultOne(0));
    Then(bumps, Funding(5), Funded(5), c3, OpenWith(bumps, None, 5));
    RequestsFive(bumps);
    Then(bumps, Funding(5) + [c3], OpenWith(bumps, None, 5), c4, requested);
    FinalizesFive(bumps);
    Then(bumps, Funding(5) + [c3] + [c4], requested, c5, OpenWith(bumps, None, 0));
  }

  /** The withdrawal looks at the claims and the loan, not at the open session. */
  lemma WithdrawalEndsInsolvent(bumps: Bumps)
    ensures var s := Run(bumps, GENESIS, WithdrawCalls()); 1 in s.vaults && Slack(s, 1) == -5
  {
    hide RegisterTarget, Run, Exposed;
    WithdrawRun(bumps);
    OneIsExposed(bumps, OpenWith(bumps, None, 0));
  }
}
