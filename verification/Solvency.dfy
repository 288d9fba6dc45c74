/** A vault's wallet always covers its locked claims and what its unexpired sessions may still take. */
module Solvency {
  import opened Prelude
  import opened State
  import opened Protocol
  import opened Sums
  import opened SessionCount
  import opened ClaimLedger
  import Epoch

  /** What an unexpired session of vault `v` may still take out along one terminal path. */
  function Exposure(now: i64, v: Pubkey): SessionAccount -> int {
    (a: SessionAccount) => if a.LiveFor(v) && a.reg.expiresAt > now then a.reg.maxAmount - a.reg.Frontier() else 0
  }

  ghost function Exposed(s: State, vk: Pubkey): int {
    Sum(s.sessions, Exposure(s.now, vk))
  }

  /** The balance not spoken for. Solvency is that it is never negative. */
  ghost function Slack(s: State, vk: Pubkey): int
    requires vk in s.vaults
  {
    s.Balance(s.vaults[vk].swig) - s.vaults[vk].outstandingLocked - Exposed(s, vk)
  }

  ghost predicate Solvent(s: State, vk: Pubkey) {
    vk in s.vaults && Slack(s, vk) >= 0
  }

  ghost predicate CapsOk(s: State) {
    forall a :: a in s.sessions && s.sessions[a].version != 0
      ==> s.sessions[a].reg.Frontier() <= s.sessions[a].reg.maxAmount
  }

  /** The vault is bound to a wallet no other vault is bound to. */
  ghost predicate OwnWallet(s: State, vk: Pubkey) {
    && vk in s.vaults
    && s.vaults[vk].swig != DEFAULT_KEY
    && forall k :: k in s.vaults && k != vk ==> s.vaults[k].swig != s.vaults[vk].swig
  }

  /** A session accepts a voucher only along the path whose odometer is the frontier. For a session
      registered afresh this is: one terminal path per epoch. */
  ghost predicate OnePath(s: State, c: TabCall, vk: Pubkey) {
    match c
    case SettlesVoucher(_, _, _, _, _, _) => true
    case SettlesTab(k, sk, _, _, _, _) =>
      k == vk && sk in s.sessions ==> s.sessions[sk].reg.crystallized <= s.sessions[sk].reg.spent
    case Locks(k, sk, _, _, _, _, _) =>
      k == vk && sk in s.sessions ==> s.sessions[sk].reg.spent <= s.sessions[sk].reg.crystallized
  }

  ghost predicate NoUnexpired(s: State, vk: Pubkey) {
    forall a :: a in s.sessions && s.sessions[a].LiveFor(vk) ==> s.sessions[a].reg.expiresAt <= s.now
  }

  /** What a step takes out of the vault's slack: for a voucher, what the other path had already taken; for a migrated
      session, the room it brings; for the instructions that do not look at the reservation, the amount they move. */
  ghost function Cost(s: State, c: Call, vk: Pubkey): int
    requires vk in s.vaults
  {
    var v := s.vaults[vk];
    match c
    case Tab(SettlesTab(k, sk, _, _, _, _)) =>
      if k == vk && sk in s.sessions then s.sessions[sk].reg.Frontier() - s.sessions[sk].reg.spent else 0
    case Tab(Locks(k, sk, _, _, _, _, _)) =>
      if k == vk && sk in s.sessions then s.sessions[sk].reg.Frontier() - s.sessions[sk].reg.crystallized else 0
    case Upgrade(MigratesWithSession(k, _, _)) =>
      if k == vk && v.activeSession.Some? then v.activeSession.value.maxAmount - v.activeSession.value.Frontier() else 0
    case Claim(Recovers(k, ck, _)) => if k == vk && ck in s.claims then 0 - s.claims[ck].amount as int else 0
    case Credit(Draws(_, financier, amount, _, _)) => if financier == v.swig then amount else 0
    case Credit(Repays(k, amount, _)) => if k == vk then Min(amount, v.borrowed) else 0
    case Credit(Seizes(k, _)) => if k == vk then v.borrowed else 0
    case Exit(Finalizes(k, _)) => if k == vk && v.pendingWithdrawal.Some? then v.pendingWithdrawal.value.amount else 0
    case _ => 0
  }

  /** The calls the solvency statement covers: one terminal path per epoch, no credit steps on the
      vault or on its wallet, the wallet bound to no second vault, no session migrated in beyond what is
      free, and no withdrawal finalized while a session of the vault is unexpired. */
  ghost predicate Covered(s: State, c: Call, vk: Pubkey)
    requires vk in s.vaults
  {
    match c
    case Env(SetsSwig(_, swig, _)) => swig != s.vaults[vk].swig
    case Upgrade(_) => Cost(s, c, vk) <= Slack(s, vk)
    case Tab(t) => OnePath(s, t, vk)
    case Credit(Draws(_, financier, _, _, _)) => financier != s.vaults[vk].swig
    case Credit(Repays(k, _, _)) => k != vk
    case Credit(Seizes(k, _)) => k != vk
    case Exit(Finalizes(k, _)) => k == vk ==> NoUnexpired(s, vk)
    case _ => true
  }

  ghost predicate Sound(bumps: Bumps, s: State, vk: Pubkey) {
    RightFor(bumps, s, vk) && ClaimsOk(s) && CapsOk(s) && OwnWallet(s, vk)
  }

  /** The vault is still there, on the same wallet, which is still its own. */
  ghost predicate KeepsWallet(s: State, s': State, vk: Pubkey) {
    && vk in s.vaults && OwnWallet(s', vk) && s'.vaults[vk].swig == s.vaults[vk].swig
  }

  // ---- Environment ---------------------------------------------------------------------------

  lemma ExposureShrinks(s: State, s': State, vk: Pubkey)
    requires CapsOk(s)
    requires forall k :: Weight(s'.sessions, Exposure(s'.now, vk), k) <= Weight(s.sessions, Exposure(s.now, vk), k)
    ensures Exposed(s', vk) <= Exposed(s, vk)
  {
    SumLe(s'.sessions, Exposure(s'.now, vk), s.sessions, Exposure(s.now, vk));
  }

  lemma EnvStaysSolvent(s: State, c: EnvCall, vk: Pubkey)
    requires CapsOk(s) && OwnWallet(s, vk) && Solvent(s, vk)
    requires Covered(s, Env(c), vk)
    requires EnvStep(s, c).Ok?
    ensures Solvent(EnvStep(s, c).value, vk) && KeepsWallet(s, EnvStep(s, c).value, vk)
  {
    hide Sum;
    ExposureShrinks(s, EnvStep(s, c).value, vk);
  }

  // ---- Sessions ------------------------------------------------------------------------------

  lemma RegisterStaysSolvent(bumps: Bumps, s: State, c: SessionCall, vk: Pubkey)
    requires Sound(bumps, s, vk)
    requires c.Registers? && c.vk == vk
    requires PassesLive(s, c.refs) && SessionStep(bumps, s, c).Ok?
    ensures Solvent(SessionStep(bumps, s, c).value, vk)
  {
    hide RegisterSessionKey, RegisterTarget, ScanSiblings, Sum, PlacedOk, CountRight, ClaimsOk;
    var s' := SessionStep(bumps, s, c).value;
    RegisterLeavesNoOvercommit(bumps, s, vk, c.args, c.refs, c.passkeyOk);
    forall k ensures Weight(s'.sessions, Exposure(s'.now, vk), k) <= Weight(s'.sessions, LiveCap(vk), k) { }
    SumLe(s'.sessions, Exposure(s'.now, vk), s'.sessions, LiveCap(vk));
  }

  /** What is registered on another vault, with whatever list, leaves this one's sessions alone. */
  lemma OtherRegisterStaysSolvent(bumps: Bumps, s: State, c: SessionCall, vk: Pubkey)
    requires Sound(bumps, s, vk) && Solvent(s, vk)
    requires c.Registers? && c.vk != vk
    requires SessionStep(bumps, s, c).Ok?
    ensures Solvent(SessionStep(bumps, s, c).value, vk)
  {
    hide RegisterSessionKey, RegisterTarget, Sum, PlacedOk, CountRight, ClaimsOk, FreshRegistration;
    var s' := SessionStep(bumps, s, c).value;
    RegisterTouchesOnlyItsVault(bumps, s, c.vk, c.args, c.refs, c.passkeyOk);
    forall k
      ensures Weight(s'.sessions, Exposure(s'.now, vk), k) <= Weight(s.sessions, Exposure(s.now, vk), k)
    {
      assert k in s.sessions ==> k in s'.sessions;
    }
    ExposureShrinks(s, s', vk);
  }

  lemma TeardownStaysSolvent(bumps: Bumps, s: State, c: SessionCall, vk: Pubkey)
    requires Sound(bumps, s, vk) && Solvent(s, vk)
    requires !c.Registers?
    requires SessionStep(bumps, s, c).Ok?
    ensures Solvent(SessionStep(bumps, s, c).value, vk)
  {
    hide Sum, PlacedOk, CountRight, ClaimsOk, SessionAddress;
    ExposureShrinks(s, SessionStep(bumps, s, c).value, vk);
  }

  lemma SessionKeepsWallet(bumps: Bumps, s: State, c: SessionCall, vk: Pubkey)
    requires OwnWallet(s, vk)
    requires SessionStep(bumps, s, c).Ok?
    ensures KeepsWallet(s, SessionStep(bumps, s, c).value, vk)
  {
    hide ScanSiblings, RegisterTarget, SessionOrZero, FreshRegistration, SessionAddress;
  }

  // ---- Vouchers ------------------------------------------------------------------------------

  lemma RewriteSession(s: State, s': State, vk: Pubkey, sk: Pubkey)
    requires sk in s.sessions && sk in s'.sessions && s'.now == s.now
    requires s'.sessions == s.sessions[sk := s'.sessions[sk]]
    ensures Exposed(s', vk)
      == Exposed(s, vk) - Exposure(s.now, vk)(s.sessions[sk]) + Exposure(s.now, vk)(s'.sessions[sk])
  {
    SumPut(s.sessions, Exposure(s.now, vk), sk, s'.sessions[sk]);
  }

  /** A tab settlement costs the vault exactly what the lock path had already taken beyond `spent`. */
  lemma SettleTabSlack(bumps: Bumps, s: State, c: TabCall, vk: Pubkey)
    requires Sound(bumps, s, vk)
    requires c.SettlesTab? && c.vk == vk
    ensures TabStep(s, c).Ok? ==>
            && c.sk in s.sessions && vk in TabStep(s, c).value.vaults
            && var r := s.sessions[c.sk].reg;
            Slack(TabStep(s, c).value, vk) == Slack(s, vk) - (r.Frontier() - r.spent)
  {
    hide Sum, PlacedOk, CountRight, ClaimsOk, CapsOk, SessionAddress;
    if TabStep(s, c).Ok? {
      SeedsNameTheVault(bumps, s, vk, c.sk, c.counterparty);
      RewriteSession(s, TabStep(s, c).value, vk, c.sk);
    }
  }

  /** A lock costs it exactly what the tab path had already taken beyond `crystallized_cumulative`. */
  lemma LockSlack(bumps: Bumps, s: State, c: TabCall, vk: Pubkey)
    requires Sound(bumps, s, vk)
    requires c.Locks? && c.vk == vk
    ensures TabStep(s, c).Ok? ==>
            && c.sk in s.sessions && vk in TabStep(s, c).value.vaults
            && var r := s.sessions[c.sk].reg;
            Slack(TabStep(s, c).value, vk) == Slack(s, vk) - (r.Frontier() - r.crystallized)
  {
    hide Sum, PlacedOk, CountRight, ClaimsOk, CapsOk, SessionAddress, ClaimAddress;
    if TabStep(s, c).Ok? {
      SeedsNameTheVault(bumps, s, vk, c.sk, c.args.counterparty);
      RewriteSession(s, TabStep(s, c).value, vk, c.sk);
    }
  }

  lemma OtherVoucherSlack(bumps: Bumps, s: State, c: TabCall, vk: Pubkey)
    requires Sound(bumps, s, vk)
    requires c.vk != vk && TabStep(s, c).Ok?
    ensures vk in TabStep(s, c).value.vaults && Slack(TabStep(s, c).value, vk) == Slack(s, vk)
  {
    hide Sum, PlacedOk, CountRight, ClaimsOk, CapsOk, SessionAddress, ClaimAddress;
    var sk := if c.SettlesVoucher? then c.osk else Some(c.sk);
    var cp := if c.Locks? then c.args.counterparty else c.counterparty;
    if sk.Some? {
      SeedsNameTheVault(bumps, s, c.vk, sk.value, cp);
      RewriteSession(s, TabStep(s, c).value, vk, sk.value);
    }
  }

  lemma OpenTabSlack(bumps: Bumps, s: State, c: TabCall, vk: Pubkey)
    requires Sound(bumps, s, vk)
    requires c.SettlesVoucher? && c.vk == vk && TabStep(s, c).Ok?
    ensures vk in TabStep(s, c).value.vaults && Slack(TabStep(s, c).value, vk) == Slack(s, vk)
  {
    hide Sum, PlacedOk, CountRight, ClaimsOk, CapsOk, SessionAddress;
    if c.osk.Some? {
      RewriteSession(s, TabStep(s, c).value, vk, c.osk.value);
    }
  }

  lemma TabKeepsWallet(s: State, c: TabCall, vk: Pubkey)
    requires OwnWallet(s, vk) && TabStep(s, c).Ok?
    ensures KeepsWallet(s, TabStep(s, c).value, vk)
  {
    hide SessionAddress, ClaimAddress;
  }

  lemma TabStaysSolvent(bumps: Bumps, s: State, c: TabCall, vk: Pubkey)
    requires Sound(bumps, s, vk) && Solvent(s, vk)
    requires OnePath(s, c, vk) && TabStep(s, c).Ok?
    ensures Solvent(TabStep(s, c).value, vk) && KeepsWallet(s, TabStep(s, c).value, vk)
  {
    hide TabStep, Slack, PlacedOk, CountRight, ClaimsOk, CapsOk;
    TabKeepsWallet(s, c, vk);
    TabCosts(bumps, s, c, vk);
  }

  // ---- Claims, credit, withdrawals -----------------------------------------------------------

  lemma ClaimStaysSolvent(bumps: Bumps, s: State, c: ClaimCall, vk: Pubkey)
    requires Sound(bumps, s, vk) && Solvent(s, vk)
    requires ClaimStep(s, c).Ok?
    ensures Solvent(ClaimStep(s, c).value, vk) && KeepsWallet(s, ClaimStep(s, c).value, vk)
  {
    hide Exposed, PlacedOk, CountRight, ClaimsOk, CapsOk;
    Epoch.ClaimKeepsSessions(s, c);
    SameSessionsSameExposure(s, ClaimStep(s, c).value, vk);
    if !c.Transfers? {
      PendingIsReserved(s, c.ck);
    }
  }

  lemma SameSessionsSameExposure(s: State, s': State, vk: Pubkey)
    requires s'.sessions == s.sessions && s'.now == s.now
    ensures Exposed(s', vk) == Exposed(s, vk)
  {
  }

  lemma CreditKeepsWallet(s: State, c: CreditCall, vk: Pubkey)
    requires OwnWallet(s, vk) && CreditStep(s, c).Ok?
    ensures KeepsWallet(s, CreditStep(s, c).value, vk)
  {
    if c.Draws? || c.Repays? || c.Seizes? {
      hide SetStandbyReserve, OpenStandby, CloseStandby;
    }
  }

  lemma CreditStaysSolvent(s: State, c: CreditCall, vk: Pubkey)
    requires OwnWallet(s, vk) && Solvent(s, vk)
    requires Covered(s, Credit(c), vk) && CreditStep(s, c).Ok?
    ensures Solvent(CreditStep(s, c).value, vk) && KeepsWallet(s, CreditStep(s, c).value, vk)
  {
    hide Slack, CreditStep, OwnWallet;
    CreditKeepsWallet(s, c, vk);
    CreditCosts(s, c, vk);
  }

  lemma NothingExposed(s: State, vk: Pubkey)
    requires NoUnexpired(s, vk)
    ensures Exposed(s, vk) == 0
  {
    SumEq(s.sessions, Exposure(s.now, vk), map[], Exposure(s.now, vk));
    EmptySum(map[], Exposure(s.now, vk));
  }

  lemma ExitStaysSolvent(s: State, c: ExitCall, vk: Pubkey)
    requires OwnWallet(s, vk) && Solvent(s, vk)
    requires Covered(s, Exit(c), vk) && ExitStep(s, c).Ok?
    ensures Solvent(ExitStep(s, c).value, vk) && KeepsWallet(s, ExitStep(s, c).value, vk)
  {
    hide Exposed, NoUnexpired;
    Epoch.ExitKeepsSessions(s, c);
    SameSessionsSameExposure(s, ExitStep(s, c).value, vk);
    if c.Finalizes? && c.vk == vk {
      NothingExposed(s, vk);
    }
  }

  // ---- The exact price of a step -------------------------------------------------------------

  lemma TabCosts(bumps: Bumps, s: State, c: TabCall, vk: Pubkey)
    requires Sound(bumps, s, vk) && TabStep(s, c).Ok?
    ensures vk in TabStep(s, c).value.vaults && Slack(TabStep(s, c).value, vk) == Slack(s, vk) - Cost(s, Tab(c), vk)
  {
    hide TabStep, Slack, PlacedOk, CountRight, ClaimsOk, CapsOk;
    if c.vk != vk {
      OtherVoucherSlack(bumps, s, c, vk);
    } else {
      match c
      case SettlesVoucher(_, _, _, _, _, _) => OpenTabSlack(bumps, s, c, vk);
      case SettlesTab(_, _, _, _, _, _) => SettleTabSlack(bumps, s, c, vk);
      case Locks(_, _, _, _, _, _, _) => LockSlack(bumps, s, c, vk);
    }
  }

  lemma ClaimCosts(bumps: Bumps, s: State, c: ClaimCall, vk: Pubkey)
    requires Sound(bumps, s, vk) && ClaimStep(s, c).Ok?
    ensures vk in ClaimStep(s, c).value.vaults
    ensures Slack(ClaimStep(s, c).value, vk) == Slack(s, vk) - Cost(s, Claim(c), vk)
  {
    hide Exposed, PlacedOk, CountRight, ClaimsOk, CapsOk;
    Epoch.ClaimKeepsSessions(s, c);
    SameSessionsSameExposure(s, ClaimStep(s, c).value, vk);
    if !c.Transfers? {
      PendingIsReserved(s, c.ck);
    }
  }

  lemma StandbyCosts(s: State, c: CreditCall, vk: Pubkey)
    requires OwnWallet(s, vk) && CreditStep(s, c).Ok?
    requires c.SetsReserve? || c.OpensStandby? || c.ClosesStandby?
    ensures vk in CreditStep(s, c).value.vaults && Slack(CreditStep(s, c).value, vk) == Slack(s, vk)
  {
    hide Exposed, DrawCredit, RepayCredit, SeizeCollateral;
    SameSessionsSameExposure(s, CreditStep(s, c).value, vk);
  }

  lemma DrawCosts(s: State, c: CreditCall, vk: Pubkey)
    requires OwnWallet(s, vk) && CreditStep(s, c).Ok? && c.Draws?
    ensures vk in CreditStep(s, c).value.vaults
    ensures Slack(CreditStep(s, c).value, vk) == Slack(s, vk) - Cost(s, Credit(c), vk)
  {
    hide Exposed, SetStandbyReserve, OpenStandby, CloseStandby, RepayCredit, SeizeCollateral;
    SameSessionsSameExposure(s, CreditStep(s, c).value, vk);
  }

  lemma RepayCosts(s: State, c: CreditCall, vk: Pubkey)
    requires OwnWallet(s, vk) && CreditStep(s, c).Ok? && c.Repays?
    ensures vk in CreditStep(s, c).value.vaults
    ensures Slack(CreditStep(s, c).value, vk) == Slack(s, vk) - Cost(s, Credit(c), vk)
  {
    hide Exposed, SetStandbyReserve, OpenStandby, CloseStandby, DrawCredit, SeizeCollateral;
    SameSessionsSameExposure(s, CreditStep(s, c).value, vk);
  }

  lemma SeizeCosts(s: State, c: CreditCall, vk: Pubkey)
    requires OwnWallet(s, vk) && CreditStep(s, c).Ok? && c.Seizes?
    ensures vk in CreditStep(s, c).value.vaults
    ensures Slack(CreditStep(s, c).value, vk) == Slack(s, vk) - Cost(s, Credit(c), vk)
  {
    hide Exposed, SetStandbyReserve, OpenStandby, CloseStandby, DrawCredit, RepayCredit;
    SameSessionsSameExposure(s, CreditStep(s, c).value, vk);
  }

  lemma CreditCosts(s: State, c: CreditCall, vk: Pubkey)
    requires OwnWallet(s, vk) && CreditStep(s, c).Ok?
    ensures vk in CreditStep(s, c).value.vaults
    ensures Slack(CreditStep(s, c).value, vk) == Slack(s, vk) - Cost(s, Credit(c), vk)
  {
    hide Slack, CreditStep, OwnWallet;
    match c
    case Draws(_, _, _, _, _) => DrawCosts(s, c, vk);
    case Repays(_, _, _) => RepayCosts(s, c, vk);
    case Seizes(_, _) => SeizeCosts(s, c, vk);
    case _ => StandbyCosts(s, c, vk);
  }

  lemma UpgradeKeepsWallet(bumps: Bumps, s: State, c: UpgradeCall, vk: Pubkey)
    requires OwnWallet(s, vk) && UpgradeStep(bumps, s, c).Ok?
    ensures KeepsWallet(s, UpgradeStep(bumps, s, c).value, vk)
  {
    hide RegisterTarget;
  }

  lemma UpgradeCosts(bumps: Bumps, s: State, c: UpgradeCall, vk: Pubkey)
    requires OwnWallet(s, vk) && UpgradeStep(bumps, s, c).Ok?
    ensures vk in UpgradeStep(bumps, s, c).value.vaults
    ensures Slack(UpgradeStep(bumps, s, c).value, vk) == Slack(s, vk) - Cost(s, Upgrade(c), vk)
  {
    hide RegisterTarget, Sum;
    var s' := UpgradeStep(bumps, s, c).value;
    if c.MigratesWithSession? {
      var target := RegisterTarget(bumps, c.vk, c.counterparty);
      SumPut(s.sessions, Exposure(s.now, vk), target, s'.sessions[target]);
    }
  }

  lemma ExitCosts(s: State, c: ExitCall, vk: Pubkey)
    requires OwnWallet(s, vk) && ExitStep(s, c).Ok?
    ensures vk in ExitStep(s, c).value.vaults
    ensures Slack(ExitStep(s, c).value, vk) == Slack(s, vk) - Cost(s, Exit(c), vk)
  {
    hide Exposed;
    Epoch.ExitKeepsSessions(s, c);
    SameSessionsSameExposure(s, ExitStep(s, c).value, vk);
  }

  /** Exactly when a migration, voucher, claim, credit or withdrawal step leaves the vault solvent: when the vault
      can afford it. */
  lemma SolventIffAffordable(bumps: Bumps, s: State, c: Call, vk: Pubkey)
    requires Sound(bumps, s, vk)
    requires c.Upgrade? || c.Tab? || c.Claim? || c.Credit? || c.Exit?
    ensures Step(bumps, s, c).Ok? ==> (Solvent(Step(bumps, s, c).value, vk) <==> Cost(s, c, vk) <= Slack(s, vk))
  {
    hide Slack, Cost, PlacedOk, CountRight, ClaimsOk, CapsOk, OwnWallet, UpgradeStep, TabStep, ClaimStep, CreditStep,
         ExitStep;
    if Step(bumps, s, c).Err? {
      return;
    }
    match c
    case Upgrade(e) => UpgradeCosts(bumps, s, e, vk);
    case Tab(e) => TabCosts(bumps, s, e, vk);
    case Claim(e) => ClaimCosts(bumps, s, e, vk);
    case Credit(e) => CreditCosts(s, e, vk);
    case Exit(e) => ExitCosts(s, e, vk);
    case _ =>
  }

  // ---- Every covered run ---------------------------------------------------------------------

  lemma UpgradeStaysSolvent(bumps: Bumps, s: State, c: UpgradeCall, vk: Pubkey)
    requires OwnWallet(s, vk) && Covered(s, Upgrade(c), vk)
    requires UpgradeStep(bumps, s, c).Ok?
    ensures Solvent(UpgradeStep(bumps, s, c).value, vk) && KeepsWallet(s, UpgradeStep(bumps, s, c).value, vk)
  {
    hide UpgradeStep, Slack, Cost;
    UpgradeKeepsWallet(bumps, s, c, vk);
    UpgradeCosts(bumps, s, c, vk);
  }

  lemma OwnsIt(s: State, vk: Pubkey)
    requires OwnWallet(s, vk)
    ensures vk in s.vaults
  {
  }

  lemma ExecStaysSolvent(bumps: Bumps, s: State, c: Call, vk: Pubkey)
    requires Sound(bumps, s, vk) && Solvent(s, vk)
    requires CoveredIfRun(bumps, s, c, vk) && PassesOnlyLive(bumps, s, c, vk)
    ensures Solvent(Exec(bumps, s, c), vk) && OwnWallet(Exec(bumps, s, c), vk)
  {
    hide Solvent, PlacedOk, CountRight, ClaimsOk, CapsOk, OwnWallet, EnvStep, SessionStep, UpgradeStep, TabStep,
         ClaimStep, CreditStep, ExitStep, OnePath, Slack, Cost, PassesLive;
    OwnsIt(s, vk);
    if Step(bumps, s, c).Ok? {
      match c
      case Env(e) => EnvStaysSolvent(s, e, vk);
      case Session(e) =>
        SessionKeepsWallet(bumps, s, e, vk);
        if !e.Registers? { TeardownStaysSolvent(bumps, s, e, vk); }
        else if e.vk == vk { RegisterStaysSolvent(bumps, s, e, vk); }
        else { OtherRegisterStaysSolvent(bumps, s, e, vk); }
      case Upgrade(e) => UpgradeStaysSolvent(bumps, s, e, vk);
      case Tab(e) => TabStaysSolvent(bumps, s, e, vk);
      case Claim(e) => ClaimStaysSolvent(bumps, s, e, vk);
      case Credit(e) => CreditStaysSolvent(s, e, vk);
      case Exit(e) => ExitStaysSolvent(s, e, vk);
    }
  }

  /** Where runs start: vaults of any version, no session accounts yet, and everything else in order. */
  ghost predicate Begins(bumps: Bumps, s: State) {
    && s.now >= 0 && s.sessions == map[]
    && PlacedOk(bumps, s) && (forall v :: CountRight(s, v))
    && ClaimsOk(s) && Epoch.InlineOk(s)
  }

  /** Such a start is any state without session accounts in which no vault counts one. */
  lemma BeginsIffNothingCounted(bumps: Bumps, s: State)
    requires s.now >= 0 && s.sessions == map[] && ClaimsOk(s) && Epoch.InlineOk(s)
    ensures Begins(bumps, s) <==> forall v :: v in s.vaults ==> s.vaults[v].liveSessions == 0
  {
    NoSessionsNoCounts(bumps, s);
  }

  lemma GenesisBegins(bumps: Bumps)
    ensures Begins(bumps, GENESIS)
  {
  }

  /** The caps hold in every run, by the epoch accounting. */
  lemma RunKeepsCaps(bumps: Bumps, start: State, calls: seq<Call>)
    requires start.sessions == map[] && Epoch.InlineOk(start)
    ensures CapsOk(Run(bumps, start, calls))
  {
    hide Run, Epoch.InlineOk;
    var s := Run(bumps, start, calls);
    forall a | a in s.sessions && s.sessions[a].version != 0
      ensures s.sessions[a].reg.Frontier() <= s.sessions[a].reg.maxAmount
    {
      Epoch.RunIsAccounted(bumps, start, calls, a);
    }
  }

  lemma RunStaysSound(bumps: Bumps, start: State, calls: seq<Call>, vk: Pubkey)
    requires Begins(bumps, start) && OnlyLive(bumps, start, calls, vk)
    ensures RightFor(bumps, Run(bumps, start, calls), vk)
    ensures ClaimsOk(Run(bumps, start, calls)) && CapsOk(Run(bumps, start, calls))
  {
    hide Run, PlacedOk, CountRight, ClaimsOk, CapsOk, OnlyLive;
    RunKeepsCount(bumps, start, calls, vk);
    RunKeepsClaimsOk(bumps, start, calls);
    RunKeepsCaps(bumps, start, calls);
  }

  /** Only a call that succeeds is asked to be covered. */
  ghost predicate CoveredIfRun(bumps: Bumps, s: State, c: Call, vk: Pubkey) {
    vk in s.vaults && Step(bumps, s, c).Ok? ==> Covered(s, c, vk)
  }

  ghost predicate CoveredFrom(bumps: Bumps, start: State, calls: seq<Call>, from: nat, vk: Pubkey) {
    forall i :: from <= i < |calls| ==> CoveredIfRun(bumps, Run(bumps, start, calls[..i]), calls[i], vk)
  }

  lemma CoveredPrefix(bumps: Bumps, start: State, calls: seq<Call>, from: nat, vk: Pubkey, n: nat)
    requires CoveredFrom(bumps, start, calls, from, vk) && n <= |calls|
    ensures CoveredFrom(bumps, start, calls[..n], from, vk)
  {
    hide CoveredIfRun, Run;
    forall i | from <= i < n
      ensures CoveredIfRun(bumps, Run(bumps, start, calls[..n][..i]), calls[..n][i], vk)
    {
      assert calls[..n][..i] == calls[..i];
    }
  }

  /** From the moment a vault is bound to a wallet of its own and solvent, every covered run keeps its locked
      claims and the remaining room of its unexpired sessions within the wallet's balance. */
  lemma {:induction false} RunStaysSolvent(bumps: Bumps, start: State, calls: seq<Call>, from: nat, vk: Pubkey)
    requires Begins(bumps, start) && OnlyLive(bumps, start, calls, vk)
    requires from <= |calls| && CoveredFrom(bumps, start, calls, from, vk)
    requires Solvent(Run(bumps, start, calls[..from]), vk) && OwnWallet(Run(bumps, start, calls[..from]), vk)
    ensures Solvent(Run(bumps, start, calls), vk) && OwnWallet(Run(bumps, start, calls), vk)
    ensures Sound(bumps, Run(bumps, start, calls), vk)
    decreases |calls|
  {
    hide Begins, Solvent, OwnWallet, CoveredIfRun, Exec, PlacedOk, CountRight, ClaimsOk, CapsOk, PassesOnlyLive;
    RunStaysSound(bumps, start, calls, vk);
    if from == |calls| {
      assert calls[..from] == calls;
    } else {
      var n := |calls| - 1;
      var before := calls[..n];
      assert before[..from] == calls[..from];
      CoveredPrefix(bumps, start, calls, from, vk, n);
      OnlyLivePrefix(bumps, start, calls, vk, n);
      assert PassesOnlyLive(bumps, Run(bumps, start, before), calls[n], vk);
      RunStaysSolvent(bumps, start, before, from, vk);
      OwnsIt(Run(bumps, start, before), vk);
      ExecStaysSolvent(bumps, Run(bumps, start, before), calls[n], vk);
    }
  }

  // ---- What solvency buys --------------------------------------------------------------------

  lemma ExposureIsCovered(s: State, vk: Pubkey, sk: Pubkey)
    requires CapsOk(s) && Solvent(s, vk)
    requires sk in s.sessions
    ensures Exposure(s.now, vk)(s.sessions[sk]) + s.vaults[vk].outstandingLocked <= s.Balance(s.vaults[vk].swig)
  {
    hide Sum;
    SumNonNegative(s.sessions, Exposure(s.now, vk));
  }

  /** A tab settlement along its own path is always covered by the transfer that follows it. */
  lemma SettleTabIsCovered(bumps: Bumps, s: State, c: TabCall, vk: Pubkey)
    requires Sound(bumps, s, vk) && Solvent(s, vk)
    requires c.SettlesTab? && c.vk == vk && OnePath(s, c, vk)
    ensures TabStep(s, c) != Err(InsufficientFunds)
  {
    hide PlacedOk, CountRight, ClaimsOk, SessionAddress, Solvent, CapsOk, Sum;
    if c.sk in s.sessions && SessionAt(s, vk, c.sk, c.counterparty).Ok? {
      SeedsNameTheVault(bumps, s, vk, c.sk, c.counterparty);
      ExposureIsCovered(s, vk, c.sk);
    }
  }

  /** Lock's over-commit check never fires along the lock path. */
  lemma LockNeverOvercommits(bumps: Bumps, s: State, c: TabCall, vk: Pubkey)
    requires Sound(bumps, s, vk) && Solvent(s, vk)
    requires c.Locks? && c.vk == vk && OnePath(s, c, vk)
    ensures TabStep(s, c) != Err(LockWouldOvercommitVault)
  {
    hide PlacedOk, CountRight, ClaimsOk, SessionAddress, ClaimAddress, Solvent, CapsOk, Sum;
    if c.sk in s.sessions && SessionAt(s, vk, c.sk, c.args.counterparty).Ok? {
      SeedsNameTheVault(bumps, s, vk, c.sk, c.args.counterparty);
      ExposureIsCovered(s, vk, c.sk);
    }
  }

  /** A matured claim is always covered by the transfer that settles it. */
  lemma SettleLockedIsCovered(bumps: Bumps, s: State, c: ClaimCall, vk: Pubkey)
    requires Sound(bumps, s, vk) && Solvent(s, vk)
    requires c.SettlesLocked? && c.vk == vk
    ensures ClaimStep(s, c) != Err(InsufficientFunds)
  {
    hide PlacedOk, CountRight, ClaimsOk, CapsOk, Sum;
    if c.ck in s.claims && s.claims[c.ck].status == Pending && s.claims[c.ck].vault == vk {
      PendingIsReserved(s, c.ck);
      ExposedNonNegative(s, vk);
    }
  }

  lemma ExposedNonNegative(s: State, vk: Pubkey)
    requires CapsOk(s)
    ensures Exposed(s, vk) >= 0
  {
    SumNonNegative(s.sessions, Exposure(s.now, vk));
  }

  /** A vault that has locked nothing and has no live session is solvent, whatever its balance. */
  lemma IdleIsSolvent(s: State, vk: Pubkey)
    requires vk in s.vaults && s.vaults[vk].outstandingLocked == 0 && LiveSet(s, vk) == {}
    ensures Solvent(s, vk)
  {
    assert forall a :: a in s.sessions && s.sessions[a].LiveFor(vk) ==> a in LiveSet(s, vk);
    NothingExposed(s, vk);
  }
}
