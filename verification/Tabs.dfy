/** The vouchers a vault still awaits, counted from its history alone. */
module Tabs {
  import opened Prelude
  import opened State
  import opened Protocol
  import opened Specification
  import opened Refinement
  import opened Withdrawal

  /** What one instruction that goes through does to the number of vouchers vault `vk` awaits: a tab opened adds one,
      unless the count is full; a release takes one; a settlement takes one if there is one. */
  function Counts(c: Call, vk: Pubkey, awaited: int): int {
    match c
    case Env(Initializes(k, _, _, _)) => if k == vk then 0 else awaited
    case Tab(SettlesVoucher(k, _, _, _, increment, _)) =>
      if k != vk then awaited else if increment then Min(awaited + 1, U32_MAX) else awaited - 1
    case Tab(SettlesTab(k, _, _, _, _, _)) => if k == vk then Max(0, awaited - 1) else awaited
    case Exit(ForceReleases(k, _)) => if k == vk then awaited - 1 else awaited
    case _ => awaited
  }

  function Pending(s: State, vk: Pubkey): int { if vk in s.vaults then s.vaults[vk].pendingVouchers else 0 }

  ghost function Awaited(bumps: Bumps, start: State, calls: seq<Call>, vk: Pubkey): int {
    if calls == [] then Pending(start, vk)
    else
      var n := |calls| - 1;
      var before := Awaited(bumps, start, calls[..n], vk);
      if Step(bumps, Run(bumps, start, calls[..n]), calls[n]).Ok? then Counts(calls[n], vk, before) else before
  }

  lemma EnvCounts(s: State, s': State, c: EnvCall, vk: Pubkey)
    requires EnvRefusal(s, c).None? && EnvLeaves(s, s', c)
    ensures Pending(s', vk) == Counts(Env(c), vk, Pending(s, vk))
  {
  }

  lemma SessionCounts(bumps: Bumps, s: State, s': State, c: SessionCall, vk: Pubkey)
    requires SessionLeaves(bumps, s, s', c)
    ensures Pending(s', vk) == Pending(s, vk)
  {
    hide SessionAddress;
  }

  lemma UpgradeCounts(bumps: Bumps, s: State, s': State, c: UpgradeCall, vk: Pubkey)
    requires UpgradeLeaves(bumps, s, s', c)
    ensures Pending(s', vk) == Pending(s, vk)
  {
    hide SessionAddress;
  }

  lemma TabCounts(s: State, s': State, c: TabCall, vk: Pubkey)
    requires TabLeaves(s, s', c)
    ensures Pending(s', vk) == Counts(Tab(c), vk, Pending(s, vk))
  {
    hide ClaimAddress;
  }

  lemma ClaimCounts(s: State, s': State, c: ClaimCall, vk: Pubkey)
    requires ClaimLeaves(s, s', c)
    ensures Pending(s', vk) == Pending(s, vk)
  {
  }

  lemma CreditCounts(s: State, s': State, c: CreditCall, vk: Pubkey)
    requires CreditLeaves(s, s', c)
    ensures Pending(s', vk) == Pending(s, vk)
  {
  }

  lemma ExitCounts(s: State, s': State, c: ExitCall, vk: Pubkey)
    requires ExitLeaves(s, s', c)
    ensures Pending(s', vk) == Counts(Exit(c), vk, Pending(s, vk))
  {
  }

  lemma StepCounts(bumps: Bumps, s: State, c: Call, vk: Pubkey)
    requires Step(bumps, s, c).Ok?
    ensures Pending(Step(bumps, s, c).value, vk) == Counts(c, vk, Pending(s, vk))
  {
    hide Step, Pending, EnvRefusal, SessionRefusal, UpgradeRefusal, TabRefusal, ClaimRefusal, CreditRefusal,
         ExitRefusal, EnvLeaves, SessionLeaves, UpgradeLeaves, TabLeaves, ClaimLeaves, CreditLeaves, ExitLeaves;
    StepMeets(bumps, s, c);
    var s' := Step(bumps, s, c).value;
    match c
    case Env(e) => EnvCounts(s, s', e, vk);
    case Session(e) => SessionCounts(bumps, s, s', e, vk);
    case Upgrade(e) => UpgradeCounts(bumps, s, s', e, vk);
    case Tab(e) => TabCounts(s, s', e, vk);
    case Claim(e) => ClaimCounts(s, s', e, vk);
    case Credit(e) => CreditCounts(s, s', e, vk);
    case Exit(e) => ExitCounts(s, s', e, vk);
  }

  /** In every run the vault's count is the tabs opened on it less the releases and settlements. */
  lemma {:induction false} RunCountsTabs(bumps: Bumps, start: State, calls: seq<Call>, vk: Pubkey)
    ensures Pending(Run(bumps, start, calls), vk) == Awaited(bumps, start, calls, vk)
    decreases |calls|
  {
    if calls == [] {
    } else {
      hide Step, Pending, Counts;
      var n := |calls| - 1;
      RunCountsTabs(bumps, start, calls[..n], vk);
      if Step(bumps, Run(bumps, start, calls[..n]), calls[n]).Ok? {
        StepCounts(bumps, Run(bumps, start, calls[..n]), calls[n], vk);
      }
    }
  }

  /** So in every run a withdrawal is finalized exactly when, besides the rest, no tab opened on the vault is still
      waiting for its settlement or release. */
  lemma FinalizesWithNoTabOpen(bumps: Bumps, start: State, calls: seq<Call>, vk: Pubkey, passkeyOk: bool)
    ensures FinalizeWithdrawal(Run(bumps, start, calls), vk, passkeyOk).Ok?
      <==> MayFinalize(Run(bumps, start, calls), vk, passkeyOk, Awaited(bumps, start, calls, vk))
  {
    hide Run, Awaited, FinalizeWithdrawal;
    RunCountsTabs(bumps, start, calls, vk);
    FinalizeIff(Run(bumps, start, calls), vk, passkeyOk);
  }
}
