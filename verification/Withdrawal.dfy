/** Withdrawals take their time: what finalize and force_release consume was requested long enough ago. */
module Withdrawal {
  import opened Prelude
  import opened State
  import opened Protocol
  import opened SessionCount

  /** The clock at the last successful request_withdrawal of the vault in the run. */
  ghost function RequestedAt(bumps: Bumps, start: State, calls: seq<Call>, vk: Pubkey): Option<int> {
    if calls == [] then None
    else
      var n := |calls| - 1;
      var s := Run(bumps, start, calls[..n]);
      var c := calls[n];
      if c.Exit? && c.exit.Requests? && c.exit.vk == vk && Step(bumps, s, c).Ok? then Some(s.now)
      else RequestedAt(bumps, start, calls[..n], vk)
  }

  /** A pending withdrawal that was requested at `at` carries a timestamp within the drift bound of it; without
      a request it is the one that was there at the start. */
  ghost predicate Stamped(s: State, vk: Pubkey, first: Option<PendingWithdrawal>, at: Option<int>) {
    && (at.Some? ==> at.value <= s.now)
    && (vk in s.vaults && s.vaults[vk].pendingWithdrawal.Some? ==>
          if at.None? then s.vaults[vk].pendingWithdrawal == first
          else
            var stamp := s.vaults[vk].pendingWithdrawal.value.requestedAt;
            at.value - MAX_REQUEST_DRIFT <= stamp <= at.value + MAX_REQUEST_DRIFT)
  }

  function PendingOf(s: State, vk: Pubkey): Option<PendingWithdrawal> {
    if vk in s.vaults then s.vaults[vk].pendingWithdrawal else None
  }

  ghost predicate SamePending(s: State, s': State, vk: Pubkey) {
    && s.now <= s'.now
    && (vk in s'.vaults && s'.vaults[vk].pendingWithdrawal.Some? ==>
          vk in s.vaults && s.vaults[vk].pendingWithdrawal == s'.vaults[vk].pendingWithdrawal)
  }

  lemma EnvKeepsPending(s: State, c: EnvCall, vk: Pubkey)
    requires EnvStep(s, c).Ok?
    ensures SamePending(s, EnvStep(s, c).value, vk)
  {
  }

  lemma SessionKeepsPending(bumps: Bumps, s: State, c: SessionCall, vk: Pubkey)
    requires SessionStep(bumps, s, c).Ok?
    ensures SamePending(s, SessionStep(bumps, s, c).value, vk)
  {
    hide ScanSiblings, RegisterTarget, SessionOrZero, FreshRegistration, SessionAddress;
  }

  lemma UpgradeKeepsPending(bumps: Bumps, s: State, c: UpgradeCall, vk: Pubkey)
    requires UpgradeStep(bumps, s, c).Ok?
    ensures SamePending(s, UpgradeStep(bumps, s, c).value, vk)
  {
    hide RegisterTarget;
  }

  lemma TabKeepsPending(s: State, c: TabCall, vk: Pubkey)
    requires TabStep(s, c).Ok?
    ensures SamePending(s, TabStep(s, c).value, vk)
  {
    hide SessionAddress, ClaimAddress;
  }

  lemma ClaimKeepsPending(s: State, c: ClaimCall, vk: Pubkey)
    requires ClaimStep(s, c).Ok?
    ensures SamePending(s, ClaimStep(s, c).value, vk)
  {
  }

  lemma CreditKeepsPending(s: State, c: CreditCall, vk: Pubkey)
    requires CreditStep(s, c).Ok?
    ensures SamePending(s, CreditStep(s, c).value, vk)
  {
  }

  lemma ExitStaysStamped(s: State, c: ExitCall, vk: Pubkey, first: Option<PendingWithdrawal>, at: Option<int>)
    requires ExitStep(s, c).Ok?
    requires Stamped(s, vk, first, at)
    ensures Stamped(ExitStep(s, c).value, vk, first, if c.Requests? && c.vk == vk then Some(s.now) else at)
  {
  }

  lemma StepStaysStamped(bumps: Bumps, s: State, c: Call, vk: Pubkey, first: Option<PendingWithdrawal>, at: Option<int>)
    requires Step(bumps, s, c).Ok?
    requires Stamped(s, vk, first, at)
    ensures Stamped(Step(bumps, s, c).value, vk, first,
                    if c.Exit? && c.exit.Requests? && c.exit.vk == vk then Some(s.now) else at)
  {
    hide EnvStep, SessionStep, UpgradeStep, TabStep, ClaimStep, CreditStep, ExitStep;
    match c
    case Env(e) => EnvKeepsPending(s, e, vk);
    case Session(e) => SessionKeepsPending(bumps, s, e, vk);
    case Upgrade(e) => UpgradeKeepsPending(bumps, s, e, vk);
    case Tab(e) => TabKeepsPending(s, e, vk);
    case Claim(e) => ClaimKeepsPending(s, e, vk);
    case Credit(e) => CreditKeepsPending(s, e, vk);
    case Exit(e) => ExitStaysStamped(s, e, vk, first, at);
  }

  lemma {:induction false} RunStaysStamped(bumps: Bumps, start: State, calls: seq<Call>, vk: Pubkey)
    ensures Stamped(Run(bumps, start, calls), vk, PendingOf(start, vk), RequestedAt(bumps, start, calls, vk))
    decreases |calls|
  {
    if calls == [] {
    } else {
      hide Stamped, Step;
      var n := |calls| - 1;
      RunStaysStamped(bumps, start, calls[..n], vk);
      var s := Run(bumps, start, calls[..n]);
      if Step(bumps, s, calls[n]).Ok? {
        StepStaysStamped(bumps, s, calls[n], vk, PendingOf(start, vk), RequestedAt(bumps, start, calls[..n], vk));
      }
    }
  }

  /** What a withdrawal must meet when `open` vouchers are awaited. */
  predicate MayFinalize(s: State, vk: Pubkey, passkeyOk: bool, open: int) {
    && vk in s.vaults && s.vaults[vk].pendingWithdrawal.Some?
    && var v, pending := s.vaults[vk], s.vaults[vk].pendingWithdrawal.value;
    && open == 0
    && v.swig != DEFAULT_KEY && 2 <= v.version <= 6
    && (v.coolingOffSeconds > 0 ==> s.now >= pending.requestedAt + v.coolingOffSeconds)
    && s.Balance(v.swig) - pending.amount >= v.outstandingLocked + v.borrowed
    && passkeyOk
  }

  /** Exactly when a withdrawal is finalized: no voucher is awaited, the vault has a wallet, the cooling-off is over,
      and what is left covers the locked claims and the open loan. */
  lemma FinalizeIff(s: State, vk: Pubkey, passkeyOk: bool)
    ensures FinalizeWithdrawal(s, vk, passkeyOk).Ok?
      <==> vk in s.vaults && MayFinalize(s, vk, passkeyOk, s.vaults[vk].pendingVouchers)
  {
  }

  /** No withdrawal is finalized before the cooling-off after its request, less the drift bound; one pending at the
      start waits out the cooling-off from the timestamp it carries, if there is any to wait out. What the wallet holds
      afterwards still covers the locked claims and the open loan. */
  lemma FinalizeWaits(bumps: Bumps, start: State, calls: seq<Call>, vk: Pubkey, passkeyOk: bool)
    requires 0 <= start.now
    ensures FinalizeWithdrawal(Run(bumps, start, calls), vk, passkeyOk).Ok? ==>
      var s := Run(bumps, start, calls);
      var s' := FinalizeWithdrawal(s, vk, passkeyOk).value;
      var at := RequestedAt(bumps, start, calls, vk);
      && vk in s.vaults && vk in s'.vaults
      && var wait := s.vaults[vk].coolingOffSeconds;
      && (if at.Some? then s.now >= at.value && s.now >= at.value + wait - MAX_REQUEST_DRIFT
          else PendingOf(start, vk).Some? && (wait > 0 ==> s.now >= PendingOf(start, vk).value.requestedAt + wait))
      && s'.vaults[vk].pendingWithdrawal.None?
      && s'.Balance(s'.vaults[vk].swig) >= s'.vaults[vk].outstandingLocked + s'.vaults[vk].borrowed
  {
    hide Run, RequestedAt;
    RunStaysStamped(bumps, start, calls, vk);
    RunKeepsClock(bumps, start, calls);
  }

  /** No voucher is force-released before the grace period after the buyer's request, less the drift bound, or after
      the timestamp of a request pending at the start. */
  lemma ForceReleaseWaits(bumps: Bumps, start: State, calls: seq<Call>, vk: Pubkey, passkeyOk: bool)
    requires 0 <= start.now
    ensures ForceRelease(Run(bumps, start, calls), vk, passkeyOk).Ok? ==>
      var at := RequestedAt(bumps, start, calls, vk);
      if at.Some? then Run(bumps, start, calls).now >= at.value + FORCE_RELEASE_GRACE_SECONDS - MAX_REQUEST_DRIFT
      else PendingOf(start, vk).Some?
           && Run(bumps, start, calls).now >= PendingOf(start, vk).value.requestedAt + FORCE_RELEASE_GRACE_SECONDS
  {
    hide Run, RequestedAt;
    RunStaysStamped(bumps, start, calls, vk);
    RunKeepsClock(bumps, start, calls);
  }
}
