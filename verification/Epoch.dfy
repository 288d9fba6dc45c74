/** One registration epoch of a session: what the two terminal paths accepted since the session was
    last registered, and how the odometers account for it. */
module Epoch {
  import opened Prelude
  import opened State
  import opened Protocol
  import opened SiblingScan
  import SessionCount

  /** `accepted` are the vouchers' cumulative amounts in order; `paid` the amounts the wallet was debited by tab
      settlements and `locked` the amounts of the claims created, since registration; `open` what the tabs opened
      added, less what each settlement paid and each lock claimed, every such release stopping at zero. */
  datatype Log = Log(accepted: seq<int>, paid: int, locked: int, open: int)

  const FRESH := Log([], 0, 0, 0)

  /** A session that comes out of a migration keeps its odometers: its log starts where they stand. */
  function Carried(r: SessionRegistration): Log {
    Log(if r.Frontier() == 0 then [] else [r.Frontier()], r.spent, r.crystallized, r.currentOutstanding)
  }

  /** Observes a successful step from `s` to `s'`: amounts are read off the balance and the claim. */
  ghost function Observe(bumps: Bumps, s: State, c: Call, s': State, a: Pubkey, log: Log): Log {
    if a !in s'.sessions || s'.sessions[a].version == 0 then FRESH
    else match c
      case Session(Registers(vk, args, _, _)) =>
        if RegisterTarget(bumps, vk, args.counterparty) == a then FRESH else log
      case Upgrade(MigratesWithSession(vk, cp, _)) =>
        if RegisterTarget(bumps, vk, cp) == a then Carried(s'.sessions[a].reg) else log
      case Tab(SettlesVoucher(_, osk, _, amount, increment, _)) =>
        if osk == Some(a) && increment then log.(open := log.open + amount) else log
      case Tab(SettlesTab(vk, sk, _, cumulative, _, _)) =>
        if sk == a && vk in s.vaults then
          var debit := s.Balance(s.vaults[vk].swig) - s'.Balance(s.vaults[vk].swig);
          log.(accepted := log.accepted + [cumulative], paid := log.paid + debit, open := Max(0, log.open - debit))
        else log
      case Tab(Locks(vk, sk, args, _, _, _, _)) =>
        var ck := ClaimAddress(vk, args.voucherHash);
        if sk == a && ck in s'.claims then
          var amount := s'.claims[ck].amount;
          log.(accepted := log.accepted + [args.cumulative], locked := log.locked + amount,
               open := Max(0, log.open - amount))
        else log
      case _ => log
  }

  ghost function LogOf(bumps: Bumps, start: State, calls: seq<Call>, a: Pubkey): Log {
    if calls == [] then FRESH
    else
      var before := calls[..|calls| - 1];
      var c := calls[|calls| - 1];
      var s := Run(bumps, start, before);
      match Step(bumps, s, c)
      case Ok(s') => Observe(bumps, s, c, s', a, LogOf(bumps, start, before, a))
      case Err(_) => LogOf(bumps, start, before, a)
  }

  ghost predicate StrictlyIncreasing(xs: seq<int>) {
    forall i, j :: 0 <= i < j < |xs| ==> xs[i] < xs[j]
  }

  function LastOr0(xs: seq<int>): int {
    if xs == [] then 0 else xs[|xs| - 1]
  }

  ghost predicate Accounted(r: SessionRegistration, log: Log) {
    && StrictlyIncreasing(log.accepted)
    && (forall i :: 0 <= i < |log.accepted| ==> log.accepted[i] > 0)
    && LastOr0(log.accepted) == r.Frontier() <= r.maxAmount
    && log.paid == r.spent
    && log.locked == r.crystallized
    && log.open == r.currentOutstanding <= r.maxRevolving
  }

  ghost predicate EpochOk(s: State, a: Pubkey, log: Log) {
    if a in s.sessions && s.sessions[a].version != 0 then Accounted(s.sessions[a].reg, log) else log == FRESH
  }

  /** The inline sessions that are still to be migrated are within their caps. */
  ghost predicate InlineOk(s: State) {
    forall v :: v in s.vaults && s.vaults[v].activeSession.Some? ==>
      var r := s.vaults[v].activeSession.value;
      r.Frontier() <= r.maxAmount && r.currentOutstanding <= r.maxRevolving
  }

  lemma Extend(xs: seq<int>, x: int)
    requires StrictlyIncreasing(xs) && x > LastOr0(xs)
    ensures StrictlyIncreasing(xs + [x])
    ensures LastOr0(xs + [x]) == x
  {
  }

  lemma RegisterObserved(bumps: Bumps, s: State, c: SessionCall, a: Pubkey, log: Log)
    requires c.Registers? && SessionStep(bumps, s, c).Ok?
    requires EpochOk(s, a, log)
    ensures EpochOk(SessionStep(bumps, s, c).value, a,
                    Observe(bumps, s, Session(c), SessionStep(bumps, s, c).value, a, log))
  {
    hide RegisterSessionKey, RegisterTarget, ScanSiblings, Keys, CapSum, UnexpiredAmong, SiblingOk;
    var target := RegisterTarget(bumps, c.vk, c.args.counterparty);
    SessionCount.RegisterYields(bumps, s, c.vk, c.args, c.refs, c.passkeyOk);
    SessionCount.RegisterUnfolds(bumps, s, c.vk, c.args, c.refs, c.passkeyOk);
    ScanEstablishes(s.now, c.vk, target, s.sessions, c.refs);
  }

  lemma SessionObserved(bumps: Bumps, s: State, c: SessionCall, a: Pubkey, log: Log)
    requires SessionStep(bumps, s, c).Ok?
    requires EpochOk(s, a, log)
    ensures EpochOk(SessionStep(bumps, s, c).value, a,
                    Observe(bumps, s, Session(c), SessionStep(bumps, s, c).value, a, log))
  {
    hide RegisterSessionKey, SessionAddress;
    if c.Registers? {
      RegisterObserved(bumps, s, c, a, log);
    }
  }

  lemma SettleTabObserved(bumps: Bumps, s: State, c: TabCall, a: Pubkey, log: Log)
    requires c.SettlesTab? && TabStep(s, c).Ok?
    requires EpochOk(s, a, log)
    ensures EpochOk(TabStep(s, c).value, a, Observe(bumps, s, Tab(c), TabStep(s, c).value, a, log))
  {
    hide SessionAddress, LockVoucher, SettleVoucher;
    if c.sk == a {
      Extend(log.accepted, c.cumulative);
    }
  }

  lemma LockObserved(bumps: Bumps, s: State, c: TabCall, a: Pubkey, log: Log)
    requires c.Locks? && TabStep(s, c).Ok?
    requires EpochOk(s, a, log)
    ensures EpochOk(TabStep(s, c).value, a, Observe(bumps, s, Tab(c), TabStep(s, c).value, a, log))
  {
    hide SessionAddress, ClaimAddress, SettleTabVoucher, SettleVoucher;
    if c.sk == a {
      Extend(log.accepted, c.args.cumulative);
    }
  }

  lemma TabObserved(bumps: Bumps, s: State, c: TabCall, a: Pubkey, log: Log)
    requires TabStep(s, c).Ok?
    requires EpochOk(s, a, log)
    ensures EpochOk(TabStep(s, c).value, a, Observe(bumps, s, Tab(c), TabStep(s, c).value, a, log))
  {
    hide SessionAddress, LockVoucher, SettleTabVoucher;
    match c
    case SettlesVoucher(_, _, _, _, _, _) =>
    case SettlesTab(_, _, _, _, _, _) => SettleTabObserved(bumps, s, c, a, log);
    case Locks(_, _, _, _, _, _, _) => LockObserved(bumps, s, c, a, log);
  }

  lemma EnvKeepsSessions(s: State, c: EnvCall)
    requires EnvStep(s, c).Ok?
    ensures EnvStep(s, c).value.sessions == s.sessions
  {
  }

  lemma ClaimKeepsSessions(s: State, c: ClaimCall)
    requires ClaimStep(s, c).Ok?
    ensures ClaimStep(s, c).value.sessions == s.sessions
  {
  }

  lemma CreditKeepsSessions(s: State, c: CreditCall)
    requires CreditStep(s, c).Ok?
    ensures CreditStep(s, c).value.sessions == s.sessions
  {
  }

  lemma ExitKeepsSessions(s: State, c: ExitCall)
    requires ExitStep(s, c).Ok?
    ensures ExitStep(s, c).value.sessions == s.sessions
  {
  }

  lemma CarriedIsAccounted(r: SessionRegistration)
    requires r.Frontier() <= r.maxAmount && r.currentOutstanding <= r.maxRevolving
    ensures Accounted(r, Carried(r))
  {
  }

  lemma UpgradeObserved(bumps: Bumps, s: State, c: UpgradeCall, a: Pubkey, log: Log)
    requires UpgradeStep(bumps, s, c).Ok?
    requires EpochOk(s, a, log) && InlineOk(s)
    ensures EpochOk(UpgradeStep(bumps, s, c).value, a,
                    Observe(bumps, s, Upgrade(c), UpgradeStep(bumps, s, c).value, a, log))
  {
    hide SessionAddress, Accounted, Carried;
    if c.MigratesWithSession? && RegisterTarget(bumps, c.vk, c.counterparty) == a {
      CarriedIsAccounted(s.vaults[c.vk].activeSession.value);
    }
  }

  lemma StepObserved(bumps: Bumps, s: State, c: Call, a: Pubkey, log: Log)
    requires Step(bumps, s, c).Ok?
    requires EpochOk(s, a, log) && InlineOk(s)
    ensures EpochOk(Step(bumps, s, c).value, a, Observe(bumps, s, c, Step(bumps, s, c).value, a, log))
  {
    hide SessionStep, UpgradeStep, TabStep, EnvStep, ClaimStep, CreditStep, ExitStep, Accounted, Carried;
    match c
    case Session(e) => SessionObserved(bumps, s, e, a, log);
    case Upgrade(e) => UpgradeObserved(bumps, s, e, a, log);
    case Tab(e) => TabObserved(bumps, s, e, a, log);
    case Env(e) => EnvKeepsSessions(s, e);
    case Claim(e) => ClaimKeepsSessions(s, e);
    case Credit(e) => CreditKeepsSessions(s, e);
    case Exit(e) => ExitKeepsSessions(s, e);
  }

  lemma StepKeepsInline(bumps: Bumps, s: State, c: Call)
    requires InlineOk(s) && Step(bumps, s, c).Ok?
    ensures InlineOk(Step(bumps, s, c).value)
  {
    hide RegisterSessionKey, EnvStep, UpgradeStep, TabStep, ClaimStep, CreditStep, ExitStep, SessionAddress;
    match c
    case Env(e) => if e.Initializes? { InitializeKeepsInline(s, e); } else { SessionCount.EnvKeepsShape(s, e); }
    case Session(Registers(vk, a, refs, ok)) =>
      SessionCount.RegisterUnfolds(bumps, s, vk, a, refs, ok);
      SessionCount.RegisterYields(bumps, s, vk, a, refs, ok);
    case Session(_) =>
    case Upgrade(e) => UpgradeKeepsInline(bumps, s, e);
    case Tab(e) => SessionCount.TabKeepsShape(s, e);
    case Claim(e) => SessionCount.ClaimKeepsShape(s, e);
    case Credit(e) => SessionCount.CreditKeepsShape(s, e);
    case Exit(e) => SessionCount.ExitKeepsShape(s, e);
  }

  lemma InitializeKeepsInline(s: State, c: EnvCall)
    requires InlineOk(s) && c.Initializes? && EnvStep(s, c).Ok?
    ensures InlineOk(EnvStep(s, c).value)
  {
  }

  lemma UpgradeKeepsInline(bumps: Bumps, s: State, c: UpgradeCall)
    requires InlineOk(s) && UpgradeStep(bumps, s, c).Ok?
    ensures InlineOk(UpgradeStep(bumps, s, c).value)
  {
    hide RegisterTarget;
  }

  /** In every run, and whichever mix of the two paths a session took since it was last registered:
      the accepted amounts strictly increase up to the frontier, which stays within the cap; the
      money the tab path moved is exactly `spent`, the claims the lock path created add up to exactly
      `crystallized_cumulative`; and the revolving meter is what the tabs opened added, less every payment and
      every claim as far as zero, and stays within its capacity. */
  lemma {:induction false} RunIsAccounted(bumps: Bumps, start: State, calls: seq<Call>, a: Pubkey)
    requires start.sessions == map[] && InlineOk(start)
    ensures InlineOk(Run(bumps, start, calls))
    ensures EpochOk(Run(bumps, start, calls), a, LogOf(bumps, start, calls, a))
    decreases |calls|
  {
    if calls == [] {
    } else {
      hide EpochOk, InlineOk, Step, Observe;
      var n := |calls| - 1;
      RunIsAccounted(bumps, start, calls[..n], a);
      var s := Run(bumps, start, calls[..n]);
      if Step(bumps, s, calls[n]).Ok? {
        StepObserved(bumps, s, calls[n], a, LogOf(bumps, start, calls[..n], a));
        StepKeepsInline(bumps, s, calls[n]);
      }
    }
  }
}
