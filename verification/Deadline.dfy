/** When the collateral of a loan may be seized: the recovery deadline from the draw that arms it to the seizure. */
module Deadline {
  import opened Prelude
  import opened State
  import opened Protocol
  import opened CreditLedger
  import opened Scenario

  // ---- A loan that stays open ----------------------------------------------------------------

  ghost predicate Owes(s: State, vk: Pubkey) {
    vk in s.vaults && s.vaults[vk].borrowed > 0
  }

  ghost predicate StaysOpen(bumps: Bumps, s: State, calls: seq<Call>, vk: Pubkey) {
    forall i :: 0 <= i <= |calls| ==> Owes(Run(bumps, s, calls[..i]), vk)
  }

  lemma LoanStepKeepsDeadline(s: State, c: CreditCall, vk: Pubkey)
    requires Owes(s, vk) && s.vaults[vk].borrowRecoveryAt.Some?
    requires CreditStep(s, c).Ok? && Owes(CreditStep(s, c).value, vk)
    ensures CreditStep(s, c).value.vaults[vk].borrowRecoveryAt == s.vaults[vk].borrowRecoveryAt
  {
  }

  lemma InitializeKeepsVaults(s: State, c: EnvCall, vk: Pubkey)
    requires c.Initializes? && EnvStep(s, c).Ok?
    requires vk in s.vaults
    ensures vk in EnvStep(s, c).value.vaults && EnvStep(s, c).value.vaults[vk] == s.vaults[vk]
  {
  }

  lemma ExecKeepsDeadline(bumps: Bumps, s: State, c: Call, vk: Pubkey)
    requires Owes(s, vk) && s.vaults[vk].borrowRecoveryAt.Some?
    requires Owes(Exec(bumps, s, c), vk)
    ensures Exec(bumps, s, c).vaults[vk].borrowRecoveryAt == s.vaults[vk].borrowRecoveryAt
  {
    hide EnvStep, SessionStep, UpgradeStep, TabStep, ClaimStep, CreditStep, ExitStep;
    if Step(bumps, s, c).Ok? {
      match c
      case Env(e) => if e.Initializes? { InitializeKeepsVaults(s, e, vk); } else { EnvKeepsCredit(s, e); }
      case Session(e) => SessionKeepsCredit(bumps, s, e);
      case Upgrade(e) => UpgradeKeepsCredit(bumps, s, e);
      case Tab(e) => TabKeepsCredit(s, e);
      case Claim(e) => ClaimKeepsCredit(s, e);
      case Credit(e) => LoanStepKeepsDeadline(s, e, vk);
      case Exit(e) => ExitKeepsCredit(s, e);
    }
  }

  /** While a loan stays open its deadline is armed and never moves. */
  lemma {:induction false} RunKeepsDeadline(bumps: Bumps, s: State, calls: seq<Call>, vk: Pubkey)
    requires CreditOk(s)
    requires StaysOpen(bumps, s, calls, vk)
    ensures vk in s.vaults && s.vaults[vk].borrowRecoveryAt.Some?
    ensures Owes(Run(bumps, s, calls), vk)
    ensures Run(bumps, s, calls).vaults[vk].borrowRecoveryAt == s.vaults[vk].borrowRecoveryAt
    decreases |calls|
  {
    hide CreditOk, Exec;
    assert calls[..|calls|] == calls;
    assert Owes(Run(bumps, s, calls[..0]), vk);
    OwesArmed(s, vk);
    if calls != [] {
      var n := |calls| - 1;
      forall i | 0 <= i <= n ensures Owes(Run(bumps, s, calls[..n][..i]), vk) {
        assert calls[..n][..i] == calls[..i];
      }
      RunKeepsDeadline(bumps, s, calls[..n], vk);
      ExecKeepsDeadline(bumps, Run(bumps, s, calls[..n]), calls[n], vk);
    }
  }

  lemma OwesArmed(s: State, vk: Pubkey)
    requires CreditOk(s) && Owes(s, vk)
    ensures s.vaults[vk].borrowRecoveryAt.Some?
  {
    hide BackerOk;
    assert TermsOk(s.vaults[vk]);
  }

  /** So a seizure that ends a loan open since `s` happens no earlier than the deadline `s` held. */
  lemma SeizedAfterDeadline(bumps: Bumps, s: State, calls: seq<Call>, vk: Pubkey, authority: Pubkey)
    requires CreditOk(s)
    ensures StaysOpen(bumps, s, calls, vk) && SeizeCollateral(Run(bumps, s, calls), vk, authority).Ok? ==>
      && vk in s.vaults && s.vaults[vk].borrowRecoveryAt.Some?
      && Run(bumps, s, calls).now >= s.vaults[vk].borrowRecoveryAt.value
  {
    hide CreditOk, Run;
    if StaysOpen(bumps, s, calls, vk) {
      RunKeepsDeadline(bumps, s, calls, vk);
    }
  }

  // ---- The draw that arms it -----------------------------------------------------------------

  /** A deadline is armed exactly while something is owed. */
  ghost predicate Tight(s: State, vk: Pubkey) {
    vk in s.vaults ==> (s.vaults[vk].borrowRecoveryAt.Some? <==> s.vaults[vk].borrowed > 0)
  }

  /** A draw of nothing on a vault that owes nothing, which goes through. */
  ghost predicate EmptyDraw(bumps: Bumps, s: State, c: Call, vk: Pubkey) {
    c.Credit? && c.credit.Draws? && c.credit.vk == vk && c.credit.amount == 0 && !Owes(s, vk) && Step(bumps, s, c).Ok?
  }

  ghost predicate NoEmptyDraw(bumps: Bumps, s: State, calls: seq<Call>, vk: Pubkey) {
    forall i :: 0 <= i < |calls| ==> !EmptyDraw(bumps, Run(bumps, s, calls[..i]), calls[i], vk)
  }

  lemma LoanStepTight(bumps: Bumps, s: State, c: CreditCall, vk: Pubkey)
    requires Tight(s, vk)
    requires IsLoan(c) && CreditStep(s, c).Ok?
    ensures Tight(CreditStep(s, c).value, vk) <==> !EmptyDraw(bumps, s, Credit(c), vk)
  {
  }

  lemma StandbyStepTight(s: State, c: CreditCall, vk: Pubkey)
    requires Tight(s, vk)
    requires !IsLoan(c) && CreditStep(s, c).Ok?
    ensures Tight(CreditStep(s, c).value, vk)
  {
  }

  lemma InitializeTight(s: State, c: EnvCall, vk: Pubkey)
    requires Tight(s, vk)
    requires c.Initializes? && EnvStep(s, c).Ok?
    ensures Tight(EnvStep(s, c).value, vk)
  {
  }

  lemma ExecTight(bumps: Bumps, s: State, c: Call, vk: Pubkey)
    requires Tight(s, vk)
    ensures Tight(Exec(bumps, s, c), vk) <==> !EmptyDraw(bumps, s, c, vk)
  {
    hide EnvStep, SessionStep, UpgradeStep, TabStep, ClaimStep, CreditStep, ExitStep;
    if Step(bumps, s, c).Ok? {
      match c
      case Env(e) => if e.Initializes? { InitializeTight(s, e, vk); } else { EnvKeepsCredit(s, e); }
      case Session(e) => SessionKeepsCredit(bumps, s, e);
      case Upgrade(e) => UpgradeKeepsCredit(bumps, s, e);
      case Tab(e) => TabKeepsCredit(s, e);
      case Claim(e) => ClaimKeepsCredit(s, e);
      case Credit(e) => if IsLoan(e) { LoanStepTight(bumps, s, e, vk); } else { StandbyStepTight(s, e, vk); }
      case Exit(e) => ExitKeepsCredit(s, e);
    }
  }

  lemma NoEmptyDrawPrefix(bumps: Bumps, s: State, calls: seq<Call>, vk: Pubkey, n: nat)
    requires NoEmptyDraw(bumps, s, calls, vk) && n <= |calls|
    ensures NoEmptyDraw(bumps, s, calls[..n], vk)
  {
    hide EmptyDraw, Run;
    forall i | 0 <= i < n
      ensures !EmptyDraw(bumps, Run(bumps, s, calls[..n][..i]), calls[..n][i], vk)
    {
      assert calls[..n][..i] == calls[..i];
    }
  }

  lemma {:induction false} RunStaysTight(bumps: Bumps, s: State, calls: seq<Call>, vk: Pubkey)
    requires Tight(s, vk) && NoEmptyDraw(bumps, s, calls, vk)
    ensures Tight(Run(bumps, s, calls), vk)
    decreases |calls|
  {
    if calls == [] {
    } else {
      hide Tight, EmptyDraw, Exec;
      var n := |calls| - 1;
      NoEmptyDrawPrefix(bumps, s, calls, vk, n);
      RunStaysTight(bumps, s, calls[..n], vk);
      ExecTight(bumps, Run(bumps, s, calls[..n]), calls[n], vk);
    }
  }

  /** Exactly when "no deadline means nothing is borrowed" holds in both directions throughout a run: if and only if
      no draw of nothing succeeds on the vault while it owes nothing. */
  lemma TightIffNoEmptyDraw(bumps: Bumps, s: State, calls: seq<Call>, vk: Pubkey)
    requires Tight(s, vk)
    ensures (forall n :: 0 <= n <= |calls| ==> Tight(Run(bumps, s, calls[..n]), vk))
      <==> NoEmptyDraw(bumps, s, calls, vk)
  {
    hide Tight, EmptyDraw, Run, Exec;
    if NoEmptyDraw(bumps, s, calls, vk) {
      forall n | 0 <= n <= |calls|
        ensures Tight(Run(bumps, s, calls[..n]), vk)
      {
        NoEmptyDrawPrefix(bumps, s, calls, vk, n);
        RunStaysTight(bumps, s, calls[..n], vk);
      }
    }
    if forall n :: 0 <= n <= |calls| ==> Tight(Run(bumps, s, calls[..n]), vk) {
      forall i | 0 <= i < |calls|
        ensures !EmptyDraw(bumps, Run(bumps, s, calls[..i]), calls[i], vk)
      {
        assert Tight(Run(bumps, s, calls[..i]), vk) && Tight(Run(bumps, s, calls[..i + 1]), vk);
        RunSnoc(bumps, s, calls, i);
        ExecTight(bumps, Run(bumps, s, calls[..i]), calls[i], vk);
      }
    }
  }

  // ---- From the draw to the seizure ----------------------------------------------------------

  /** Call `i` of the run is a draw that goes through on a vault that owed nothing, and the loan is open ever since. */
  ghost predicate OpenSince(bumps: Bumps, s: State, calls: seq<Call>, vk: Pubkey, i: nat)
    requires i < |calls|
  {
    && calls[i].Credit? && calls[i].credit.Draws? && calls[i].credit.vk == vk
    && !Owes(Run(bumps, s, calls[..i]), vk)
    && (forall j :: i < j <= |calls| ==> Owes(Run(bumps, s, calls[..j]), vk))
  }

  lemma DrawArms(bumps: Bumps, s: State, c: Call, vk: Pubkey)
    requires Tight(s, vk) && !Owes(s, vk)
    requires c.Credit? && c.credit.Draws? && c.credit.vk == vk
    requires Owes(Exec(bumps, s, c), vk)
    ensures Exec(bumps, s, c).vaults[vk].borrowRecoveryAt == Some(s.now + c.credit.window)
  {
  }

  lemma OpenSincePrefix(bumps: Bumps, s: State, calls: seq<Call>, vk: Pubkey, i: nat, n: nat)
    requires i < n <= |calls| && OpenSince(bumps, s, calls, vk, i)
    ensures OpenSince(bumps, s, calls[..n], vk, i) && Owes(Run(bumps, s, calls[..n]), vk)
    ensures Run(bumps, s, calls[..n][..i]) == Run(bumps, s, calls[..i])
  {
    hide Owes, Run;
    assert calls[..n][..i] == calls[..i];
    forall j | i < j <= n ensures Owes(Run(bumps, s, calls[..n][..j]), vk) {
      assert calls[..n][..j] == calls[..j];
    }
  }

  /** The deadline of a loan is the clock at the draw that opened it plus that draw's own window, whatever happens
      while it is open. */
  lemma {:induction false} LoanKeepsItsWindow(bumps: Bumps, s: State, calls: seq<Call>, vk: Pubkey, i: nat)
    requires Tight(s, vk) && NoEmptyDraw(bumps, s, calls, vk)
    requires i < |calls| && OpenSince(bumps, s, calls, vk, i)
    ensures Owes(Run(bumps, s, calls), vk)
    ensures Run(bumps, s, calls).vaults[vk].borrowRecoveryAt
      == Some(Run(bumps, s, calls[..i]).now + calls[i].credit.window)
    decreases |calls|
  {
    hide Tight, NoEmptyDraw, Exec;
    var n := |calls| - 1;
    var before := Run(bumps, s, calls[..n]);
    OpenSincePrefix(bumps, s, calls, vk, i, |calls|);
    assert calls[..|calls|] == calls;
    NoEmptyDrawPrefix(bumps, s, calls, vk, n);
    if i == n {
      RunStaysTight(bumps, s, calls[..n], vk);
      DrawArms(bumps, before, calls[n], vk);
    } else {
      OpenSincePrefix(bumps, s, calls, vk, i, n);
      LoanKeepsItsWindow(bumps, s, calls[..n], vk, i);
      ExecKeepsDeadline(bumps, before, calls[n], vk);
    }
  }

  /** So a loan opened at clock t for a window of w seconds is not seized before t + w. */
  lemma SeizedAfterItsWindow(bumps: Bumps, s: State, calls: seq<Call>, vk: Pubkey, i: nat, authority: Pubkey)
    requires Tight(s, vk) && NoEmptyDraw(bumps, s, calls, vk)
    requires i < |calls| && OpenSince(bumps, s, calls, vk, i)
    ensures SeizeCollateral(Run(bumps, s, calls), vk, authority).Ok?
      ==> Run(bumps, s, calls).now >= Run(bumps, s, calls[..i]).now + calls[i].credit.window
  {
    hide Run, Tight, NoEmptyDraw;
    LoanKeepsItsWindow(bumps, s, calls, vk, i);
  }

  // ---- Why the draw must not be empty --------------------------------------------------------

  const STANDBY := Some(20)

  /** Financier 20 holds 100, all of it in reserve, and stands by for vault 1 with 50. */
  function StandbyCalls(): seq<Call> {
    Funding(50)
    + [Credit(SetsReserve(20, 100, true))]
    + [Env(Deposits(20, 100))]
    + [Credit(OpensStandby(1, 20, 50, true))]
  }

  /** An empty draw with window 0, and after it a loan of 10 with an hour's window. */
  function EmptyThenLoan(): seq<Call> {
    StandbyCalls() + [Credit(Draws(1, 20, 0, 0, 3))] + [Credit(Draws(1, 20, 10, 3600, 3))]
  }

  function Backed(borrowed: u64, deadline: Option<i64>): State
    requires borrowed <= 100
  {
    Funded(50).(
      vaults := map[1 := VaultOne(0).(standbyBacker := STANDBY, standbyCap := 50, borrowed := borrowed,
                                      borrowRecoveryAt := deadline)],
      backers := map[20 := StandbyBacker(STANDBY_BACKER_VERSION_V1, 20, 100, 50)],
      balances := map[7 := 50, 20 := 100 - borrowed])
  }

  lemma StandbyRun(bumps: Bumps)
    ensures Run(bumps, GENESIS, StandbyCalls()) == Backed(0, None)
  {
    hide Run;
    var c0, c1, c2 := Credit(SetsReserve(20, 100, true)), Env(Deposits(20, 100)), Credit(OpensStandby(1, 20, 50, true));
    var s1 := Funded(50).(backers := map[20 := StandbyBacker(STANDBY_BACKER_VERSION_V1, 20, 100, 0)]);
    var s2 := s1.(balances := map[7 := 50, 20 := 100]);
    FundingRun(bumps, 50);
    assert Funded(50).backers[20 := s1.backers[20]] == s1.backers;
    Then(bumps, Funding(50), Funded(50), c0, s1);
    assert s1.balances[20 := 100] == s2.balances;
    Then(bumps, Funding(50) + [c0], s1, c1, s2);
    assert s2.vaults[1 := Backed(0, None).vaults[1]] == Backed(0, None).vaults;
    assert s2.backers[20 := Backed(0, None).backers[20]] == Backed(0, None).backers;
    Then(bumps, Funding(50) + [c0] + [c1], s2, c2, Backed(0, None));
  }

  lemma LoanStep(bumps: Bumps, borrowed: u64, deadline: Option<i64>, amount: u64, window: i64, armed: i64)
    requires borrowed + amount <= 50
    requires armed == if deadline.Some? then deadline.value else window
    ensures Step(bumps, Backed(borrowed, deadline), Credit(Draws(1, 20, amount, window, 3)))
         == Ok(Backed(borrowed + amount, Some(armed)))
  {
    var s, s' := Backed(borrowed, deadline), Backed(borrowed + amount, Some(armed));
    assert s.vaults[1 := s'.vaults[1]] == s'.vaults;
    assert s.balances[20 := s'.balances[20]] == s'.balances;
  }

  lemma EmptyThenLoanRun(bumps: Bumps)
    ensures Run(bumps, GENESIS, EmptyThenLoan()) == Backed(10, Some(0))
  {
    hide Run;
    var c0, c1 := Credit(Draws(1, 20, 0, 0, 3)), Credit(Draws(1, 20, 10, 3600, 3));
    StandbyRun(bumps);
    LoanStep(bumps, 0, None, 0, 0, 0);
    LoanStep(bumps, 0, Some(0), 10, 3600, 0);
    Then(bumps, StandbyCalls(), Backed(0, None), c0, Backed(0, Some(0)));
    Then(bumps, StandbyCalls() + [c0], Backed(0, Some(0)), c1, Backed(10, Some(0)));
  }

  /** There the loan of 10, drawn at clock 0 with a window of 3600 seconds, is seized at clock 0. */
  lemma EmptyDrawSpendsTheWindow(bumps: Bumps)
    ensures var s := Run(bumps, GENESIS, EmptyThenLoan());
            && s.now == 0 && Owes(s, 1) && s.vaults[1].borrowed == 10
            && SeizeCollateral(s, 1, 3).Ok?
  {
    hide Run;
    EmptyThenLoanRun(bumps);
  }
}
