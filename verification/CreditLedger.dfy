/** Standby credit: what each financier has promised and lent, and where every borrowed amount went. */
module CreditLedger {
  import opened Prelude
  import opened State
  import opened Protocol
  import opened Sums

  function PromisedBy(f: Pubkey): Vault -> int {
    (v: Vault) => if v.standbyBacker == Some(f) then v.standbyCap else 0
  }

  function BorrowedFrom(f: Pubkey): Vault -> int {
    (v: Vault) => if v.standbyBacker == Some(f) then v.borrowed else 0
  }

  predicate TermsOk(v: Vault) {
    && v.borrowed <= v.standbyCap
    && (v.standbyBacker.None? ==> v.standbyCap == 0)
    && (v.borrowed > 0 ==> v.borrowRecoveryAt.Some?)
  }

  ghost predicate BackerOk(s: State, f: Pubkey)
    requires f in s.backers
  {
    && s.backers[f].financierSwig == f
    && s.backers[f].version != 0
    && s.backers[f].aggregatePromised == Sum(s.vaults, PromisedBy(f)) <= s.backers[f].committedReserve
  }

  ghost predicate CreditOk(s: State) {
    && (forall v :: v in s.vaults ==> TermsOk(s.vaults[v]))
    && (forall v :: v in s.vaults && s.vaults[v].standbyBacker.Some? ==> s.vaults[v].standbyBacker.value in s.backers)
    && (forall f :: f in s.backers ==> BackerOk(s, f))
  }

  /** A financier never has more lent out than the reserve it committed. */
  lemma LentWithinReserve(s: State, f: Pubkey)
    requires CreditOk(s) && f in s.backers
    ensures Sum(s.vaults, BorrowedFrom(f)) <= s.backers[f].aggregatePromised <= s.backers[f].committedReserve
  {
    assert BackerOk(s, f);
    SumLe(s.vaults, BorrowedFrom(f), s.vaults, PromisedBy(f));
  }

  // ---- Steps that leave credit alone ---------------------------------------------------------

  predicate SameTerms(v: Vault, v': Vault) {
    && v'.standbyBacker == v.standbyBacker
    && v'.standbyCap == v.standbyCap
    && v'.borrowed == v.borrowed
    && v'.borrowRecoveryAt == v.borrowRecoveryAt
  }

  ghost predicate SameCredit(s: State, s': State) {
    && s'.backers == s.backers
    && s'.vaults.Keys == s.vaults.Keys
    && (forall v :: v in s.vaults ==> SameTerms(s.vaults[v], s'.vaults[v]))
  }

  lemma SameCreditKeepsCreditOk(s: State, s': State)
    requires CreditOk(s) && SameCredit(s, s')
    ensures CreditOk(s')
  {
    forall f | f in s'.backers ensures BackerOk(s', f) {
      assert BackerOk(s, f);
      SumEq(s.vaults, PromisedBy(f), s'.vaults, PromisedBy(f));
    }
  }

  lemma EnvKeepsCredit(s: State, c: EnvCall)
    requires !c.Initializes? && EnvStep(s, c).Ok?
    ensures SameCredit(s, EnvStep(s, c).value)
  {
  }

  lemma SessionKeepsCredit(bumps: Bumps, s: State, c: SessionCall)
    requires SessionStep(bumps, s, c).Ok?
    ensures SameCredit(s, SessionStep(bumps, s, c).value)
  {
    hide ScanSiblings, RegisterTarget, SessionOrZero, FreshRegistration, SessionAddress;
  }

  lemma UpgradeKeepsCredit(bumps: Bumps, s: State, c: UpgradeCall)
    requires UpgradeStep(bumps, s, c).Ok?
    ensures SameCredit(s, UpgradeStep(bumps, s, c).value)
  {
    hide RegisterTarget;
  }

  lemma TabKeepsCredit(s: State, c: TabCall)
    requires TabStep(s, c).Ok?
    ensures SameCredit(s, TabStep(s, c).value)
  {
    hide SessionAddress, ClaimAddress;
  }

  lemma ClaimKeepsCredit(s: State, c: ClaimCall)
    requires ClaimStep(s, c).Ok?
    ensures SameCredit(s, ClaimStep(s, c).value)
  {
  }

  lemma ExitKeepsCredit(s: State, c: ExitCall)
    requires ExitStep(s, c).Ok?
    ensures SameCredit(s, ExitStep(s, c).value)
  {
  }

  lemma InitializeKeepsCreditOk(s: State, c: EnvCall)
    requires CreditOk(s)
    requires c.Initializes? && EnvStep(s, c).Ok?
    ensures CreditOk(EnvStep(s, c).value)
  {
    hide Sum;
    var s' := EnvStep(s, c).value;
    forall f | f in s'.backers ensures BackerOk(s', f) {
      assert BackerOk(s, f);
      SumPut(s.vaults, PromisedBy(f), c.vk, s'.vaults[c.vk]);
    }
  }

  // ---- Standby steps -------------------------------------------------------------------------

  /** The cap a vault holds from its backer is part of that backer's aggregate, so the saturating
      subtractions in close and resize-down are exact. */
  lemma CapIsPromised(s: State, vk: Pubkey)
    requires CreditOk(s)
    requires vk in s.vaults && s.vaults[vk].standbyBacker.Some?
    ensures s.vaults[vk].standbyBacker.value in s.backers
    ensures s.vaults[vk].standbyCap <= s.backers[s.vaults[vk].standbyBacker.value].aggregatePromised
  {
    hide Sum;
    var f := s.vaults[vk].standbyBacker.value;
    assert BackerOk(s, f);
    SumNonNegative(s.vaults, PromisedBy(f));
    assert PromisedBy(f)(s.vaults[vk]) == s.vaults[vk].standbyCap;
  }

  /** Vault `vk` moves to new terms with backer `f`, whose aggregate follows by the same difference. */
  ghost predicate PromiseMoves(s: State, s': State, vk: Pubkey, f: Pubkey) {
    && vk in s.vaults && f in s.backers
    && vk in s'.vaults && s'.vaults == s.vaults[vk := s'.vaults[vk]]
    && f in s'.backers && s'.backers == s.backers[f := s'.backers[f]]
    && TermsOk(s'.vaults[vk])
    && (s.vaults[vk].standbyBacker.Some? ==> s.vaults[vk].standbyBacker.value == f)
    && (s'.vaults[vk].standbyBacker.Some? ==> s'.vaults[vk].standbyBacker.value == f)
    && s'.backers[f].aggregatePromised
         == s.backers[f].aggregatePromised - PromisedBy(f)(s.vaults[vk]) + PromisedBy(f)(s'.vaults[vk])
    && s'.backers[f] == s.backers[f].(aggregatePromised := s'.backers[f].aggregatePromised)
    && s'.backers[f].aggregatePromised <= s'.backers[f].committedReserve
  }

  lemma PromiseMoveKeepsCreditOk(s: State, s': State, vk: Pubkey, f: Pubkey)
    requires CreditOk(s) && PromiseMoves(s, s', vk, f)
    ensures CreditOk(s')
  {
    hide Sum;
    forall g | g in s'.backers ensures BackerOk(s', g) {
      assert BackerOk(s, g);
      SumPut(s.vaults, PromisedBy(g), vk, s'.vaults[vk]);
    }
  }

  lemma OpenMoves(s: State, vk: Pubkey, f: Pubkey, cap: u64, passkeyOk: bool)
    requires CreditOk(s)
    requires OpenStandby(s, vk, f, cap, passkeyOk).Ok?
    ensures PromiseMoves(s, OpenStandby(s, vk, f, cap, passkeyOk).value, vk, f)
    ensures var s' := OpenStandby(s, vk, f, cap, passkeyOk).value;
            s'.vaults[vk] == s.vaults[vk].(standbyBacker := Some(f), standbyCap := cap)
  {
    hide Sum;
    assert BackerOk(s, f);
    if s.vaults[vk].standbyBacker.Some? {
      CapIsPromised(s, vk);
    }
  }

  lemma CloseMoves(s: State, vk: Pubkey, f: Pubkey, closer: Closer)
    requires CreditOk(s)
    requires CloseStandby(s, vk, f, closer).Ok?
    ensures PromiseMoves(s, CloseStandby(s, vk, f, closer).value, vk, f)
    ensures var s' := CloseStandby(s, vk, f, closer).value;
            && s.vaults[vk].borrowed == 0
            && s'.vaults[vk] == s.vaults[vk].(standbyBacker := None, standbyCap := 0)
  {
    hide Sum;
    assert BackerOk(s, f);
    CapIsPromised(s, vk);
  }

  lemma ReserveKeepsCreditOk(s: State, f: Pubkey, newReserve: u64, walletSigned: bool)
    requires CreditOk(s)
    requires SetStandbyReserve(s, f, newReserve, walletSigned).Ok?
    ensures CreditOk(SetStandbyReserve(s, f, newReserve, walletSigned).value)
  {
    hide Sum;
    var s' := SetStandbyReserve(s, f, newReserve, walletSigned).value;
    if f !in s.backers {
      SumEq(s.vaults, PromisedBy(f), map[], PromisedBy(f));
      EmptySum(map[], PromisedBy(f));
    }
    forall g | g in s'.backers ensures BackerOk(s', g) {
      if g in s.backers { assert BackerOk(s, g); }
    }
  }

  /** Draw, repay and seize keep the promises; they only move `borrowed` and its deadline. */
  ghost predicate LoanMoves(s: State, s': State, vk: Pubkey) {
    && vk in s.vaults
    && vk in s'.vaults && s'.vaults == s.vaults[vk := s'.vaults[vk]]
    && s'.backers == s.backers
    && s'.vaults[vk].standbyBacker == s.vaults[vk].standbyBacker
    && s'.vaults[vk].standbyCap == s.vaults[vk].standbyCap
    && TermsOk(s'.vaults[vk])
  }

  lemma LoanMoveKeepsCreditOk(s: State, s': State, vk: Pubkey)
    requires CreditOk(s) && LoanMoves(s, s', vk)
    ensures CreditOk(s')
  {
    hide Sum;
    forall g | g in s'.backers ensures BackerOk(s', g) {
      assert BackerOk(s, g);
      SumPut(s.vaults, PromisedBy(g), vk, s'.vaults[vk]);
    }
  }

  predicate IsLoan(c: CreditCall) { c.Draws? || c.Repays? || c.Seizes? }

  lemma LoanStepMoves(s: State, c: CreditCall)
    requires CreditOk(s)
    requires IsLoan(c) && CreditStep(s, c).Ok?
    ensures LoanMoves(s, CreditStep(s, c).value, c.vk)
  {
    hide BackerOk;
    assert TermsOk(s.vaults[c.vk]);
  }

  lemma CreditKeepsCreditOk(s: State, c: CreditCall)
    requires CreditOk(s)
    requires CreditStep(s, c).Ok?
    ensures CreditOk(CreditStep(s, c).value)
  {
    hide CreditOk, PromiseMoves, LoanMoves, OpenStandby, CloseStandby, SetStandbyReserve, DrawCredit, RepayCredit,
         SeizeCollateral;
    var s' := CreditStep(s, c).value;
    match c
    case SetsReserve(f, reserve, ok) => ReserveKeepsCreditOk(s, f, reserve, ok);
    case OpensStandby(vk, f, cap, ok) => OpenMoves(s, vk, f, cap, ok); PromiseMoveKeepsCreditOk(s, s', vk, f);
    case ClosesStandby(vk, f, closer) => CloseMoves(s, vk, f, closer); PromiseMoveKeepsCreditOk(s, s', vk, f);
    case _ => LoanStepMoves(s, c); LoanMoveKeepsCreditOk(s, s', c.vk);
  }

  lemma ExecKeepsCreditOk(bumps: Bumps, s: State, c: Call)
    requires CreditOk(s)
    ensures CreditOk(Exec(bumps, s, c))
  {
    hide CreditOk, SameCredit, EnvStep, SessionStep, UpgradeStep, TabStep, ClaimStep, CreditStep, ExitStep;
    if Step(bumps, s, c).Ok? {
      var s' := Step(bumps, s, c).value;
      match c
      case Env(e) =>
        if e.Initializes? { InitializeKeepsCreditOk(s, e); }
        else { EnvKeepsCredit(s, e); SameCreditKeepsCreditOk(s, s'); }
      case Session(e) => SessionKeepsCredit(bumps, s, e); SameCreditKeepsCreditOk(s, s');
      case Upgrade(e) => UpgradeKeepsCredit(bumps, s, e); SameCreditKeepsCreditOk(s, s');
      case Tab(e) => TabKeepsCredit(s, e); SameCreditKeepsCreditOk(s, s');
      case Claim(e) => ClaimKeepsCredit(s, e); SameCreditKeepsCreditOk(s, s');
      case Credit(e) => CreditKeepsCreditOk(s, e);
      case Exit(e) => ExitKeepsCredit(s, e); SameCreditKeepsCreditOk(s, s');
    }
  }

  /** In every run each financier's aggregate is the sum of the caps of the vaults it backs and stays
      within its committed reserve, and no vault owes more than its cap. */
  lemma {:induction false} RunKeepsCreditOk(bumps: Bumps, s: State, calls: seq<Call>)
    requires CreditOk(s)
    ensures CreditOk(Run(bumps, s, calls))
    decreases |calls|
  {
    if calls == [] {
    } else {
      hide CreditOk, Exec;
      var n := |calls| - 1;
      RunKeepsCreditOk(bumps, s, calls[..n]);
      ExecKeepsCreditOk(bumps, Run(bumps, s, calls[..n]), calls[n]);
    }
  }

  // ---- Conservation --------------------------------------------------------------------------

  /** Money moved by the credit steps on one vault, as the wallets saw it. */
  datatype Flow = Flow(drawn: int, repaid: int, seized: int)

  ghost function Moved(s: State, c: Call, s': State, vk: Pubkey, flow: Flow): Flow {
    if vk !in s.vaults then flow else
    match c
    case Credit(Draws(k, financier, _, _, _)) =>
      if k == vk then flow.(drawn := flow.drawn + s.Balance(financier) - s'.Balance(financier)) else flow
    case Credit(Repays(k, _, _)) =>
      var wallet := s.vaults[vk].swig;
      if k == vk then flow.(repaid := flow.repaid + s.Balance(wallet) - s'.Balance(wallet)) else flow
    case Credit(Seizes(k, _)) =>
      var wallet := s.vaults[vk].swig;
      if k == vk then flow.(seized := flow.seized + s.Balance(wallet) - s'.Balance(wallet)) else flow
    case _ => flow
  }

  ghost function FlowOf(bumps: Bumps, start: State, calls: seq<Call>, vk: Pubkey): Flow {
    if calls == [] then Flow(0, 0, 0)
    else
      var before := calls[..|calls| - 1];
      var s := Run(bumps, start, before);
      match Step(bumps, s, calls[|calls| - 1])
      case Ok(s') => Moved(s, calls[|calls| - 1], s', vk, FlowOf(bumps, start, before, vk))
      case Err(_) => FlowOf(bumps, start, before, vk)
  }

  function Owed(s: State, vk: Pubkey): int { if vk in s.vaults then s.vaults[vk].borrowed else 0 }

  /** `before` is what was owed at the start. */
  ghost predicate Conserved(s: State, vk: Pubkey, before: int, flow: Flow) {
    before + flow.drawn == flow.repaid + flow.seized + Owed(s, vk)
  }

  lemma LoanStepConserves(s: State, c: CreditCall, vk: Pubkey, before: int, flow: Flow)
    requires IsLoan(c) && CreditStep(s, c).Ok?
    requires Conserved(s, vk, before, flow)
    ensures Conserved(CreditStep(s, c).value, vk, before, Moved(s, Credit(c), CreditStep(s, c).value, vk, flow))
  {
  }

  lemma StandbyStepConserves(s: State, c: CreditCall, vk: Pubkey, before: int, flow: Flow)
    requires !IsLoan(c) && CreditStep(s, c).Ok?
    requires Conserved(s, vk, before, flow)
    ensures Conserved(CreditStep(s, c).value, vk, before, Moved(s, Credit(c), CreditStep(s, c).value, vk, flow))
  {
  }

  lemma InitializeConserves(s: State, c: EnvCall, vk: Pubkey, before: int, flow: Flow)
    requires c.Initializes? && EnvStep(s, c).Ok?
    requires Conserved(s, vk, before, flow)
    ensures Conserved(EnvStep(s, c).value, vk, before, flow)
  {
  }

  lemma StepConserves(bumps: Bumps, s: State, c: Call, vk: Pubkey, before: int, flow: Flow)
    requires Step(bumps, s, c).Ok?
    requires Conserved(s, vk, before, flow)
    ensures Conserved(Step(bumps, s, c).value, vk, before, Moved(s, c, Step(bumps, s, c).value, vk, flow))
  {
    hide EnvStep, SessionStep, UpgradeStep, TabStep, ClaimStep, CreditStep, ExitStep;
    match c
    case Env(e) => if e.Initializes? { InitializeConserves(s, e, vk, before, flow); } else { EnvKeepsCredit(s, e); }
    case Session(e) => SessionKeepsCredit(bumps, s, e);
    case Upgrade(e) => UpgradeKeepsCredit(bumps, s, e);
    case Tab(e) => TabKeepsCredit(s, e);
    case Claim(e) => ClaimKeepsCredit(s, e);
    case Credit(e) =>
      if IsLoan(e) { LoanStepConserves(s, e, vk, before, flow); }
      else { StandbyStepConserves(s, e, vk, before, flow); }
    case Exit(e) => ExitKeepsCredit(s, e);
  }

  /** In every run, what the financiers' wallets paid out for a vault is what the vault's wallet paid
      back, plus what was seized from it, plus what it still owes. */
  lemma {:induction false} RunConservesCredit(bumps: Bumps, start: State, calls: seq<Call>, vk: Pubkey)
    ensures Conserved(Run(bumps, start, calls), vk, Owed(start, vk), FlowOf(bumps, start, calls, vk))
    decreases |calls|
  {
    if calls == [] {
    } else {
      hide Conserved, Step, Moved;
      var n := |calls| - 1;
      RunConservesCredit(bumps, start, calls[..n], vk);
      var s := Run(bumps, start, calls[..n]);
      if Step(bumps, s, calls[n]).Ok? {
        StepConserves(bumps, s, calls[n], vk, Owed(start, vk), FlowOf(bumps, start, calls[..n], vk));
      }
    }
  }
}
