/** Every instruction does what is specified of it, on every state and every argument. */
module Refinement {
  import opened Prelude
  import opened State
  import opened Protocol
  import opened SiblingScan
  import opened Specification
  import SessionCount

  lemma VaultMeets(bumps: Bumps, s: State, c: EnvCall)
    requires c.Initializes? || c.SetsSwig?
    ensures Meets(bumps, s, Env(c), EnvStep(s, c))
  {
  }

  lemma EnvMeets(bumps: Bumps, s: State, c: EnvCall)
    ensures Meets(bumps, s, Env(c), EnvStep(s, c))
  {
    hide InitializeVault, SetSwig;
    if c.Initializes? || c.SetsSwig? {
      VaultMeets(bumps, s, c);
    }
  }

  // ---- Register ------------------------------------------------------------------------------

  /** The loop's own working copy and counters agree with the list so far, so its verdict on the next entry is the
      one read off the accounts as the instruction found them. */
  lemma EntryMeets(s: State, vk: Pubkey, target: Pubkey, refs: seq<AccountRef>, acc: Scan)
    requires refs != [] && Ascending(refs[..|refs| - 1])
    requires ScanFacts(s.now, s.sessions, Keys(refs[..|refs| - 1]), acc)
    ensures match ScanOne(s.now, vk, target, LastKey(refs[..|refs| - 1]), acc, refs[|refs| - 1])
      case Err(error) => EntryRefusal(s, vk, target, refs, |refs| - 1) == Some(error)
      case Ok(_) => EntryRefusal(s, vk, target, refs, |refs| - 1) == None
  {
    hide Keys, CapSum, UnexpiredAmong, SessionAddress, Ascending, SweptTo;
    var n := |refs| - 1;
    if n == 0 || refs[n].key > refs[n - 1].key {
      AscendingStep(refs);
      UnsweptSoFar(s, Keys(refs[..n]), acc.sessions, refs[n].key);
    }
  }

  lemma UnsweptSoFar(s: State, keys: set<Pubkey>, after: map<Pubkey, SessionAccount>, key: Pubkey)
    requires SweptTo(s.now, s.sessions, keys, after) && key !in keys
    ensures key in after <==> key in s.sessions
    ensures key in s.sessions ==> after[key] == s.sessions[key]
  {
  }

  lemma {:induction false} ListMeets(s: State, vk: Pubkey, target: Pubkey, refs: seq<AccountRef>)
    ensures match ScanSiblings(s.now, vk, target, s.sessions, refs)
      case Err(error) => ListRefusal(s, vk, target, refs) == Some(error)
      case Ok(_) => ListRefusal(s, vk, target, refs) == None
    decreases |refs|
  {
    hide EntryRefusal, ScanOne, ScanFacts, Ascending, SiblingOk, Keys;
    if refs != [] {
      var before := refs[..|refs| - 1];
      ListMeets(s, vk, target, before);
      if ScanSiblings(s.now, vk, target, s.sessions, before).Ok? {
        ScanEstablishes(s.now, vk, target, s.sessions, before);
        EntryMeets(s, vk, target, refs, ScanSiblings(s.now, vk, target, s.sessions, before).value);
      }
    }
  }

  /** A strictly ascending list has as many keys as entries. */
  lemma {:induction false} AscendingKeys(refs: seq<AccountRef>)
    requires Ascending(refs)
    ensures |Keys(refs)| == |refs|
    decreases |refs|
  {
    if refs == [] {
      assert Keys(refs) == {};
    } else {
      var n := |refs| - 1;
      AscendingKeys(refs[..n]);
      KeysOfLast(refs);
      assert refs[n].key !in Keys(refs[..n]);
    }
  }

  lemma CountsAddUp(s: State, vk: Pubkey, target: Pubkey, refs: seq<AccountRef>)
    requires ScanSiblings(s.now, vk, target, s.sessions, refs).Ok?
    ensures var scan := ScanSiblings(s.now, vk, target, s.sessions, refs).value;
      && scan.live + scan.swept == |refs|
      && scan.sum == CapSum(s.now, s.sessions, Keys(refs))
      && scan.swept == |Keys(refs) - UnexpiredAmong(s.now, s.sessions, Keys(refs))|
  {
    hide Keys, CapSum, UnexpiredAmong, SiblingOk, ScanSiblings, SweptTo;
    ScanEstablishes(s.now, vk, target, s.sessions, refs);
    AscendingKeys(refs);
    CountsCoverKeys(s.now, s.sessions, Keys(refs));
  }

  lemma RegisterRefused(bumps: Bumps, s: State, c: SessionCall)
    requires c.Registers?
    ensures match SessionStep(bumps, s, c)
      case Err(error) => RegisterRefusal(bumps, s, c) == Some(error)
      case Ok(_) => RegisterRefusal(bumps, s, c) == None
  {
    hide ScanSiblings, ListRefusal, Keys, CapSum, SessionAddress, FreshRegistration, UnexpiredAmong;
    var target := RegisterTarget(bumps, c.vk, c.args.counterparty);
    ListMeets(s, c.vk, target, c.refs);
    if ScanSiblings(s.now, c.vk, target, s.sessions, c.refs).Ok? {
      CountsAddUp(s, c.vk, target, c.refs);
    }
  }

  lemma RegisterWrites(bumps: Bumps, s: State, c: SessionCall)
    requires c.Registers? && SessionStep(bumps, s, c).Ok?
    ensures RegisterEffect(bumps, s, SessionStep(bumps, s, c).value, c)
  {
    hide ScanSiblings, Keys, CapSum, SessionAddress, SiblingOk, RegisterSessionKey;
    var target := RegisterTarget(bumps, c.vk, c.args.counterparty);
    SessionCount.RegisterUnfolds(bumps, s, c.vk, c.args, c.refs, c.passkeyOk);
    SessionCount.RegisterYields(bumps, s, c.vk, c.args, c.refs, c.passkeyOk);
    ScanEstablishes(s.now, c.vk, target, s.sessions, c.refs);
    CountsAddUp(s, c.vk, target, c.refs);
  }

  lemma RegisterMeets(bumps: Bumps, s: State, c: SessionCall)
    requires c.Registers?
    ensures Meets(bumps, s, Session(c), SessionStep(bumps, s, c))
  {
    hide RegisterRefusal, RegisterEffect, RegisterSessionKey;
    RegisterRefused(bumps, s, c);
    if SessionStep(bumps, s, c).Ok? {
      RegisterWrites(bumps, s, c);
    }
  }

  // ---- Sessions ------------------------------------------------------------------------------

  lemma TeardownMeets(bumps: Bumps, s: State, c: SessionCall)
    requires !c.Registers?
    ensures Meets(bumps, s, Session(c), SessionStep(bumps, s, c))
  {
    hide SessionAddress;
  }

  lemma UpgradeMeets(bumps: Bumps, s: State, c: UpgradeCall)
    ensures Meets(bumps, s, Upgrade(c), UpgradeStep(bumps, s, c))
  {
    hide SessionAddress;
  }

  // ---- Vouchers ------------------------------------------------------------------------------

  lemma SettleVoucherMeets(bumps: Bumps, s: State, c: TabCall)
    requires c.SettlesVoucher?
    ensures Meets(bumps, s, Tab(c), TabStep(s, c))
  {
    hide SessionAddress, SettleTabVoucher, LockVoucher;
  }

  lemma SettleTabMeets(bumps: Bumps, s: State, c: TabCall)
    requires c.SettlesTab?
    ensures Meets(bumps, s, Tab(c), TabStep(s, c))
  {
    hide SessionAddress, SettleVoucher, LockVoucher;
  }

  lemma LockMeets(bumps: Bumps, s: State, c: TabCall)
    requires c.Locks?
    ensures Meets(bumps, s, Tab(c), TabStep(s, c))
  {
    hide SessionAddress, ClaimAddress, SettleVoucher, SettleTabVoucher;
  }

  // ---- Claims, credit, withdrawals -----------------------------------------------------------

  lemma SettleLockedMeets(bumps: Bumps, s: State, c: ClaimCall)
    requires c.SettlesLocked?
    ensures Meets(bumps, s, Claim(c), ClaimStep(s, c))
  {
    hide RecoverAbandonedLock, TransferLockOwnership;
  }

  lemma RecoverMeets(bumps: Bumps, s: State, c: ClaimCall)
    requires c.Recovers?
    ensures Meets(bumps, s, Claim(c), ClaimStep(s, c))
  {
    hide SettleLockedVoucher, TransferLockOwnership;
  }

  lemma TransferMeets(bumps: Bumps, s: State, c: ClaimCall)
    requires c.Transfers?
    ensures Meets(bumps, s, Claim(c), ClaimStep(s, c))
  {
    hide SettleLockedVoucher, RecoverAbandonedLock;
  }

  lemma ClaimMeets(bumps: Bumps, s: State, c: ClaimCall)
    ensures Meets(bumps, s, Claim(c), ClaimStep(s, c))
  {
    hide Meets, ClaimStep;
    match c
    case SettlesLocked(_, _, _, _) => SettleLockedMeets(bumps, s, c);
    case Recovers(_, _, _) => RecoverMeets(bumps, s, c);
    case Transfers(_, _, _) => TransferMeets(bumps, s, c);
  }

  lemma ReserveMeets(bumps: Bumps, s: State, c: CreditCall)
    requires c.SetsReserve?
    ensures Meets(bumps, s, Credit(c), CreditStep(s, c))
  {
    hide OpenStandby, CloseStandby, DrawCredit, RepayCredit, SeizeCollateral;
  }

  lemma OpenMeets(bumps: Bumps, s: State, c: CreditCall)
    requires c.OpensStandby?
    ensures Meets(bumps, s, Credit(c), CreditStep(s, c))
  {
    hide SetStandbyReserve, CloseStandby, DrawCredit, RepayCredit, SeizeCollateral;
  }

  lemma CloseMeets(bumps: Bumps, s: State, c: CreditCall)
    requires c.ClosesStandby?
    ensures Meets(bumps, s, Credit(c), CreditStep(s, c))
  {
    hide SetStandbyReserve, OpenStandby, DrawCredit, RepayCredit, SeizeCollateral;
  }

  lemma DrawMeets(bumps: Bumps, s: State, c: CreditCall)
    requires c.Draws?
    ensures Meets(bumps, s, Credit(c), CreditStep(s, c))
  {
    hide SetStandbyReserve, OpenStandby, CloseStandby, RepayCredit, SeizeCollateral;
  }

  lemma RepayMeets(bumps: Bumps, s: State, c: CreditCall)
    requires c.Repays?
    ensures Meets(bumps, s, Credit(c), CreditStep(s, c))
  {
    hide SetStandbyReserve, OpenStandby, CloseStandby, DrawCredit, SeizeCollateral;
  }

  lemma SeizeMeets(bumps: Bumps, s: State, c: CreditCall)
    requires c.Seizes?
    ensures Meets(bumps, s, Credit(c), CreditStep(s, c))
  {
    hide SetStandbyReserve, OpenStandby, CloseStandby, DrawCredit, RepayCredit;
  }

  lemma CreditMeets(bumps: Bumps, s: State, c: CreditCall)
    ensures Meets(bumps, s, Credit(c), CreditStep(s, c))
  {
    hide Meets, CreditStep;
    match c
    case Draws(_, _, _, _, _) => DrawMeets(bumps, s, c);
    case Repays(_, _, _) => RepayMeets(bumps, s, c);
    case Seizes(_, _) => SeizeMeets(bumps, s, c);
    case SetsReserve(_, _, _) => ReserveMeets(bumps, s, c);
    case OpensStandby(_, _, _, _) => OpenMeets(bumps, s, c);
    case ClosesStandby(_, _, _) => CloseMeets(bumps, s, c);
  }

  lemma FinalizeMeets(bumps: Bumps, s: State, c: ExitCall)
    requires c.Finalizes?
    ensures Meets(bumps, s, Exit(c), ExitStep(s, c))
  {
    hide RequestWithdrawal, ForceRelease;
  }

  lemma WaitMeets(bumps: Bumps, s: State, c: ExitCall)
    requires !c.Finalizes?
    ensures Meets(bumps, s, Exit(c), ExitStep(s, c))
  {
    hide FinalizeWithdrawal;
  }

  lemma ExitMeets(bumps: Bumps, s: State, c: ExitCall)
    ensures Meets(bumps, s, Exit(c), ExitStep(s, c))
  {
    hide Meets, ExitStep;
    if c.Finalizes? { FinalizeMeets(bumps, s, c); } else { WaitMeets(bumps, s, c); }
  }

  // ---- Any instruction -----------------------------------------------------------------------

  lemma SessionMeets(bumps: Bumps, s: State, c: SessionCall)
    ensures Meets(bumps, s, Session(c), SessionStep(bumps, s, c))
  {
    hide Meets, SessionStep;
    if c.Registers? { RegisterMeets(bumps, s, c); } else { TeardownMeets(bumps, s, c); }
  }

  lemma TabMeets(bumps: Bumps, s: State, c: TabCall)
    ensures Meets(bumps, s, Tab(c), TabStep(s, c))
  {
    hide Meets, TabStep;
    match c
    case SettlesVoucher(_, _, _, _, _, _) => SettleVoucherMeets(bumps, s, c);
    case SettlesTab(_, _, _, _, _, _) => SettleTabMeets(bumps, s, c);
    case Locks(_, _, _, _, _, _, _) => LockMeets(bumps, s, c);
  }

  /** Every instruction, on every state and with every argument, is refused with exactly the error specified, or leaves
      exactly the accounts specified. */
  lemma StepMeets(bumps: Bumps, s: State, c: Call)
    ensures Meets(bumps, s, c, Step(bumps, s, c))
  {
    hide Meets, EnvStep, SessionStep, UpgradeStep, TabStep, ClaimStep, CreditStep, ExitStep;
    match c
    case Env(e) => EnvMeets(bumps, s, e);
    case Session(e) => SessionMeets(bumps, s, e);
    case Upgrade(e) => UpgradeMeets(bumps, s, e);
    case Tab(e) => TabMeets(bumps, s, e);
    case Claim(e) => ClaimMeets(bumps, s, e);
    case Credit(e) => CreditMeets(bumps, s, e);
    case Exit(e) => ExitMeets(bumps, s, e);
  }
}
