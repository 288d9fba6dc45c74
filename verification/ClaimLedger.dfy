/** The vault's three claim odometers are sums over the claim accounts in every run, and a claim
    moves once, from Pending to one of its two ends. */
module ClaimLedger {
  import opened Prelude
  import opened State
  import opened Protocol
  import opened Sums

  // ---- The odometers -------------------------------------------------------------------------

  function PendingAmount(v: Pubkey): LockedClaim -> int {
    (c: LockedClaim) => if c.vault == v && c.status == Pending then c.amount else 0
  }

  function SettledAmount(v: Pubkey): LockedClaim -> int {
    (c: LockedClaim) => if c.vault == v && c.status == Settled then c.amount else 0
  }

  function ClaimedAmount(v: Pubkey): LockedClaim -> int {
    (c: LockedClaim) => if c.vault == v then c.amount else 0
  }

  ghost predicate Balanced(claims: map<Pubkey, LockedClaim>, vk: Pubkey, v: Vault) {
    && v.outstandingLocked == Sum(claims, PendingAmount(vk))
    && v.totalSettled == Min(U64_MAX, Sum(claims, SettledAmount(vk)))
    && v.totalCrystallized == Min(U64_MAX, Sum(claims, ClaimedAmount(vk)))
  }

  // ---- One claim -----------------------------------------------------------------------------

  /** The timestamps say which end the claim reached, and no end was reached before its deadline. */
  predicate ClaimOk(c: LockedClaim, now: i64) {
    && c.amount > 0
    && c.createdAt <= now
    && (c.maturityAt.Some? && c.holderRecoveryAt.Some? ==> c.holderRecoveryAt.value > c.maturityAt.value)
    && (c.settledAt.Some? <==> c.status == Settled)
    && (c.recoveredAt.Some? <==> c.status == Abandoned)
    && (c.status == Settled ==>
          && c.settledAt.value <= now
          && (c.maturityAt.Some? ==> c.settledAt.value >= c.maturityAt.value))
    && (c.status == Abandoned ==>
          && c.recoveredAt.value <= now
          && c.holderRecoveryAt.Some? && c.recoveredAt.value >= c.holderRecoveryAt.value
          && (c.maturityAt.Some? ==> c.recoveredAt.value > c.maturityAt.value))
  }

  /** What may happen to a claim over any number of steps: its terms never change, and once it has
      left Pending nothing about it does. */
  predicate Evolves(c: LockedClaim, c': LockedClaim) {
    && c'.(currentHolder := c.currentHolder, status := c.status, settledAt := c.settledAt, recoveredAt := c.recoveredAt)
         == c
    && (c.status != Pending ==> c' == c)
  }

  ghost predicate ClaimPlaced(s: State, ck: Pubkey)
    requires ck in s.claims
  {
    && ck == ClaimAddress(s.claims[ck].vault, s.claims[ck].voucherHash)
    && s.claims[ck].vault in s.vaults
    && ClaimOk(s.claims[ck], s.now)
  }

  ghost predicate ClaimsOk(s: State) {
    && (forall ck :: ck in s.claims ==> ClaimPlaced(s, ck))
    && (forall v :: v in s.vaults ==> Balanced(s.claims, v, s.vaults[v]))
  }

  // ---- Steps that leave the claims alone -----------------------------------------------------

  ghost predicate SameLedger(s: State, s': State) {
    && s'.claims == s.claims
    && s'.vaults.Keys == s.vaults.Keys
    && s.now <= s'.now
    && (forall v :: v in s.vaults ==> SameOdometers(s.vaults[v], s'.vaults[v]))
  }

  predicate SameOdometers(v: Vault, v': Vault) {
    && v'.outstandingLocked == v.outstandingLocked
    && v'.totalSettled == v.totalSettled
    && v'.totalCrystallized == v.totalCrystallized
  }

  lemma SameLedgerKeepsClaimsOk(s: State, s': State)
    requires ClaimsOk(s) && SameLedger(s, s')
    ensures ClaimsOk(s')
  {
    hide Sum, Pair;
    forall ck | ck in s'.claims ensures ClaimPlaced(s', ck) {
      assert ClaimPlaced(s, ck);
    }
  }

  lemma EnvKeepsLedger(s: State, c: EnvCall)
    requires !c.Initializes? && EnvStep(s, c).Ok?
    ensures SameLedger(s, EnvStep(s, c).value)
  {
  }

  lemma SessionKeepsLedger(bumps: Bumps, s: State, c: SessionCall)
    requires SessionStep(bumps, s, c).Ok?
    ensures SameLedger(s, SessionStep(bumps, s, c).value)
  {
    hide ScanSiblings, RegisterTarget, SessionOrZero, FreshRegistration, SessionAddress;
  }

  lemma UpgradeKeepsLedger(bumps: Bumps, s: State, c: UpgradeCall)
    requires UpgradeStep(bumps, s, c).Ok?
    ensures SameLedger(s, UpgradeStep(bumps, s, c).value)
  {
    hide RegisterTarget;
  }

  lemma TabKeepsLedger(s: State, c: TabCall)
    requires !c.Locks? && TabStep(s, c).Ok?
    ensures SameLedger(s, TabStep(s, c).value)
  {
    hide SessionAddress;
  }

  lemma CreditKeepsLedger(s: State, c: CreditCall)
    requires CreditStep(s, c).Ok?
    ensures SameLedger(s, CreditStep(s, c).value)
  {
  }

  lemma ExitKeepsLedger(s: State, c: ExitCall)
    requires ExitStep(s, c).Ok?
    ensures SameLedger(s, ExitStep(s, c).value)
  {
  }

  lemma InitializeKeepsClaimsOk(s: State, c: EnvCall)
    requires ClaimsOk(s)
    requires c.Initializes? && EnvStep(s, c).Ok?
    ensures ClaimsOk(EnvStep(s, c).value)
  {
    hide Pair;
    var s' := EnvStep(s, c).value;
    forall ck | ck in s'.claims ensures ClaimPlaced(s', ck) {
      assert ClaimPlaced(s, ck);
    }
    hide ClaimOk;
    forall ck | ck in s.claims ensures s.claims[ck].vault != c.vk {
      assert ClaimPlaced(s, ck);
    }
    NothingClaimed(s.claims, c.vk);
  }

  lemma NothingClaimed(claims: map<Pubkey, LockedClaim>, v: Pubkey)
    requires forall ck :: ck in claims ==> claims[ck].vault != v
    ensures Sum(claims, PendingAmount(v)) == Sum(claims, SettledAmount(v)) == Sum(claims, ClaimedAmount(v)) == 0
  {
    SumRestrict(claims, PendingAmount(v), {});
    SumRestrict(claims, SettledAmount(v), {});
    SumRestrict(claims, ClaimedAmount(v), {});
  }

  // ---- Steps on claims -----------------------------------------------------------------------

  function AmountAt(claims: map<Pubkey, LockedClaim>, ck: Pubkey, f: LockedClaim -> int): int {
    if ck in claims then f(claims[ck]) else 0
  }

  /** Writing one claim moves its own vault's sums by that claim's weights and no other vault's. */
  lemma PutClaim(claims: map<Pubkey, LockedClaim>, ck: Pubkey, c: LockedClaim, v: Pubkey)
    requires ck in claims ==> claims[ck].vault == c.vault
    ensures var after := claims[ck := c];
            if v == c.vault then
              && Sum(after, PendingAmount(v))
                   == Sum(claims, PendingAmount(v)) - AmountAt(claims, ck, PendingAmount(v)) + PendingAmount(v)(c)
              && Sum(after, SettledAmount(v))
                   == Sum(claims, SettledAmount(v)) - AmountAt(claims, ck, SettledAmount(v)) + SettledAmount(v)(c)
              && Sum(after, ClaimedAmount(v))
                   == Sum(claims, ClaimedAmount(v)) - AmountAt(claims, ck, ClaimedAmount(v)) + ClaimedAmount(v)(c)
            else
              && Sum(after, PendingAmount(v)) == Sum(claims, PendingAmount(v))
              && Sum(after, SettledAmount(v)) == Sum(claims, SettledAmount(v))
              && Sum(after, ClaimedAmount(v)) == Sum(claims, ClaimedAmount(v))
  {
    hide Sum;
    SumPut(claims, PendingAmount(v), ck, c);
    SumPut(claims, SettledAmount(v), ck, c);
    SumPut(claims, ClaimedAmount(v), ck, c);
  }

  /** A pending claim is part of the outstanding amount, so settle's and recover's saturating
      subtractions are exact. */
  lemma PendingIsReserved(s: State, ck: Pubkey)
    requires ClaimsOk(s)
    requires ck in s.claims && s.claims[ck].status == Pending
    ensures s.claims[ck].vault in s.vaults
    ensures s.vaults[s.claims[ck].vault].outstandingLocked >= s.claims[ck].amount
  {
    hide Pair, Sum;
    assert ClaimPlaced(s, ck);
    var vk := s.claims[ck].vault;
    assert Balanced(s.claims, vk, s.vaults[vk]);
    SumNonNegative(s.claims, PendingAmount(vk));
    assert PendingAmount(vk)(s.claims[ck]) == s.claims[ck].amount;
  }

  lemma SettledIsOk(c: LockedClaim, now: i64)
    requires ClaimOk(c, now) && c.status == Pending
    requires c.maturityAt.Some? ==> now >= c.maturityAt.value
    ensures ClaimOk(c.(status := Settled, settledAt := Some(now)), now)
  {
  }

  lemma AbandonedIsOk(c: LockedClaim, now: i64)
    requires ClaimOk(c, now) && c.status == Pending
    requires c.holderRecoveryAt.Some? && now >= c.holderRecoveryAt.value
    ensures ClaimOk(c.(status := Abandoned, recoveredAt := Some(now)), now)
  {
  }

  lemma TransferredIsOk(c: LockedClaim, now: i64, newHolder: Pubkey)
    requires ClaimOk(c, now)
    ensures ClaimOk(c.(currentHolder := newHolder), now)
  {
  }

  /** One claim of vault `vk` written, with the vault's odometers moved to match. */
  ghost predicate LedgerMoves(s: State, s': State, ck: Pubkey, vk: Pubkey) {
    && vk in s.vaults && s'.vaults.Keys == s.vaults.Keys && s'.now == s.now
    && ck in s'.claims && s'.claims == s.claims[ck := s'.claims[ck]]
    && s'.claims[ck].vault == vk
    && (ck in s.claims ==> s.claims[ck].vault == vk)
    && (forall v :: v in s.vaults && v != vk ==> s'.vaults[v] == s.vaults[v])
    && Balanced(s'.claims, vk, s'.vaults[vk])
    && ClaimPlaced(s', ck)
  }

  lemma LedgerMoveKeepsClaimsOk(s: State, s': State, ck: Pubkey, vk: Pubkey)
    requires ClaimsOk(s) && LedgerMoves(s, s', ck, vk)
    ensures ClaimsOk(s')
  {
    hide Sum, ClaimOk, Pair;
    forall k | k in s'.claims ensures ClaimPlaced(s', k) {
      if k != ck { assert ClaimPlaced(s, k); }
    }
    forall v | v in s'.vaults ensures Balanced(s'.claims, v, s'.vaults[v]) {
      if v != vk {
        assert Balanced(s.claims, v, s.vaults[v]);
        PutClaim(s.claims, ck, s'.claims[ck], v);
      }
    }
  }

  lemma LockMoves(s: State, vk: Pubkey, sk: Pubkey, a: LockArgs, holder: Pubkey, authority: Pubkey, voucherOk: bool,
                  hashOk: bool)
    requires ClaimsOk(s)
    requires LockVoucher(s, vk, sk, a, holder, authority, voucherOk, hashOk).Ok?
    ensures LedgerMoves(s, LockVoucher(s, vk, sk, a, holder, authority, voucherOk, hashOk).value,
                        ClaimAddress(vk, a.voucherHash), vk)
    ensures var s' := LockVoucher(s, vk, sk, a, holder, authority, voucherOk, hashOk).value;
            var ck := ClaimAddress(vk, a.voucherHash);
            && ck !in s.claims && sk in s.sessions
            && s'.claims[ck].status == Pending
            && s'.claims[ck].amount == a.cumulative - s.sessions[sk].reg.crystallized
            && s'.claims[ck].currentHolder == holder
            && (s'.claims[ck].maturityAt, s'.claims[ck].holderRecoveryAt) == (a.maturityAt, a.holderRecoveryAt)
            && s'.balances == s.balances
  {
    hide Sum, SessionAddress, Pair;
    var s' := LockVoucher(s, vk, sk, a, holder, authority, voucherOk, hashOk).value;
    var ck := ClaimAddress(vk, a.voucherHash);
    assert Balanced(s.claims, vk, s.vaults[vk]);
    PutClaim(s.claims, ck, s'.claims[ck], vk);
    SumNonNegative(s.claims, ClaimedAmount(vk));
  }

  /** A pending claim that ends with `status` takes its amount out of the outstanding total. */
  ghost predicate Closes(s: State, s': State, ck: Pubkey, vk: Pubkey, status: ClaimStatus) {
    && ck in s.claims && s.claims[ck].status == Pending && s.claims[ck].vault == vk && vk in s.vaults
    && s'.now == s.now
    && ck in s'.claims && s'.claims == s.claims[ck := s'.claims[ck]]
    && s'.claims[ck] == (if status == Settled then s.claims[ck].(status := Settled, settledAt := Some(s.now))
                         else s.claims[ck].(status := Abandoned, recoveredAt := Some(s.now)))
    && vk in s'.vaults && s'.vaults == s.vaults[vk := s'.vaults[vk]]
    && s'.vaults[vk].outstandingLocked == s.vaults[vk].outstandingLocked - s.claims[ck].amount
    && s'.vaults[vk].totalCrystallized == s.vaults[vk].totalCrystallized
    && s'.vaults[vk].totalSettled
         == (if status == Settled then SatAdd64(s.vaults[vk].totalSettled, s.claims[ck].amount)
             else s.vaults[vk].totalSettled)
  }

  lemma ClosingBalances(s: State, s': State, ck: Pubkey, vk: Pubkey, status: ClaimStatus)
    requires Closes(s, s', ck, vk, status) && status != Pending
    requires Balanced(s.claims, vk, s.vaults[vk])
    ensures Balanced(s'.claims, vk, s'.vaults[vk])
  {
    hide Sum;
    PutClaim(s.claims, ck, s'.claims[ck], vk);
    SumNonNegative(s.claims, SettledAmount(vk));
  }

  lemma ClosingMovesLedger(s: State, s': State, ck: Pubkey, vk: Pubkey, status: ClaimStatus)
    requires ClaimsOk(s) && status != Pending
    requires Closes(s, s', ck, vk, status)
    requires ClaimOk(s'.claims[ck], s.now)
    ensures LedgerMoves(s, s', ck, vk)
  {
    hide Sum, Pair, ClaimOk, Balanced;
    assert ClaimPlaced(s, ck);
    ClosingBalances(s, s', ck, vk, status);
  }

  lemma SettleLockedMoves(s: State, vk: Pubkey, ck: Pubkey, holder: Pubkey, authority: Pubkey)
    requires ClaimsOk(s)
    requires SettleLockedVoucher(s, vk, ck, holder, authority).Ok?
    ensures var s' := SettleLockedVoucher(s, vk, ck, holder, authority).value;
            Closes(s, s', ck, vk, Settled) && LedgerMoves(s, s', ck, vk)
  {
    hide Sum, Pair, ClaimOk, Balanced, LedgerMoves;
    PendingIsReserved(s, ck);
    assert ClaimPlaced(s, ck);
    SettledIsOk(s.claims[ck], s.now);
    ClosingMovesLedger(s, SettleLockedVoucher(s, vk, ck, holder, authority).value, ck, vk, Settled);
  }

  lemma RecoverMoves(s: State, vk: Pubkey, ck: Pubkey, passkeyOk: bool)
    requires ClaimsOk(s)
    requires RecoverAbandonedLock(s, vk, ck, passkeyOk).Ok?
    ensures var s' := RecoverAbandonedLock(s, vk, ck, passkeyOk).value;
            Closes(s, s', ck, vk, Abandoned) && LedgerMoves(s, s', ck, vk)
  {
    hide Sum, Pair, ClaimOk, Balanced, LedgerMoves;
    PendingIsReserved(s, ck);
    assert ClaimPlaced(s, ck);
    AbandonedIsOk(s.claims[ck], s.now);
    ClosingMovesLedger(s, RecoverAbandonedLock(s, vk, ck, passkeyOk).value, ck, vk, Abandoned);
  }

  lemma TransferMoves(s: State, ck: Pubkey, holder: Pubkey, newHolder: Pubkey)
    requires ClaimsOk(s)
    requires TransferLockOwnership(s, ck, holder, newHolder).Ok?
    ensures LedgerMoves(s, TransferLockOwnership(s, ck, holder, newHolder).value, ck, s.claims[ck].vault)
    ensures TransferLockOwnership(s, ck, holder, newHolder).value
         == s.(claims := s.claims[ck := s.claims[ck].(currentHolder := newHolder)])
    ensures s.claims[ck].status == Pending && s.claims[ck].currentHolder == holder
  {
    hide Sum, Pair, ClaimOk;
    var s' := TransferLockOwnership(s, ck, holder, newHolder).value;
    var vk := s.claims[ck].vault;
    assert ClaimPlaced(s, ck);
    TransferredIsOk(s.claims[ck], s.now, newHolder);
    assert Balanced(s.claims, vk, s.vaults[vk]);
    PutClaim(s.claims, ck, s'.claims[ck], vk);
  }

  // ---- Every run -----------------------------------------------------------------------------

  lemma ExecKeepsClaimsOk(bumps: Bumps, s: State, c: Call)
    requires ClaimsOk(s)
    ensures ClaimsOk(Exec(bumps, s, c))
  {
    hide ClaimsOk, SameLedger, LedgerMoves, EnvStep, SessionStep, UpgradeStep, CreditStep, ExitStep, SettleVoucher,
         SettleTabVoucher, LockVoucher, SettleLockedVoucher, RecoverAbandonedLock, TransferLockOwnership;
    if Step(bumps, s, c).Ok? {
      var s' := Step(bumps, s, c).value;
      match c
      case Env(e) =>
        if e.Initializes? { InitializeKeepsClaimsOk(s, e); }
        else { EnvKeepsLedger(s, e); SameLedgerKeepsClaimsOk(s, s'); }
      case Session(e) => SessionKeepsLedger(bumps, s, e); SameLedgerKeepsClaimsOk(s, s');
      case Upgrade(e) => UpgradeKeepsLedger(bumps, s, e); SameLedgerKeepsClaimsOk(s, s');
      case Tab(Locks(vk, sk, a, holder, authority, ok, hashOk)) =>
        LockMoves(s, vk, sk, a, holder, authority, ok, hashOk);
        LedgerMoveKeepsClaimsOk(s, s', ClaimAddress(vk, a.voucherHash), vk);
      case Tab(e) => TabKeepsLedger(s, e); SameLedgerKeepsClaimsOk(s, s');
      case Claim(SettlesLocked(vk, ck, holder, authority)) =>
        SettleLockedMoves(s, vk, ck, holder, authority);
        LedgerMoveKeepsClaimsOk(s, s', ck, vk);
      case Claim(Recovers(vk, ck, ok)) =>
        RecoverMoves(s, vk, ck, ok);
        LedgerMoveKeepsClaimsOk(s, s', ck, vk);
      case Claim(Transfers(ck, holder, newHolder)) =>
        TransferNeedsClaim(s, ck, holder, newHolder);
        TransferMoves(s, ck, holder, newHolder);
        LedgerMoveKeepsClaimsOk(s, s', ck, s.claims[ck].vault);
      case Credit(e) => CreditKeepsLedger(s, e); SameLedgerKeepsClaimsOk(s, s');
      case Exit(e) => ExitKeepsLedger(s, e); SameLedgerKeepsClaimsOk(s, s');
    }
  }

  lemma TransferNeedsClaim(s: State, ck: Pubkey, holder: Pubkey, newHolder: Pubkey)
    requires TransferLockOwnership(s, ck, holder, newHolder).Ok?
    ensures ck in s.claims
  {
  }

  /** In every run outstanding_locked_amount is the sum of the pending claims, and the two lifetime
      odometers are the saturated sums of the settled claims and of all claims ever created. */
  lemma {:induction false} RunKeepsClaimsOk(bumps: Bumps, s: State, calls: seq<Call>)
    requires ClaimsOk(s)
    ensures ClaimsOk(Run(bumps, s, calls))
    decreases |calls|
  {
    if calls == [] {
    } else {
      hide ClaimsOk, Exec;
      var n := |calls| - 1;
      RunKeepsClaimsOk(bumps, s, calls[..n]);
      ExecKeepsClaimsOk(bumps, Run(bumps, s, calls[..n]), calls[n]);
    }
  }

  // ---- The life of one claim -----------------------------------------------------------------

  lemma ClaimEvolves(s: State, c: ClaimCall, ck: Pubkey)
    requires ck in s.claims && ClaimStep(s, c).Ok?
    ensures var s' := ClaimStep(s, c).value;
            ck in s'.claims && Evolves(s.claims[ck], s'.claims[ck])
  {
    hide Pair;
  }

  lemma ExecEvolves(bumps: Bumps, s: State, c: Call, ck: Pubkey)
    requires ck in s.claims
    ensures var s' := Exec(bumps, s, c);
            && ck in s'.claims
            && Evolves(s.claims[ck], s'.claims[ck])
            && (!c.Claim? ==> s'.claims[ck] == s.claims[ck])
  {
    hide EnvStep, SessionStep, UpgradeStep, ClaimStep, CreditStep, ExitStep, SettleVoucher, SettleTabVoucher,
         SameOdometers, SessionAddress, Pair;
    if Step(bumps, s, c).Ok? {
      match c
      case Env(e) => if e.Initializes? { InitializeKeepsClaims(s, e); } else { EnvKeepsLedger(s, e); }
      case Session(e) => SessionKeepsLedger(bumps, s, e);
      case Upgrade(e) => UpgradeKeepsLedger(bumps, s, e);
      case Tab(e) => if !e.Locks? { TabKeepsLedger(s, e); }
      case Claim(e) => ClaimEvolves(s, e, ck);
      case Credit(e) => CreditKeepsLedger(s, e);
      case Exit(e) => ExitKeepsLedger(s, e);
    }
  }

  lemma InitializeKeepsClaims(s: State, c: EnvCall)
    requires c.Initializes? && EnvStep(s, c).Ok?
    ensures EnvStep(s, c).value.claims == s.claims
  {
  }

  /** Over any run a claim keeps its vault, hash, amount and deadlines; it leaves Pending at most
      once and is final afterwards; and it is never removed. */
  lemma {:induction false} RunEvolves(bumps: Bumps, s: State, calls: seq<Call>, ck: Pubkey)
    requires ck in s.claims
    ensures var s' := Run(bumps, s, calls);
            ck in s'.claims && Evolves(s.claims[ck], s'.claims[ck])
    decreases |calls|
  {
    if calls == [] {
    } else {
      hide Exec;
      var n := |calls| - 1;
      RunEvolves(bumps, s, calls[..n], ck);
      ExecEvolves(bumps, Run(bumps, s, calls[..n]), calls[n], ck);
    }
  }

  /** A voucher locked once can never be locked again, whatever happened to its claim. */
  lemma VoucherLocksOnce(bumps: Bumps, s: State, calls: seq<Call>, vk: Pubkey, sk: Pubkey, a: LockArgs, holder: Pubkey,
                         authority: Pubkey, voucherOk: bool, hashOk: bool)
    requires ClaimAddress(vk, a.voucherHash) in s.claims
    ensures LockVoucher(Run(bumps, s, calls), vk, sk, a, holder, authority, voucherOk, hashOk).Err?
  {
    hide Pair, Run, SessionAddress;
    RunEvolves(bumps, s, calls, ClaimAddress(vk, a.voucherHash));
  }
}
