/** The account store as the runtime holds it. An instruction changes the accounts in place; when it, or the
    transfer it authorizes, ends in an error, the runtime puts back what it had found. */
module Bank {
  import opened Prelude
  import opened State
  import P = Protocol
  import opened SessionCount
  import opened ClaimLedger
  import opened CreditLedger
  import opened Solvency
  import Refinement
  import SiblingScan
  import Spec = Specification
  import Sums
  import Tabs
  import Withdrawal

  class Bank {
    const bumps: P.Bumps
    ghost const start: State
    ghost var history: seq<P.Call>
    var now: i64
    var vaults: map<Pubkey, Vault>
    var sessions: map<Pubkey, SessionAccount>
    var claims: map<Pubkey, LockedClaim>
    var backers: map<Pubkey, StandbyBacker>
    var balances: map<Pubkey, u64>

    function View(): State
      reads this
    {
      State(now, vaults, sessions, claims, backers, balances)
    }

    /** No successful register on the vault was so far handed a cleared account. */
    ghost predicate OnlyLiveSoFar(v: Pubkey)
      reads this
    {
      OnlyLive(bumps, start, history, v)
    }

    /** The store is what its history makes of its start, and the ledgers are in order. */
    ghost predicate Valid()
      reads this
    {
      && Begins(bumps, start) && CreditOk(start)
      && View() == P.Run(bumps, start, history)
      && ClaimsOk(View()) && CreditOk(View()) && PlacedOk(bumps, View())
      && forall v :: OnlyLiveSoFar(v) ==> CountRight(View(), v)
    }

    /** How a handler ends: with the step's accounts, or with its error and whatever it had already written. */
    ghost predicate Ends(r: Result<()>, outcome: Result<State>)
      reads this
    {
      match outcome
      case Ok(after) => r == Ok(()) && View() == after
      case Err(error) => r == Err(error)
    }

    /** The outcome, and the accounts as they then are, are what is specified of the call. */
    ghost predicate Meets(r: Result<()>, before: State, c: P.Call)
      reads this
    {
      match Spec.Refusal(bumps, before, c)
      case Some(error) => r == Err(error)
      case None => r == Ok(()) && Spec.Leaves(bumps, before, View(), c)
    }

    constructor (bumps: P.Bumps, chain: State)
      requires Begins(bumps, chain) && CreditOk(chain)
      ensures Valid() && View() == chain && history == [] && this.bumps == bumps && start == chain
    {
      this.bumps := bumps;
      start, history := chain, [];
      now, vaults, sessions, claims, backers, balances :=
        chain.now, chain.vaults, chain.sessions, chain.claims, chain.backers, chain.balances;
    }

    // ---- Account validation ------------------------------------------------------------------

    function LoadVault(vk: Pubkey): Result<Vault>
      reads this
    {
      if vk in vaults then Ok(vaults[vk]) else Err(AccountMissing)
    }

    function LoadClaim(ck: Pubkey): Result<LockedClaim>
      reads this
    {
      if ck in claims then Ok(claims[ck]) else Err(AccountMissing)
    }

    function LoadBacker(financier: Pubkey): Result<StandbyBacker>
      reads this
    {
      if financier in backers then Ok(backers[financier]) else Err(AccountMissing)
    }

    method LoadSession(vk: Pubkey, sk: Pubkey, counterparty: Pubkey) returns (r: Result<SessionAccount>)
      ensures r == P.SessionAt(View(), vk, sk, counterparty)
    {
      if sk !in sessions {
        return Err(AccountMissing);
      }
      var session := sessions[sk];
      if sk != SessionAddress(vk, counterparty, session.bump) {
        return Err(ConstraintSeeds);
      }
      return Ok(session);
    }

    /** The SignV2 transfer out of a wallet, or the token program's refusal. */
    method Transfer(wallet: Pubkey, amount: u64) returns (r: Result<()>)
      modifies this`balances
      ensures Ends(r, P.Debit(old(View()), wallet, amount))
    {
      var balance := if wallet in balances then balances[wallet] else 0;
      if balance < amount {
        return Err(InsufficientFunds);
      }
      balances := balances[wallet := balance - amount];
      return Ok(());
    }

    /** What both terminal paths check of a session before they look at the signature. */
    method GuardVoucher(session: SessionAccount, cumulative: u64) returns (r: Result<()>)
      ensures match P.VoucherGuards(View(), session, cumulative)
        case Pass => r == Ok(())
        case Fail(error) => r == Err(error)
      ensures r.Ok? ==> session.reg.Frontier() < cumulative <= session.reg.maxAmount
    {
      if session.version == 0 {
        return Err(NoActiveSession);
      }
      var active := session.reg;
      :- Need(now < active.expiresAt, SessionExpiryInPast);
      var frontier := if active.spent >= active.crystallized then active.spent else active.crystallized;
      :- Need(cumulative > frontier, LockRangeAlreadyClaimed);
      :- Need(cumulative <= active.maxAmount, InvalidVoucherSignature);
      return Ok(());
    }

    // ---- The environment ---------------------------------------------------------------------

    method Tick(seconds: nat) returns (r: Result<()>)
      modifies this`now
      ensures Ends(r, P.Tick(old(View()), seconds))
      ensures r.Ok? <==> old(now) + seconds <= I64_MAX
      ensures old(now) <= now
    {
      if now + seconds > I64_MAX {
        return Err(ArithmeticOverflow);
      }
      now := now + seconds;
      return Ok(());
    }

    method Deposit(wallet: Pubkey, amount: u64) returns (r: Result<()>)
      modifies this`balances
      ensures Ends(r, P.Deposit(old(View()), wallet, amount))
      ensures r.Ok? ==> View().Balance(wallet) == old(View()).Balance(wallet) + amount
    {
      var balance := if wallet in balances then balances[wallet] else 0;
      if balance + amount > U64_MAX {
        return Err(ArithmeticOverflow);
      }
      balances := balances[wallet := balance + amount];
      return Ok(());
    }

    /** A new vault owes, holds and has promised nothing: it is solvent from its first moment. */
    method InitializeVault(vk: Pubkey, passkeyPrefix: u8, coolingOff: u32, authority: Pubkey) returns (r: Result<()>)
      requires Valid()
      modifies this`vaults
      ensures Ends(r, P.InitializeVault(old(View()), vk, passkeyPrefix, coolingOff, authority))
      ensures r.Ok? <==> vk !in old(vaults) && (passkeyPrefix == 2 || passkeyPrefix == 3)
      ensures r.Ok? ==> vk in vaults && vaults[vk].standbyBacker.None? && vaults[vk].swig == DEFAULT_KEY
      ensures r.Ok? ==> LiveSet(View(), vk) == {} && Solvent(View(), vk)
    {
      hide P.Run, Begins, ClaimsOk, CreditOk, PlacedOk, CountRight, OnlyLive;
      ghost var before := View();
      if vk in vaults {
        return Err(AccountInUse);
      }
      if passkeyPrefix != 2 && passkeyPrefix != 3 {
        return Err(PasskeyVerificationFailed);
      }
      vaults := vaults[vk := Vault(VAULT_VERSION_V6, DEFAULT_KEY, coolingOff, 0, None, authority,
                                   0, 0, 0, 0, 0, None, 0, None, None)];
      NewVaultIsIdle(bumps, before, View(), vk);
      return Ok(());
    }

    /** A vault is bound to its wallet once. */
    method SetSwig(vk: Pubkey, swig: Pubkey, passkeyOk: bool) returns (r: Result<()>)
      modifies this`vaults
      ensures Ends(r, P.SetSwig(old(View()), vk, swig, passkeyOk))
      ensures vk in old(vaults) && old(vaults)[vk].swig != DEFAULT_KEY ==> r.Err?
      ensures r.Ok? ==> vk in vaults && vaults[vk].swig == swig
    {
      var v :- LoadVault(vk);
      :- Need(P.KnownVersion(v), UnsupportedVaultVersion);
      :- Need(v.swig == DEFAULT_KEY, PasskeyVerificationFailed);
      :- Need(passkeyOk, PasskeyVerificationFailed);
      vaults := vaults[vk := v.(swig := swig)];
      return Ok(());
    }

    // ---- Sessions ----------------------------------------------------------------------------

    /** The sibling loop sums and counts the unexpired siblings and clears the expired ones where they are. */
    method ScanSiblings(vk: Pubkey, target: Pubkey, refs: seq<P.AccountRef>) returns (r: Result<(u64, u8, u8)>)
      modifies this`sessions
      ensures match P.ScanSiblings(now, vk, target, old(sessions), refs)
        case Err(error) => r == Err(error)
        case Ok(scan) => r == Ok((scan.sum, scan.live, scan.swept)) && sessions == scan.sessions
      ensures r.Ok? ==> SiblingScan.Ascending(refs)
      ensures r.Ok? ==>
        SiblingScan.ScanFacts(now, old(sessions), SiblingScan.Keys(refs),
                              P.Scan(r.value.0, r.value.1, r.value.2, sessions))
    {
      hide SessionAddress, SiblingScan.ScanFacts, SiblingScan.Keys;
      ghost var before: map<Pubkey, SessionAccount> := sessions;
      var siblingSum: u64, live: u8, swept: u8, prev: Option<Pubkey> := 0, 0, 0, None;
      for i := 0 to |refs|
        invariant P.ScanSiblings(now, vk, target, before, refs[..i]) == Ok(P.Scan(siblingSum, live, swept, sessions))
        invariant prev == P.LastKey(refs[..i])
      {
        var acct := refs[i];
        assert refs[..i + 1][..i] == refs[..i];
        ScanFailsFrom(now, vk, target, before, refs, i + 1);
        if prev.Some? && acct.key <= prev.value {
          return Err(SessionAccountsNotSorted);
        }
        prev := Some(acct.key);
        :- Need(acct.key != target, SessionAccountMisderived);
        :- Need(acct.key in sessions, SessionAccountForeign);
        var sib := sessions[acct.key];
        :- Need(sib.vault == vk, SessionAccountForeign);
        :- Need(acct.key == SessionAddress(vk, sib.reg.counterparty, sib.bump), SessionAccountMisderived);
        if sib.reg.expiresAt > now {
          siblingSum :- CheckedAdd64(siblingSum, sib.reg.maxAmount, SessionWouldOvercommitVault);
          live :- CheckedAdd8(live, 1, SessionWouldOvercommitVault);
        } else {
          :- Need(acct.writable, SessionAccountNotWritable);
          sessions := sessions[acct.key := sib.(version := 0, reg := NO_SESSION)];
          swept :- CheckedAdd8(swept, 1, SessionWouldOvercommitVault);
        }
      }
      assert refs[..|refs|] == refs;
      SiblingScan.ScanEstablishes(now, vk, target, before, refs);
      return Ok((siblingSum, live, swept));
    }

    /** Accepted on live accounts exactly when they are the complete sibling list; afterwards every live session is
        unexpired and all their caps fit beside the locked amount. No other vault's sessions move, whatever the list. */
    method RegisterSessionKey(vk: Pubkey, a: P.RegisterArgs, refs: seq<P.AccountRef>, passkeyOk: bool)
      returns (r: Result<()>)
      requires Valid()
      modifies this`vaults, this`sessions
      ensures Ends(r, P.RegisterSessionKey(bumps, old(View()), vk, a, refs, passkeyOk))
      ensures r.Ok? ==>
        var target := P.RegisterTarget(bumps, vk, a.counterparty);
        && target in sessions && sessions[target].version == 1 && sessions[target].vault == vk
        && var got := sessions[target].reg;
        && got.sessionPubkey == a.sessionPubkey && got.counterparty == a.counterparty && got.nonce == a.nonce
        && got.maxAmount == a.maxAmount && got.expiresAt == a.expiresAt && got.maxRevolving == a.maxRevolving
        && got.spent == got.currentOutstanding == got.crystallized == got.lastLockedSequence == 0
      ensures r.Ok? ==> forall v :: v != vk ==> LiveSet(View(), v) == old(LiveSet(View(), v))
      ensures OnlyLiveSoFar(vk) && PassesLive(old(View()), refs)
        ==> (r.Ok? <==> RegisterAccepts(bumps, old(View()), vk, a, refs, passkeyOk))
      ensures OnlyLiveSoFar(vk) && PassesLive(old(View()), refs) && r.Ok?
        ==> vk in vaults
            && (forall k :: k in LiveSet(View(), vk) ==> sessions[k].reg.expiresAt > now)
            && Sums.Sum(sessions, LiveCap(vk)) + vaults[vk].outstandingLocked <= View().Balance(vaults[vk].swig)
    {
      hide P.RegisterSessionKey, ClaimsOk, CreditOk, PlacedOk, CountRight, OnlyLive, P.Run, Begins, RegisterAccepts,
           PassesLive, LiveSet, LiveCap, Sums.Sum;
      if OnlyLiveSoFar(vk) && PassesLive(View(), refs) {
        RegisterOnLive(bumps, View(), vk, a, refs, passkeyOk);
      }
      if P.RegisterSessionKey(bumps, View(), vk, a, refs, passkeyOk).Ok? {
        RegisterKeepsPlacedOk(bumps, View(), vk, a, refs, passkeyOk);
        RegisterYieldsTarget(bumps, View(), vk, a, refs, passkeyOk);
      }
      r := ApplyRegistration(vk, a, refs, passkeyOk);
    }

    /** The guards of a registration around the sibling loop, then its writes to the vault and the target. */
    method ApplyRegistration(vk: Pubkey, a: P.RegisterArgs, refs: seq<P.AccountRef>, passkeyOk: bool)
      returns (r: Result<()>)
      modifies this`vaults, this`sessions
      ensures Ends(r, P.RegisterSessionKey(bumps, old(View()), vk, a, refs, passkeyOk))
    {
      hide SessionAddress, SiblingScan.ScanFacts, SiblingScan.Keys, SiblingScan.Ascending, P.ScanSiblings,
           P.FreshRegistration;
      var v :- LoadVault(vk);
      var bump := bumps(vk, a.counterparty);
      var target := SessionAddress(vk, a.counterparty, bump);
      var session := P.SessionOrZero(sessions, target);
      var isNew := session.version == 0;
      :- Need(v.version == VAULT_VERSION_V6, UnsupportedVaultVersion);
      :- Need(a.maxAmount > 0, SessionCapZero);
      :- Need(a.maxRevolving > 0, RevolvingCapacityZero);
      :- Need(a.expiresAt > now, SessionExpiryInPast);
      :- Need(v.liveSessions < 255, SessionCountAtMax);

      var scanned :- ScanSiblings(vk, target, refs);
      var siblingSum, live, swept := scanned.0, scanned.1, scanned.2;

      var totalPassed :- CheckedAdd8(live, swept, IncompleteSessionSet);
      var expectedTotal :- CheckedSub8(v.liveSessions, if isNew then 0 else 1, IncompleteSessionSet);
      :- Need(totalPassed == expectedTotal, IncompleteSessionSet);
      var combined :- CheckedAdd64(siblingSum, a.maxAmount, SessionWouldOvercommitVault);
      combined :- CheckedAdd64(combined, v.outstandingLocked, SessionWouldOvercommitVault);
      :- Need(combined <= View().Balance(v.swig), SessionWouldOvercommitVault);
      :- Need(passkeyOk, PasskeyVerificationFailed);

      // Neither checked operation can fail past the completeness equation.
      var count: u8 := v.liveSessions - swept;
      if isNew {
        count := count + 1;
        session := SessionAccount(SESSION_VERSION_V1, bump, vk, session.reg);
      }
      session := session.(reg := P.FreshRegistration(a));
      vaults := vaults[vk := v.(liveSessions := count)];
      sessions := sessions[target := session];
      return Ok(());
    }

    /** Revoke takes exactly one session out of the live set, and its decrement cannot fail. */
    method RevokeSessionKey(vk: Pubkey, sk: Pubkey, counterparty: Pubkey, passkeyOk: bool) returns (r: Result<()>)
      requires Valid()
      modifies this`vaults, this`sessions
      ensures Ends(r, P.RevokeSessionKey(old(View()), vk, sk, counterparty, passkeyOk))
      ensures OnlyLiveSoFar(vk) ==> r != Err(IncompleteSessionSet)
      ensures r.Ok? ==>
        && sk in old(LiveSet(View(), vk)) && LiveSet(View(), vk) == old(LiveSet(View(), vk)) - {sk}
        && vk in vaults && (OnlyLiveSoFar(vk) ==> vaults[vk].liveSessions == |LiveSet(View(), vk)|)
    {
      hide SessionAddress, P.Run, Begins, ClaimsOk, CreditOk, OnlyLive, Placed, LiveSet;
      ghost var before := View();
      RevokeTakesOne(bumps, before, vk, sk, counterparty, passkeyOk);
      var v :- LoadVault(vk);
      var session :- LoadSession(vk, sk, counterparty);
      :- Need(v.version == VAULT_VERSION_V6, UnsupportedVaultVersion);
      :- Need(session.version != 0, NoActiveSession);
      :- Need(passkeyOk, PasskeyVerificationFailed);
      sessions := sessions[sk := session.(version := 0, reg := NO_SESSION)];
      var count :- CheckedSub8(v.liveSessions, 1, IncompleteSessionSet);
      vaults := vaults[vk := v.(liveSessions := count)];
      return Ok(());
    }

    /** Closing takes away an account that was not live, so no live set changes. */
    method CloseSession(vk: Pubkey, sk: Pubkey, counterparty: Pubkey, authority: Pubkey) returns (r: Result<()>)
      modifies this`sessions
      ensures Ends(r, P.CloseSession(old(View()), vk, sk, counterparty, authority))
      ensures r.Ok? ==> sk in old(sessions) && old(sessions)[sk].version == 0 && sk !in sessions
      ensures r.Ok? ==> forall v :: LiveSet(View(), v) == old(LiveSet(View(), v))
    {
      hide SessionAddress;
      var v :- LoadVault(vk);
      :- Need(v.dexterAuthority == authority, PasskeyVerificationFailed);
      var session :- LoadSession(vk, sk, counterparty);
      :- Need(v.version == VAULT_VERSION_V6, UnsupportedVaultVersion);
      :- Need(session.version == 0, SessionStillLive);
      ghost var before := View();
      sessions := sessions - {sk};
      assert Loses(before, View(), sk);
      forall k
        ensures LiveSet(View(), k) == LiveSet(before, k)
      {
        LosingMovesLiveSet(before, View(), sk, k);
        assert LiveSet(before, k) - {sk} == LiveSet(before, k);
      }
      return Ok(());
    }

    // ---- Migration ---------------------------------------------------------------------------

    /** A vault that leaves V5 without a live session counts none, and there is none. */
    method MigrateV5ToV6(vk: Pubkey, authority: Pubkey) returns (r: Result<()>)
      requires Valid()
      modifies this`vaults
      ensures Ends(r, P.MigrateV5ToV6(old(View()), vk, authority))
      ensures r.Ok? ==> vk in vaults && vaults[vk].version == VAULT_VERSION_V6 && vaults[vk].activeSession.None?
      ensures r.Ok? ==> vaults[vk].liveSessions == |LiveSet(View(), vk)| == 0
    {
      hide P.Run, Begins, ClaimsOk, CreditOk, OnlyLive, Placed;
      ghost var before := View();
      var v :- LoadVault(vk);
      :- Need(v.version == VAULT_VERSION_V5, UnsupportedVaultVersion);
      :- Need(v.dexterAuthority == authority, PasskeyVerificationFailed);
      if v.activeSession.Some? {
        :- Need(v.activeSession.value.expiresAt <= now, SessionAlreadyActive);
      }
      assert Vacant(before, vk);
      vaults := vaults[vk := v.(version := VAULT_VERSION_V6, liveSessions := 0, activeSession := None)];
      assert LiveSet(View(), vk) == LiveSet(before, vk);
      return Ok(());
    }

    /** The session carried out is the one inline session, as it was, and the only live one. */
    method MigrateV5ToV6WithSession(vk: Pubkey, counterparty: Pubkey, authority: Pubkey) returns (r: Result<()>)
      requires Valid()
      modifies this`vaults, this`sessions
      ensures Ends(r, P.MigrateV5ToV6WithSession(bumps, old(View()), vk, counterparty, authority))
      ensures r.Ok? ==>
        var target := P.RegisterTarget(bumps, vk, counterparty);
        && vk in old(vaults) && vk in vaults && target in sessions
        && old(vaults)[vk].activeSession == Some(sessions[target].reg)
        && sessions[target].reg.expiresAt > now
      ensures r.Ok? ==>
        && LiveSet(View(), vk) == {P.RegisterTarget(bumps, vk, counterparty)}
        && vaults[vk].liveSessions == |LiveSet(View(), vk)|
    {
      hide P.Run, Begins, ClaimsOk, CreditOk, OnlyLive, Placed, LiveSet, SessionAddress;
      ghost var before := View();
      var v :- LoadVault(vk);
      var target := P.RegisterTarget(bumps, vk, counterparty);
      :- Need(target !in sessions, AccountInUse);
      :- Need(v.version == VAULT_VERSION_V5, UnsupportedVaultVersion);
      :- Need(v.dexterAuthority == authority, PasskeyVerificationFailed);
      var carried :- OkOr(v.activeSession, NoActiveSession);
      :- Need(carried.expiresAt > now, SessionExpiryInPast);
      :- Need(carried.counterparty == counterparty, SessionAccountMisderived);
      sessions := sessions[target := SessionAccount(SESSION_VERSION_V1, bumps(vk, counterparty), vk, carried)];
      vaults := vaults[vk := v.(version := VAULT_VERSION_V6, liveSessions := 1, activeSession := None)];
      assert Vacant(before, vk);
      UpgradeMovesLiveSet(bumps, before, P.MigratesWithSession(vk, counterparty, authority), vk);
      return Ok(());
    }

    // ---- Vouchers ----------------------------------------------------------------------------

    /** Opening a tab raises the revolving meter by the amount and never above its capacity, and counts one voucher
        more unless the count is full; releasing one touches no session. */
    method SettleVoucher(vk: Pubkey, osk: Option<Pubkey>, counterparty: Pubkey, amount: u64, increment: bool,
                         authority: Pubkey)
      returns (r: Result<()>)
      modifies this`vaults, this`sessions
      ensures Ends(r, P.SettleVoucher(old(View()), vk, osk, counterparty, amount, increment, authority))
      ensures r.Ok? && increment ==>
        && osk.Some? && osk.value in old(sessions) && osk.value in sessions
        && var was, got := old(sessions)[osk.value].reg, sessions[osk.value].reg;
        && got.currentOutstanding == was.currentOutstanding + amount <= got.maxRevolving
        && got == was.(currentOutstanding := got.currentOutstanding)
        && vk in old(vaults) && vk in vaults
        && vaults[vk].pendingVouchers == Min(old(vaults)[vk].pendingVouchers + 1, U32_MAX)
      ensures r.Ok? && !increment ==>
        && sessions == old(sessions) && vk in old(vaults) && vk in vaults
        && vaults[vk].pendingVouchers + 1 == old(vaults)[vk].pendingVouchers
    {
      hide SessionAddress;
      var v :- LoadVault(vk);
      :- Need(v.dexterAuthority == authority, PasskeyVerificationFailed);
      var session := P.SessionOrZero(map[], DEFAULT_KEY);
      if osk.Some? {
        session :- LoadSession(vk, osk.value, counterparty);
      }
      :- Need(v.version == VAULT_VERSION_V6, UnsupportedVaultVersion);
      if increment {
        vaults := vaults[vk := v.(pendingVouchers := SatAdd32(v.pendingVouchers, 1))];
        if osk.None? || session.version == 0 {
          return Err(NoActiveSession);
        }
        var outstanding :- CheckedAdd64(session.reg.currentOutstanding, amount, RevolvingCapacityExceeded);
        :- Need(outstanding <= session.reg.maxRevolving, RevolvingCapacityExceeded);
        sessions := sessions[osk.value := session.(reg := session.reg.(currentOutstanding := outstanding))];
      } else {
        :- Need(v.pendingVouchers > 0, NoPendingWithdrawal);
        vaults := vaults[vk := v.(pendingVouchers := v.pendingVouchers - 1)];
      }
      return Ok(());
    }

    /** The wallet pays exactly what the voucher adds to `spent`, and the frontier moves up to the voucher; the meter
        falls by what was paid as far as zero, and one voucher less is awaited, if any was. */
    method SettleTabVoucher(vk: Pubkey, sk: Pubkey, counterparty: Pubkey, cumulative: u64, authority: Pubkey,
                            voucherOk: bool)
      returns (r: Result<()>)
      modifies this`vaults, this`sessions, this`balances
      ensures Ends(r, P.SettleTabVoucher(old(View()), vk, sk, counterparty, cumulative, authority, voucherOk))
      ensures r.Ok? ==>
        && vk in old(vaults) && sk in old(sessions) && sk in sessions
        && var was, got := old(sessions)[sk].reg, sessions[sk].reg;
        var wallet := old(vaults)[vk].swig;
        && was.Frontier() < got.Frontier() == cumulative <= got.maxAmount
        && got.spent == cumulative
        && got.currentOutstanding == Max(0, was.currentOutstanding - (cumulative - was.spent))
        && got == was.(spent := got.spent, currentOutstanding := got.currentOutstanding)
        && vk in vaults && vaults[vk].pendingVouchers == Max(0, old(vaults)[vk].pendingVouchers - 1)
        && View().Balance(wallet) == old(View()).Balance(wallet) - (got.spent - was.spent)
        && (forall w :: w != wallet ==> View().Balance(w) == old(View()).Balance(w))
    {
      hide SessionAddress;
      var v :- LoadVault(vk);
      :- Need(v.dexterAuthority == authority, PasskeyVerificationFailed);
      var session :- LoadSession(vk, sk, counterparty);
      :- Need(v.version == VAULT_VERSION_V6, UnsupportedVaultVersion);
      :- Need(v.swig != DEFAULT_KEY, PasskeyVerificationFailed);
      var _ :- GuardVoucher(session, cumulative);
      var active := session.reg;
      :- Need(voucherOk, PasskeyVerificationFailed);
      // The checked subtraction cannot fail past the frontier guard.
      var increment: u64 := cumulative - active.spent;
      active := active.(spent := cumulative);
      active := active.(currentOutstanding := SatSub64(active.currentOutstanding, increment));
      sessions := sessions[sk := session.(reg := active)];
      vaults := vaults[vk := v.(pendingVouchers := SatSub32(v.pendingVouchers, 1))];
      r := Transfer(v.swig, increment);
    }

    /** A lock creates one pending claim of the voucher's rise over crystallized_cumulative, reserves it within the
        balance, and moves no money; the reserved total is still the sum of the pending claims. The meter falls by the
        rise as far as zero. */
    method LockVoucher(vk: Pubkey, sk: Pubkey, a: P.LockArgs, holder: Pubkey, authority: Pubkey, voucherOk: bool,
                       hashOk: bool)
      returns (r: Result<()>)
      requires Valid()
      modifies this`vaults, this`sessions, this`claims
      ensures Ends(r, P.LockVoucher(old(View()), vk, sk, a, holder, authority, voucherOk, hashOk))
      ensures r.Ok? ==>
        var ck := ClaimAddress(vk, a.voucherHash);
        && vk in old(vaults) && vk in vaults && sk in old(sessions) && sk in sessions && ck in claims
        && ck !in old(claims) && claims[ck].status == Pending
        && claims[ck].amount == sessions[sk].reg.crystallized - old(sessions)[sk].reg.crystallized
        && sessions[sk].reg.Frontier() == a.cumulative > old(sessions)[sk].reg.Frontier()
        && sessions[sk].reg.currentOutstanding == Max(0, old(sessions)[sk].reg.currentOutstanding - claims[ck].amount)
        && sessions[sk].reg.lastLockedSequence == a.sequence
        && vaults[vk].outstandingLocked == Sums.Sum(claims, PendingAmount(vk)) <= View().Balance(vaults[vk].swig)
    {
      hide SessionAddress, ClaimAddress, P.LockVoucher, Sums.Sum, PendingAmount, ClaimsOk, CreditOk, PlacedOk,
           CountRight, OnlyLive, P.Run, Begins;
      LockReserves(View(), vk, sk, a, holder, authority, voucherOk, hashOk);
      r := ApplyLock(vk, sk, a, holder, authority, voucherOk, hashOk);
    }

    /** The guards of a lock, then its writes to the session, the vault and the new claim. */
    method ApplyLock(vk: Pubkey, sk: Pubkey, a: P.LockArgs, holder: Pubkey, authority: Pubkey, voucherOk: bool,
                     hashOk: bool)
      returns (r: Result<()>)
      modifies this`vaults, this`sessions, this`claims
      ensures Ends(r, P.LockVoucher(old(View()), vk, sk, a, holder, authority, voucherOk, hashOk))
    {
      hide SessionAddress, ClaimAddress, P.VoucherGuards;
      var v :- LoadVault(vk);
      :- Need(v.dexterAuthority == authority, PasskeyVerificationFailed);
      var session :- LoadSession(vk, sk, a.counterparty);
      var ck := ClaimAddress(vk, a.voucherHash);
      :- Need(ck !in claims, AccountInUse);
      :- Need(v.version == VAULT_VERSION_V6, UnsupportedVaultVersion);
      :- Need(v.swig != DEFAULT_KEY, PasskeyVerificationFailed);
      if a.maturityAt.Some? && a.holderRecoveryAt.Some? {
        :- Need(a.holderRecoveryAt.value > a.maturityAt.value, RecoveryBeforeMaturity);
      }
      var _ :- GuardVoucher(session, a.cumulative);
      var active := session.reg;
      :- Need(voucherOk, PasskeyVerificationFailed);
      :- Need(hashOk, InvalidVoucherSignature);
      // The checked subtraction and the zero test that follow it cannot fail past the frontier guard.
      var delta: u64 := a.cumulative - active.crystallized;
      var proposed :- CheckedAdd64(v.outstandingLocked, delta, LockWouldOvercommitVault);
      :- Need(proposed <= View().Balance(v.swig), LockWouldOvercommitVault);

      active := active.(currentOutstanding := SatSub64(active.currentOutstanding, delta));
      active := active.(crystallized := SatAdd64(active.crystallized, delta));
      active := active.(lastLockedSequence := a.sequence);
      sessions := sessions[sk := session.(reg := active)];
      vaults := vaults[vk := v.(outstandingLocked := proposed,
                                totalCrystallized := SatAdd64(v.totalCrystallized, delta))];
      claims := claims[ck := LockedClaim(vk, active.sessionPubkey, a.voucherHash, delta, now, a.maturityAt,
                                         a.holderRecoveryAt, holder, Pending, None, None)];
      return Ok(());
    }

    // ---- Locked claims -----------------------------------------------------------------------

    /** A settled claim was pending and mature; the wallet pays exactly its amount and exactly that amount leaves
        the reservation: the saturating subtraction is exact. */
    method SettleLockedVoucher(vk: Pubkey, ck: Pubkey, holder: Pubkey, authority: Pubkey) returns (r: Result<()>)
      requires Valid()
      modifies this`vaults, this`claims, this`balances
      ensures Ends(r, P.SettleLockedVoucher(old(View()), vk, ck, holder, authority))
      ensures r.Ok? ==>
        && Closes(old(View()), View(), ck, vk, Settled)
        && (old(claims)[ck].maturityAt.Some? ==> now >= old(claims)[ck].maturityAt.value)
        && var wallet := vaults[vk].swig;
        View().Balance(wallet) == old(View()).Balance(wallet) - old(claims)[ck].amount
    {
      hide Pair, P.Run, Begins, ClaimsOk, CreditOk, PlacedOk, CountRight, OnlyLive, Closes, LedgerMoves;
      ghost var before := View();
      var claim :- LoadClaim(ck);
      var v :- LoadVault(vk);
      :- Need(claim.status == Pending, LockRangeAlreadyClaimed);
      :- Need(claim.vault == vk, PasskeyVerificationFailed);
      :- Need(claim.currentHolder == holder, PasskeyVerificationFailed);
      :- Need(v.dexterAuthority == authority, PasskeyVerificationFailed);
      if claim.maturityAt.Some? {
        :- Need(now >= claim.maturityAt.value, CoolingOffNotElapsed);
      }
      vaults := vaults[vk := v.(outstandingLocked := SatSub64(v.outstandingLocked, claim.amount),
                                totalSettled := SatAdd64(v.totalSettled, claim.amount))];
      claims := claims[ck := claim.(status := Settled, settledAt := Some(now))];
      r := Transfer(v.swig, claim.amount);
      if r.Ok? {
        SettleLockedMoves(before, vk, ck, holder, authority);
      }
    }

    /** A recovered claim was pending and past its recovery time, and with both deadlines strictly past maturity;
        exactly its amount leaves the reservation and no money moves. */
    method RecoverAbandonedLock(vk: Pubkey, ck: Pubkey, passkeyOk: bool) returns (r: Result<()>)
      requires Valid()
      modifies this`vaults, this`claims
      ensures Ends(r, P.RecoverAbandonedLock(old(View()), vk, ck, passkeyOk))
      ensures r.Ok? ==>
        && Closes(old(View()), View(), ck, vk, Abandoned)
        && var claim := old(claims)[ck];
        && claim.holderRecoveryAt.Some? && now >= claim.holderRecoveryAt.value
        && (claim.maturityAt.Some? ==> now > claim.maturityAt.value)
    {
      hide Pair, P.Run, Begins, ClaimsOk, CreditOk, PlacedOk, CountRight, OnlyLive, Closes, LedgerMoves;
      ghost var before := View();
      var claim :- LoadClaim(ck);
      var v :- LoadVault(vk);
      :- Need(claim.status == Pending, NothingToRelease);
      :- Need(claim.vault == vk, PasskeyVerificationFailed);
      var recoveryAt :- OkOr(claim.holderRecoveryAt, NothingToRelease);
      :- Need(now >= recoveryAt, ForceReleaseTooEarly);
      :- Need(passkeyOk, PasskeyVerificationFailed);
      vaults := vaults[vk := v.(outstandingLocked := SatSub64(v.outstandingLocked, claim.amount))];
      claims := claims[ck := claim.(status := Abandoned, recoveredAt := Some(now))];
      RecoverMoves(before, vk, ck, passkeyOk);
      DeadlinesInOrder(before, ck);
      return Ok(());
    }

    /** Only a pending claim changes hands, only by its holder, and nothing else about it changes. */
    method TransferLockOwnership(ck: Pubkey, holder: Pubkey, newHolder: Pubkey) returns (r: Result<()>)
      requires Valid()
      modifies this`claims
      ensures Ends(r, P.TransferLockOwnership(old(View()), ck, holder, newHolder))
      ensures r.Ok?
        <==> ck in old(claims) && old(claims)[ck].status == Pending && old(claims)[ck].currentHolder == holder
      ensures r.Ok? ==> ck in claims && claims == old(claims)[ck := claims[ck]] && claims[ck].currentHolder == newHolder
      ensures r.Ok? ==> Evolves(old(claims)[ck], claims[ck]) && ClaimsOk(View())
    {
      hide Pair, P.Run, Begins, ClaimsOk, CreditOk, PlacedOk, CountRight, OnlyLive, LedgerMoves;
      ghost var before := View();
      var claim :- LoadClaim(ck);
      :- Need(claim.status == Pending, LockRangeAlreadyClaimed);
      :- Need(claim.currentHolder == holder, PasskeyVerificationFailed);
      claims := claims[ck := claim.(currentHolder := newHolder)];
      TransferMoves(before, ck, holder, newHolder);
      LedgerMoveKeepsClaimsOk(before, View(), ck, claim.vault);
      return Ok(());
    }

    // ---- Credit ------------------------------------------------------------------------------

    /** A reserve is set under the financier's signature and never below what it has promised across all vaults. */
    method SetStandbyReserve(financier: Pubkey, newReserve: u64, walletSigned: bool) returns (r: Result<()>)
      requires Valid()
      modifies this`backers
      ensures Ends(r, P.SetStandbyReserve(old(View()), financier, newReserve, walletSigned))
      ensures r.Ok? ==> walletSigned && financier in backers && backers[financier].committedReserve == newReserve
      ensures r.Ok? ==> backers[financier].aggregatePromised == Sums.Sum(vaults, PromisedBy(financier)) <= newReserve
    {
      hide P.Run, Begins, ClaimsOk, CreditOk, PlacedOk, CountRight, OnlyLive, Sums.Sum;
      ghost var before := View();
      if !walletSigned {
        return Err(ConstraintSigner);
      }
      var b := StandbyBacker(0, DEFAULT_KEY, 0, 0);
      if financier in backers {
        b := backers[financier];
      }
      if b.version == 0 {
        b := b.(version := STANDBY_BACKER_VERSION_V1, financierSwig := financier, aggregatePromised := 0);
      }
      :- Need(newReserve >= b.aggregatePromised, ReserveBelowPromised);
      backers := backers[financier := b.(committedReserve := newReserve)];
      ReserveKeepsCreditOk(before, financier, newReserve, walletSigned);
      PromisesAddUp(View(), financier);
      return Ok(());
    }

    /** Opening or resizing moves the aggregate by exactly the change of the cap: it is still the sum of the caps
        promised, within the reserve, and the cap covers what is already borrowed. */
    method OpenStandby(vk: Pubkey, financier: Pubkey, cap: u64, passkeyOk: bool) returns (r: Result<()>)
      requires Valid()
      modifies this`vaults, this`backers
      ensures Ends(r, P.OpenStandby(old(View()), vk, financier, cap, passkeyOk))
      ensures r.Ok? ==>
        && vk in old(vaults) && vk in vaults && financier in backers
        && vaults[vk].standbyBacker == Some(financier) && old(vaults)[vk].borrowed <= vaults[vk].standbyCap == cap
        && backers[financier].aggregatePromised
             == Sums.Sum(vaults, PromisedBy(financier)) <= backers[financier].committedReserve
    {
      hide P.Run, Begins, ClaimsOk, CreditOk, PlacedOk, CountRight, OnlyLive, Sums.Sum, PromiseMoves;
      ghost var before := View();
      var v :- LoadVault(vk);
      var b :- LoadBacker(financier);
      :- Need(P.CreditVersion(v), UnsupportedVaultVersion);
      :- Need(cap > 0, StandbyCapZero);
      :- Need(passkeyOk, PasskeyVerificationFailed);
      if v.standbyBacker.Some? {
        :- Need(v.standbyBacker.value == financier, StandbyBackerMismatch);
      }
      :- Need(b.financierSwig == financier, NoStandbyBackerLedger);
      :- Need(cap >= v.borrowed, ResizeBelowBorrowed);
      var oldCap := if v.standbyBacker.Some? then v.standbyCap else 0;
      if cap >= oldCap {
        var aggregate :- CheckedAdd64(b.aggregatePromised, cap - oldCap, StandbyWouldExceedReserve);
        :- Need(aggregate <= b.committedReserve, StandbyWouldExceedReserve);
        backers := backers[financier := b.(aggregatePromised := aggregate)];
      } else {
        backers := backers[financier := b.(aggregatePromised := SatSub64(b.aggregatePromised, oldCap - cap))];
      }
      vaults := vaults[vk := v.(standbyBacker := Some(financier), standbyCap := cap)];
      OpenMoves(before, vk, financier, cap, passkeyOk);
      PromiseMoveKeepsCreditOk(before, View(), vk, financier);
      PromisesAddUp(View(), financier);
      return Ok(());
    }

    /** Only a standby with nothing borrowed closes; exactly its cap leaves its financier's aggregate. */
    method CloseStandby(vk: Pubkey, financier: Pubkey, closer: P.Closer) returns (r: Result<()>)
      requires Valid()
      modifies this`vaults, this`backers
      ensures Ends(r, P.CloseStandby(old(View()), vk, financier, closer))
      ensures r.Ok? ==>
        && vk in old(vaults) && vk in vaults && financier in old(backers) && financier in backers
        && old(vaults)[vk].borrowed == 0 && old(vaults)[vk].standbyBacker == Some(financier)
        && vaults[vk] == old(vaults)[vk].(standbyBacker := None, standbyCap := 0)
        && backers[financier].aggregatePromised
             == old(backers)[financier].aggregatePromised - old(vaults)[vk].standbyCap
        && backers[financier].aggregatePromised == Sums.Sum(vaults, PromisedBy(financier))
    {
      hide P.Run, Begins, ClaimsOk, CreditOk, PlacedOk, CountRight, OnlyLive, Sums.Sum;
      ghost var before := View();
      var v :- LoadVault(vk);
      var b :- LoadBacker(financier);
      var backer :- OkOr(v.standbyBacker, NoStandbyBacker);
      match closer {
        case User(passkeyOk) =>
          :- Need(passkeyOk, PasskeyVerificationFailed);
        case Financier(walletSigned) =>
          :- Need(financier == backer, StandbyBackerMismatch);
          :- Need(walletSigned, FinancierConsentMissing);
      }
      :- Need(P.CreditVersion(v), UnsupportedVaultVersion);
      :- Need(v.borrowed == 0, StandbyStillBorrowed);
      :- Need(b.financierSwig == backer, NoStandbyBackerLedger);
      backers := backers[financier := b.(aggregatePromised := SatSub64(b.aggregatePromised, v.standbyCap))];
      vaults := vaults[vk := v.(standbyBacker := None, standbyCap := 0)];
      CloseMoves(before, vk, financier, closer);
      PromiseMoveKeepsCreditOk(before, View(), vk, financier);
      PromisesAddUp(View(), financier);
      return Ok(());
    }

    /** The financier's wallet pays exactly the draw; what all vaults owe it stays within its reserve, and the deadline
        is armed at the draw's window from now unless it was armed before. */
    method DrawCredit(vk: Pubkey, financier: Pubkey, amount: u64, window: i64, authority: Pubkey)
      returns (r: Result<()>)
      requires Valid()
      modifies this`vaults, this`balances
      ensures Ends(r, P.DrawCredit(old(View()), vk, financier, amount, window, authority))
      ensures r.Ok? ==>
        && vk in old(vaults) && vk in vaults && financier in backers
        && View().Balance(financier) == old(View()).Balance(financier) - amount
        && vaults[vk].borrowed == old(vaults)[vk].borrowed + amount <= vaults[vk].standbyCap
        && Sums.Sum(vaults, BorrowedFrom(financier)) <= backers[financier].committedReserve
        && vaults[vk].borrowRecoveryAt
             == (if old(vaults)[vk].borrowRecoveryAt.Some? then old(vaults)[vk].borrowRecoveryAt
                 else Some(now + window))
    {
      hide P.Run, Begins, ClaimsOk, CreditOk, PlacedOk, CountRight, OnlyLive, Sums.Sum, BorrowedFrom;
      DrawStaysWithinReserve(View(), vk, financier, amount, window, authority);
      hide Valid;
      var v :- LoadVault(vk);
      :- Need(v.dexterAuthority == authority, PasskeyVerificationFailed);
      :- Need(P.CreditVersion(v), UnsupportedVaultVersion);
      var backer :- OkOr(v.standbyBacker, NoStandbyBacker);
      :- Need(backer == financier, NoStandbyBacker);
      var newBorrowed :- CheckedAdd64(v.borrowed, amount, CreditWouldExceedStandbyCap);
      :- Need(newBorrowed <= v.standbyCap, CreditWouldExceedStandbyCap);
      v := v.(borrowed := newBorrowed);
      if v.borrowRecoveryAt.None? {
        :- Need(I64_MIN <= now + window <= I64_MAX, CreditWouldExceedStandbyCap);
        v := v.(borrowRecoveryAt := Some(now + window));
      }
      vaults := vaults[vk := v];
      r := Transfer(financier, amount);
    }

    /** The wallet pays no more than it owes; the debt falls by exactly what it pays, and the deadline goes with the
        last of it. */
    method RepayCredit(vk: Pubkey, amount: u64, authority: Pubkey) returns (r: Result<()>)
      modifies this`vaults, this`balances
      ensures Ends(r, P.RepayCredit(old(View()), vk, amount, authority))
      ensures r.Ok? ==>
        && vk in old(vaults) && vk in vaults
        && var was, got := old(vaults)[vk], vaults[vk];
        && was.borrowed - got.borrowed == old(View()).Balance(got.swig) - View().Balance(got.swig)
             == Min(amount, was.borrowed)
        && got.borrowRecoveryAt == (if got.borrowed == 0 then None else was.borrowRecoveryAt)
    {
      var v :- LoadVault(vk);
      :- Need(v.dexterAuthority == authority, PasskeyVerificationFailed);
      :- Need(P.CreditVersion(v), UnsupportedVaultVersion);
      :- Need(v.borrowed > 0, NothingBorrowed);
      var repay := if amount <= v.borrowed then amount else v.borrowed;
      vaults := vaults[vk := v.(borrowed := SatSub64(v.borrowed, repay))];
      if vaults[vk].borrowed == 0 {
        vaults := vaults[vk := vaults[vk].(borrowRecoveryAt := None)];
      }
      r := Transfer(v.swig, repay);
    }

    /** Collateral is seized only after the deadline of an open loan, and the wallet pays exactly what was owed. */
    method SeizeCollateral(vk: Pubkey, authority: Pubkey) returns (r: Result<()>)
      modifies this`vaults, this`balances
      ensures Ends(r, P.SeizeCollateral(old(View()), vk, authority))
      ensures r.Ok? ==>
        && vk in old(vaults) && vk in vaults
        && var was, got := old(vaults)[vk], vaults[vk];
        && was.borrowed > 0 && was.borrowRecoveryAt.Some? && now >= was.borrowRecoveryAt.value
        && View().Balance(got.swig) == old(View()).Balance(got.swig) - was.borrowed
        && got == was.(borrowed := 0, borrowRecoveryAt := None)
    {
      var v :- LoadVault(vk);
      :- Need(v.dexterAuthority == authority, PasskeyVerificationFailed);
      :- Need(P.CreditVersion(v), UnsupportedVaultVersion);
      :- Need(v.borrowed > 0, NothingBorrowed);
      var deadline :- OkOr(v.borrowRecoveryAt, NothingBorrowed);
      :- Need(now >= deadline, BorrowRecoveryTooEarly);
      var seized := v.borrowed;
      vaults := vaults[vk := v.(borrowed := 0, borrowRecoveryAt := None)];
      r := Transfer(v.swig, seized);
    }

    // ---- Withdrawal --------------------------------------------------------------------------

    /** A request is signed within 300 seconds of the clock, on either side. */
    method RequestWithdrawal(vk: Pubkey, amount: u64, destination: Pubkey, signedAt: i64, passkeyOk: bool)
      returns (r: Result<()>)
      modifies this`vaults
      ensures Ends(r, P.RequestWithdrawal(old(View()), vk, amount, destination, signedAt, passkeyOk))
      ensures r.Ok? ==> now - MAX_REQUEST_DRIFT <= signedAt <= now + MAX_REQUEST_DRIFT
      ensures r.Ok? ==>
        vk in vaults && vaults[vk].pendingWithdrawal == Some(PendingWithdrawal(amount, destination, signedAt))
    {
      var v :- LoadVault(vk);
      :- Need(P.KnownVersion(v), UnsupportedVaultVersion);
      var drift := now - signedAt;
      if drift < I64_MIN || drift > I64_MAX {
        drift := I64_MAX;
      }
      if drift < 0 {
        drift := -drift;
      }
      :- Need(drift <= MAX_REQUEST_DRIFT, PasskeyVerificationFailed);
      :- Need(passkeyOk, PasskeyVerificationFailed);
      vaults := vaults[vk := v.(pendingWithdrawal := Some(PendingWithdrawal(amount, destination, signedAt)))];
      return Ok(());
    }

    /** Accepted exactly when no tab opened in this store's history is still waiting and the rest is met. Then
        the wallet pays exactly what was requested, long enough after the request this store has seen, and what is
        left covers the claims and the loan. */
    method FinalizeWithdrawal(vk: Pubkey, passkeyOk: bool) returns (r: Result<()>)
      requires Valid()
      modifies this`vaults, this`balances
      ensures Ends(r, P.FinalizeWithdrawal(old(View()), vk, passkeyOk))
      ensures r.Ok? <==> Withdrawal.MayFinalize(old(View()), vk, passkeyOk, Tabs.Awaited(bumps, start, history, vk))
      ensures r.Ok? ==> vk in old(vaults) && old(vaults)[vk].pendingVouchers == 0
      ensures r.Ok? ==>
        && vk in old(vaults) && vk in vaults && old(vaults)[vk].pendingWithdrawal.Some?
        && var v, pending := vaults[vk], old(vaults)[vk].pendingWithdrawal.value;
        && v.pendingWithdrawal.None?
        && View().Balance(v.swig) == old(View()).Balance(v.swig) - pending.amount >= v.outstandingLocked + v.borrowed
        && (v.coolingOffSeconds > 0 ==> now >= pending.requestedAt + v.coolingOffSeconds)
        && var at := Withdrawal.RequestedAt(bumps, start, history, vk);
        at.Some? ==> now >= at.value + v.coolingOffSeconds - MAX_REQUEST_DRIFT
    {
      hide P.Run, ClaimsOk, CreditOk, PlacedOk, CountRight, OnlyLive, Withdrawal.RequestedAt,
           Withdrawal.PendingOf, Withdrawal.MayFinalize, Tabs.Awaited;
      Withdrawal.FinalizeWaits(bumps, start, history, vk, passkeyOk);
      Tabs.FinalizesWithNoTabOpen(bumps, start, history, vk, passkeyOk);
      var v :- LoadVault(vk);
      var pending :- OkOr(v.pendingWithdrawal, NoPendingWithdrawal);
      :- Need(v.swig != DEFAULT_KEY, NoPendingWithdrawal);
      var elapsed := SatSubI64(now, pending.requestedAt);
      if elapsed < 0 {
        elapsed := 0;
      }
      :- Need(elapsed >= v.coolingOffSeconds, CoolingOffNotElapsed);
      :- Need(v.pendingVouchers == 0, PendingVouchersExist);
      :- Need(P.KnownVersion(v), UnsupportedVaultVersion);
      var liveAfter :- CheckedSub64(View().Balance(v.swig), pending.amount, WithdrawalWouldViolateReservation);
      :- Need(liveAfter >= v.outstandingLocked, WithdrawalWouldViolateReservation);
      var reserved :- CheckedAdd64(v.outstandingLocked, v.borrowed, WithdrawalWouldViolatePin);
      :- Need(liveAfter >= reserved, WithdrawalWouldViolatePin);
      :- Need(passkeyOk, PasskeyVerificationFailed);
      vaults := vaults[vk := v.(pendingWithdrawal := None)];
      r := Transfer(v.swig, pending.amount);
    }

    /** One pending voucher is released, seven days after the request this store has seen, less the drift. */
    method ForceRelease(vk: Pubkey, passkeyOk: bool) returns (r: Result<()>)
      requires Valid()
      modifies this`vaults
      ensures Ends(r, P.ForceRelease(old(View()), vk, passkeyOk))
      ensures r.Ok? ==>
        && vk in old(vaults) && vk in vaults
        && vaults[vk].pendingVouchers + 1 == old(vaults)[vk].pendingVouchers
        && old(vaults)[vk].pendingWithdrawal.Some?
        && now >= old(vaults)[vk].pendingWithdrawal.value.requestedAt + FORCE_RELEASE_GRACE_SECONDS
        && var at := Withdrawal.RequestedAt(bumps, start, history, vk);
        at.Some? ==> now >= at.value + FORCE_RELEASE_GRACE_SECONDS - MAX_REQUEST_DRIFT
    {
      hide P.Run, ClaimsOk, CreditOk, PlacedOk, CountRight, OnlyLive, Withdrawal.RequestedAt;
      Withdrawal.ForceReleaseWaits(bumps, start, history, vk, passkeyOk);
      var v :- LoadVault(vk);
      :- Need(P.KnownVersion(v), UnsupportedVaultVersion);
      :- Need(v.pendingVouchers > 0, NothingToRelease);
      var pending :- OkOr(v.pendingWithdrawal, NothingToRelease);
      var waited := SatSubI64(now, pending.requestedAt);
      if waited < 0 {
        waited := 0;
      }
      :- Need(waited >= FORCE_RELEASE_GRACE_SECONDS, ForceReleaseTooEarly);
      :- Need(passkeyOk, PasskeyVerificationFailed);
      vaults := vaults[vk := v.(pendingVouchers := v.pendingVouchers - 1)];
      return Ok(());
    }

    // ---- Transactions ------------------------------------------------------------------------

    method ExecuteEnv(c: P.EnvCall) returns (r: Result<()>)
      requires Valid()
      modifies this`now, this`vaults, this`sessions, this`claims, this`backers, this`balances
      ensures Ends(r, P.EnvStep(old(View()), c))
    {
      hide P.Tick, P.Deposit, P.InitializeVault, P.SetSwig, Valid;
      match c {
        case Ticks(seconds) => r := Tick(seconds);
        case Deposits(wallet, amount) => r := Deposit(wallet, amount);
        case Initializes(vk, prefix, coolingOff, authority) => r := InitializeVault(vk, prefix, coolingOff, authority);
        case SetsSwig(vk, swig, ok) => r := SetSwig(vk, swig, ok);
      }
    }

    method ExecuteSession(c: P.SessionCall) returns (r: Result<()>)
      requires Valid()
      modifies this`now, this`vaults, this`sessions, this`claims, this`backers, this`balances
      ensures Ends(r, P.SessionStep(bumps, old(View()), c))
    {
      hide P.RegisterSessionKey, P.RevokeSessionKey, P.CloseSession, Valid;
      match c {
        case Registers(vk, a, refs, ok) => r := RegisterSessionKey(vk, a, refs, ok);
        case Revokes(vk, sk, cp, ok) => r := RevokeSessionKey(vk, sk, cp, ok);
        case Closes(vk, sk, cp, authority) => r := CloseSession(vk, sk, cp, authority);
      }
    }

    method ExecuteUpgrade(c: P.UpgradeCall) returns (r: Result<()>)
      requires Valid()
      modifies this`now, this`vaults, this`sessions, this`claims, this`backers, this`balances
      ensures Ends(r, P.UpgradeStep(bumps, old(View()), c))
    {
      hide P.MigrateV5ToV6, P.MigrateV5ToV6WithSession, Valid;
      match c {
        case Migrates(vk, authority) => r := MigrateV5ToV6(vk, authority);
        case MigratesWithSession(vk, cp, authority) => r := MigrateV5ToV6WithSession(vk, cp, authority);
      }
    }

    method ExecuteTab(c: P.TabCall) returns (r: Result<()>)
      requires Valid()
      modifies this`now, this`vaults, this`sessions, this`claims, this`backers, this`balances
      ensures Ends(r, P.TabStep(old(View()), c))
    {
      hide P.SettleVoucher, P.SettleTabVoucher, P.LockVoucher, Valid;
      match c {
        case SettlesVoucher(vk, osk, cp, amount, increment, authority) =>
          r := SettleVoucher(vk, osk, cp, amount, increment, authority);
        case SettlesTab(vk, sk, cp, cumulative, authority, ok) =>
          r := SettleTabVoucher(vk, sk, cp, cumulative, authority, ok);
        case Locks(vk, sk, a, holder, authority, ok, hashOk) =>
          r := LockVoucher(vk, sk, a, holder, authority, ok, hashOk);
      }
    }

    method ExecuteClaim(c: P.ClaimCall) returns (r: Result<()>)
      requires Valid()
      modifies this`now, this`vaults, this`sessions, this`claims, this`backers, this`balances
      ensures Ends(r, P.ClaimStep(old(View()), c))
    {
      hide P.SettleLockedVoucher, P.RecoverAbandonedLock, P.TransferLockOwnership, Valid;
      match c {
        case SettlesLocked(vk, ck, holder, authority) => r := SettleLockedVoucher(vk, ck, holder, authority);
        case Recovers(vk, ck, ok) => r := RecoverAbandonedLock(vk, ck, ok);
        case Transfers(ck, holder, newHolder) => r := TransferLockOwnership(ck, holder, newHolder);
      }
    }

    method ExecuteCredit(c: P.CreditCall) returns (r: Result<()>)
      requires Valid()
      modifies this`now, this`vaults, this`sessions, this`claims, this`backers, this`balances
      ensures Ends(r, P.CreditStep(old(View()), c))
    {
      hide P.SetStandbyReserve, P.OpenStandby, P.CloseStandby, P.DrawCredit, P.RepayCredit, P.SeizeCollateral, Valid;
      match c {
        case SetsReserve(f, reserve, signed) => r := SetStandbyReserve(f, reserve, signed);
        case OpensStandby(vk, f, cap, ok) => r := OpenStandby(vk, f, cap, ok);
        case ClosesStandby(vk, f, closer) => r := CloseStandby(vk, f, closer);
        case Draws(vk, f, amount, window, authority) => r := DrawCredit(vk, f, amount, window, authority);
        case Repays(vk, amount, authority) => r := RepayCredit(vk, amount, authority);
        case Seizes(vk, authority) => r := SeizeCollateral(vk, authority);
      }
    }

    method ExecuteExit(c: P.ExitCall) returns (r: Result<()>)
      requires Valid()
      modifies this`now, this`vaults, this`sessions, this`claims, this`backers, this`balances
      ensures Ends(r, P.ExitStep(old(View()), c))
    {
      hide P.RequestWithdrawal, P.FinalizeWithdrawal, P.ForceRelease, Valid;
      match c {
        case Requests(vk, amount, destination, signedAt, ok) =>
          r := RequestWithdrawal(vk, amount, destination, signedAt, ok);
        case Finalizes(vk, ok) => r := FinalizeWithdrawal(vk, ok);
        case ForceReleases(vk, ok) => r := ForceRelease(vk, ok);
      }
    }

    /** The runtime puts back what it had found. */
    method Restore(saved: State)
      modifies this`now, this`vaults, this`sessions, this`claims, this`backers, this`balances
      ensures View() == saved
    {
      now, vaults, sessions, claims, backers, balances :=
        saved.now, saved.vaults, saved.sessions, saved.claims, saved.backers, saved.balances;
    }

    /** One transaction, whichever it is: what is specified of it or, after an error, nothing. The store stays what its
        history makes of its start, and the claim, credit and session ledgers stay in order. */
    method Execute(c: P.Call) returns (r: Result<()>)
      requires Valid()
      modifies this
      ensures Valid() && history == old(history) + [c]
      ensures r.Ok? <==> P.Step(bumps, old(View()), c).Ok?
      ensures Meets(r, old(View()), c)
      ensures r.Err? ==> r.error == P.Step(bumps, old(View()), c).error && View() == old(View())
    {
      hide P.EnvStep, P.SessionStep, P.UpgradeStep, P.TabStep, P.ClaimStep, P.CreditStep, P.ExitStep, P.Run, Begins,
           ClaimsOk, CreditOk, PlacedOk, CountRight, OnlyLive, Spec.Refusal, Spec.Leaves;
      var saved := View();
      match c {
        case Env(e) => r := ExecuteEnv(e);
        case Session(e) => r := ExecuteSession(e);
        case Upgrade(e) => r := ExecuteUpgrade(e);
        case Tab(e) => r := ExecuteTab(e);
        case Claim(e) => r := ExecuteClaim(e);
        case Credit(e) => r := ExecuteCredit(e);
        case Exit(e) => r := ExecuteExit(e);
      }
      if r.Err? {
        Restore(saved);
      }
      P.RunExtends(bumps, start, history, c);
      history := history + [c];
      RunStaysInOrder(bumps, start, history);
      Refinement.StepMeets(bumps, saved, c);
      return r;
    }
  }

  /** What every store's ledgers have in common, by the run theorems. */
  lemma RunStaysInOrder(bumps: P.Bumps, start: State, calls: seq<P.Call>)
    requires Begins(bumps, start) && CreditOk(start)
    ensures ClaimsOk(P.Run(bumps, start, calls)) && CreditOk(P.Run(bumps, start, calls))
    ensures PlacedOk(bumps, P.Run(bumps, start, calls))
    ensures forall v :: OnlyLive(bumps, start, calls, v) ==> CountRight(P.Run(bumps, start, calls), v)
  {
    hide P.Run, PlacedOk, CountRight, ClaimsOk, CreditOk, OnlyLive;
    RunKeepsClaimsOk(bumps, start, calls);
    RunKeepsCreditOk(bumps, start, calls);
    RunKeepsPlacedOk(bumps, start, calls);
    forall v | OnlyLive(bumps, start, calls, v)
      ensures CountRight(P.Run(bumps, start, calls), v)
    {
      RunKeepsCount(bumps, start, calls, v);
    }
  }

  /** No account of the store is at a session address of a vault that is not there yet. */
  lemma NewVaultIsIdle(bumps: P.Bumps, s: State, s': State, vk: Pubkey)
    requires PlacedOk(bumps, s) && vk !in s.vaults
    requires s' == s.(vaults := s'.vaults) && vk in s'.vaults && s'.vaults[vk].outstandingLocked == 0
    ensures LiveSet(s', vk) == {} && Solvent(s', vk)
  {
    hide Sums.Sum;
    NewVaultHasNoSessions(bumps, s, vk);
    assert LiveSet(s', vk) == {};
    IdleIsSolvent(s', vk);
  }

  lemma RegisterOnLive(bumps: P.Bumps, s: State, vk: Pubkey, a: P.RegisterArgs, refs: seq<P.AccountRef>,
                       passkeyOk: bool)
    requires RightFor(bumps, s, vk) && PassesLive(s, refs)
    ensures P.RegisterSessionKey(bumps, s, vk, a, refs, passkeyOk).Ok?
      <==> RegisterAccepts(bumps, s, vk, a, refs, passkeyOk)
    ensures P.RegisterSessionKey(bumps, s, vk, a, refs, passkeyOk).Ok? ==>
      var s' := P.RegisterSessionKey(bumps, s, vk, a, refs, passkeyOk).value;
      && vk in s'.vaults
      && (forall k :: k in LiveSet(s', vk) ==> s'.sessions[k].reg.expiresAt > s'.now)
      && Sums.Sum(s'.sessions, LiveCap(vk)) + s'.vaults[vk].outstandingLocked <= s'.Balance(s'.vaults[vk].swig)
      && s'.now == s.now
  {
    hide P.RegisterSessionKey, PlacedOk, CountRight, PassesLive, RegisterAccepts, Sums.Sum;
    RegisterOnLiveIffComplete(bumps, s, vk, a, refs, passkeyOk);
    if P.RegisterSessionKey(bumps, s, vk, a, refs, passkeyOk).Ok? {
      RegisterLeavesNoOvercommit(bumps, s, vk, a, refs, passkeyOk);
      RegisterYields(bumps, s, vk, a, refs, passkeyOk);
    }
  }

  lemma RegisterYieldsTarget(bumps: P.Bumps, s: State, vk: Pubkey, a: P.RegisterArgs, refs: seq<P.AccountRef>,
                             passkeyOk: bool)
    requires PlacedOk(bumps, s)
    requires P.RegisterSessionKey(bumps, s, vk, a, refs, passkeyOk).Ok?
    ensures var s' := P.RegisterSessionKey(bumps, s, vk, a, refs, passkeyOk).value;
      var target := P.RegisterTarget(bumps, vk, a.counterparty);
      target in s'.sessions && Holds(s'.sessions[target], bumps, vk, a)
  {
    hide P.RegisterSessionKey, PlacedOk;
    RegisterTouchesOnlyItsVault(bumps, s, vk, a, refs, passkeyOk);
  }

  lemma RevokeTakesOne(bumps: P.Bumps, s: State, vk: Pubkey, sk: Pubkey, counterparty: Pubkey, passkeyOk: bool)
    requires PlacedOk(bumps, s)
    ensures CountRight(s, vk) ==> P.RevokeSessionKey(s, vk, sk, counterparty, passkeyOk) != Err(IncompleteSessionSet)
    ensures P.RevokeSessionKey(s, vk, sk, counterparty, passkeyOk).Ok? ==>
      var s' := P.RevokeSessionKey(s, vk, sk, counterparty, passkeyOk).value;
      && sk in LiveSet(s, vk) && LiveSet(s', vk) == LiveSet(s, vk) - {sk}
      && vk in s'.vaults && (CountRight(s, vk) ==> s'.vaults[vk].liveSessions == |LiveSet(s', vk)|)
  {
    hide SessionAddress, Placed;
    if CountRight(s, vk) {
      RevokeNeverUnderflows(bumps, s, vk, sk, counterparty, passkeyOk);
    }
    if P.RevokeSessionKey(s, vk, sk, counterparty, passkeyOk).Ok? {
      var s' := P.RevokeSessionKey(s, vk, sk, counterparty, passkeyOk).value;
      SeedsNameTheVault(bumps, s, vk, sk, counterparty);
      LosingMovesLiveSet(s, s', sk, vk);
    }
  }

  lemma DeadlinesInOrder(s: State, ck: Pubkey)
    requires ClaimsOk(s) && ck in s.claims
    ensures s.claims[ck].maturityAt.Some? && s.claims[ck].holderRecoveryAt.Some?
      ==> s.claims[ck].holderRecoveryAt.value > s.claims[ck].maturityAt.value
  {
    hide Pair;
    assert ClaimPlaced(s, ck);
  }

  lemma PromisesAddUp(s: State, f: Pubkey)
    requires CreditOk(s) && f in s.backers
    ensures s.backers[f].aggregatePromised == Sums.Sum(s.vaults, PromisedBy(f)) <= s.backers[f].committedReserve
  {
    hide Sums.Sum;
    assert BackerOk(s, f);
  }

  lemma LockReserves(s: State, vk: Pubkey, sk: Pubkey, a: P.LockArgs, holder: Pubkey, authority: Pubkey,
                     voucherOk: bool, hashOk: bool)
    requires ClaimsOk(s)
    ensures P.LockVoucher(s, vk, sk, a, holder, authority, voucherOk, hashOk).Ok? ==>
      var s' := P.LockVoucher(s, vk, sk, a, holder, authority, voucherOk, hashOk).value;
      var ck := ClaimAddress(vk, a.voucherHash);
      && vk in s.vaults && vk in s'.vaults && sk in s.sessions && sk in s'.sessions && ck in s'.claims
      && ck !in s.claims && s'.claims[ck].status == Pending
      && s'.claims[ck].amount == s'.sessions[sk].reg.crystallized - s.sessions[sk].reg.crystallized
      && s'.sessions[sk].reg.Frontier() == a.cumulative > s.sessions[sk].reg.Frontier()
      && s'.sessions[sk].reg.currentOutstanding == Max(0, s.sessions[sk].reg.currentOutstanding - s'.claims[ck].amount)
      && s'.sessions[sk].reg.lastLockedSequence == a.sequence
      && s'.vaults[vk].outstandingLocked == Sums.Sum(s'.claims, PendingAmount(vk)) <= s'.Balance(s'.vaults[vk].swig)
  {
    hide Sums.Sum, Pair, SessionAddress, ClaimsOk, ClaimPlaced, PendingAmount, SettledAmount, ClaimedAmount;
    if P.LockVoucher(s, vk, sk, a, holder, authority, voucherOk, hashOk).Ok? {
      LockMoves(s, vk, sk, a, holder, authority, voucherOk, hashOk);
    }
  }

  lemma DrawStaysWithinReserve(s: State, vk: Pubkey, f: Pubkey, amount: u64, window: i64, authority: Pubkey)
    requires CreditOk(s)
    ensures P.DrawCredit(s, vk, f, amount, window, authority).Ok? ==>
      var s' := P.DrawCredit(s, vk, f, amount, window, authority).value;
      f in s'.backers && Sums.Sum(s'.vaults, BorrowedFrom(f)) <= s'.backers[f].committedReserve
  {
    hide Sums.Sum, CreditOk;
    if P.DrawCredit(s, vk, f, amount, window, authority).Ok? {
      var s' := P.DrawCredit(s, vk, f, amount, window, authority).value;
      CreditKeepsCreditOk(s, P.Draws(vk, f, amount, window, authority));
      BackerStands(s', vk);
      LentWithinReserve(s', f);
    }
  }

  lemma BackerStands(s: State, vk: Pubkey)
    requires CreditOk(s) && vk in s.vaults && s.vaults[vk].standbyBacker.Some?
    ensures s.vaults[vk].standbyBacker.value in s.backers
  {
  }

  /** An error at one entry of the list is the error of the whole scan. */
  lemma {:induction false} ScanFailsFrom(now: i64, vk: Pubkey, target: Pubkey, sessions: map<Pubkey, SessionAccount>,
                                         refs: seq<P.AccountRef>, n: nat)
    requires n <= |refs|
    ensures P.ScanSiblings(now, vk, target, sessions, refs[..n]).Err? ==>
              P.ScanSiblings(now, vk, target, sessions, refs) == P.ScanSiblings(now, vk, target, sessions, refs[..n])
    decreases |refs| - n
  {
    if n == |refs| {
      assert refs[..n] == refs;
    } else {
      assert refs[..n + 1][..n] == refs[..n];
      ScanFailsFrom(now, vk, target, sessions, refs, n + 1);
    }
  }
}
