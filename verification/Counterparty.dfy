/** Where a vault's count is right by itself: when every registration on it names a counterparty other than the
    default key, which is what a cleared session stores. */
module Counterparty {
  import opened Prelude
  import opened State
  import opened Protocol
  import opened SiblingScan
  import opened SessionCount
  import opened Scenario

  /** What the call registers on vault `v`, or carries out of it, names a counterparty. */
  ghost predicate NamesCounterparty(c: Call, v: Pubkey) {
    && (c.Session? && c.session.Registers? && c.session.vk == v ==> c.session.args.counterparty != DEFAULT_KEY)
    && (c.Upgrade? && c.upgrade.MigratesWithSession? && c.upgrade.vk == v ==> c.upgrade.counterparty != DEFAULT_KEY)
  }

  ghost predicate AllNameCounterparty(calls: seq<Call>, v: Pubkey) {
    forall i :: 0 <= i < |calls| ==> NamesCounterparty(calls[i], v)
  }

  /** The account's address was not derived from the default key. */
  ghost predicate Named(key: Pubkey, account: SessionAccount) {
    key != SessionAddress(account.vault, DEFAULT_KEY, account.bump)
  }

  ghost predicate AllNamed(s: State, v: Pubkey) {
    forall a :: a in s.sessions && s.sessions[a].vault == v ==> Named(a, s.sessions[a])
  }

  ghost predicate SessionsOk(bumps: Bumps, s: State, v: Pubkey) {
    RightFor(bumps, s, v) && AllNamed(s, v)
  }

  /** A sibling that passes re-derivation is live: a cleared account stores the default key as its
      counterparty, and its address was derived from another one. */
  lemma SiblingIsLive(bumps: Bumps, s: State, vk: Pubkey, target: Pubkey, acct: AccountRef)
    requires PlacedOk(bumps, s) && AllNamed(s, vk)
    requires SiblingOk(s.now, vk, target, s.sessions, acct)
    ensures s.sessions[acct.key].version != 0
  {
    hide Pair;
    assert Placed(bumps, s, acct.key);
    assert Named(acct.key, s.sessions[acct.key]);
  }

  lemma RegisterPassesLive(bumps: Bumps, s: State, vk: Pubkey, a: RegisterArgs, refs: seq<AccountRef>, passkeyOk: bool)
    requires PlacedOk(bumps, s) && AllNamed(s, vk)
    requires RegisterSessionKey(bumps, s, vk, a, refs, passkeyOk).Ok?
    ensures PassesLive(s, refs)
  {
    hide RegisterSessionKey, RegisterTarget, SessionAddress, PlacedOk, AllNamed, ScanSiblings, ScanFacts;
    var target := RegisterTarget(bumps, vk, a.counterparty);
    RegisterUnfolds(bumps, s, vk, a, refs, passkeyOk);
    ScanEstablishes(s.now, vk, target, s.sessions, refs);
    forall i | 0 <= i < |refs|
      ensures s.sessions[refs[i].key].version != 0
    {
      SiblingIsLive(bumps, s, vk, target, refs[i]);
    }
  }

  /** Then the handler succeeds if and only if it is handed the complete, canonical sibling list. */
  lemma RegisterIffComplete(bumps: Bumps, s: State, vk: Pubkey, a: RegisterArgs, refs: seq<AccountRef>, passkeyOk: bool)
    requires SessionsOk(bumps, s, vk)
    ensures RegisterSessionKey(bumps, s, vk, a, refs, passkeyOk).Ok?
      <==> RegisterAccepts(bumps, s, vk, a, refs, passkeyOk)
  {
    hide RegisterSessionKey, RegisterAccepts, PlacedOk, CountRight, AllNamed, PassesLive;
    RegisterOnLiveIffComplete(bumps, s, vk, a, refs, passkeyOk);
    if RegisterSessionKey(bumps, s, vk, a, refs, passkeyOk).Ok? {
      RegisterPassesLive(bumps, s, vk, a, refs, passkeyOk);
    }
  }

  // ---- Every run -----------------------------------------------------------------------------

  lemma NewcomerIsNamed(vk: Pubkey, counterparty: Pubkey, bump: u8, account: SessionAccount)
    requires counterparty != DEFAULT_KEY && account.vault == vk && account.bump == bump
    ensures Named(SessionAddress(vk, counterparty, bump), account)
  {
    hide Pair;
    if !Named(SessionAddress(vk, counterparty, bump), account) {
      SessionAddressInjective(vk, counterparty, bump, vk, DEFAULT_KEY, bump);
    }
  }

  lemma NamedBySeeds(k: Pubkey, a: SessionAccount, b: SessionAccount)
    requires b.vault == a.vault && b.bump == a.bump
    ensures Named(k, b) == Named(k, a)
  {
  }

  lemma RegisterKeepsNamed(bumps: Bumps, s: State, c: SessionCall, v: Pubkey)
    requires PlacedOk(bumps, s) && AllNamed(s, v)
    requires c.Registers? && (c.vk == v ==> c.args.counterparty != DEFAULT_KEY)
    requires SessionStep(bumps, s, c).Ok?
    ensures AllNamed(SessionStep(bumps, s, c).value, v)
  {
    hide RegisterSessionKey, PlacedOk, Named, SessionAddress;
    var s' := SessionStep(bumps, s, c).value;
    RegisterTouchesOnlyItsVault(bumps, s, c.vk, c.args, c.refs, c.passkeyOk);
    var target := RegisterTarget(bumps, c.vk, c.args.counterparty);
    if c.vk == v {
      NewcomerIsNamed(v, c.args.counterparty, bumps(v, c.args.counterparty), s'.sessions[target]);
    }
    forall k | k in s'.sessions && s'.sessions[k].vault == v
      ensures Named(k, s'.sessions[k])
    {
      if k != target {
        NamedBySeeds(k, s.sessions[k], s'.sessions[k]);
      }
    }
  }

  lemma UpgradeKeepsNamed(bumps: Bumps, s: State, c: UpgradeCall, v: Pubkey)
    requires AllNamed(s, v) && UpgradeStep(bumps, s, c).Ok?
    requires c.MigratesWithSession? && c.vk == v ==> c.counterparty != DEFAULT_KEY
    ensures AllNamed(UpgradeStep(bumps, s, c).value, v)
  {
    hide Named, SessionAddress;
    if c.MigratesWithSession? && c.vk == v {
      var s' := UpgradeStep(bumps, s, c).value;
      var target := RegisterTarget(bumps, c.vk, c.counterparty);
      NewcomerIsNamed(c.vk, c.counterparty, bumps(c.vk, c.counterparty), s'.sessions[target]);
    }
  }

  lemma ShapeKeepsNamed(s: State, s': State, v: Pubkey)
    requires AllNamed(s, v) && SameShape(s, s')
    ensures AllNamed(s', v)
  {
    hide SessionAddress;
    assert forall a :: a in s'.sessions ==> Named(a, s.sessions[a]) == Named(a, s'.sessions[a]);
  }

  lemma LosingKeepsNamed(s: State, s': State, sk: Pubkey, v: Pubkey)
    requires AllNamed(s, v) && Loses(s, s', sk)
    ensures AllNamed(s', v)
  {
    hide SessionAddress;
    assert forall a :: a in s'.sessions ==> Named(a, s.sessions[a]) == Named(a, s'.sessions[a]);
  }

  lemma TeardownLoses(bumps: Bumps, s: State, c: SessionCall)
    requires !c.Registers? && SessionStep(bumps, s, c).Ok?
    ensures Loses(s, SessionStep(bumps, s, c).value, c.sk)
  {
    hide SessionAddress;
  }

  lemma InitializeKeepsNamed(s: State, c: EnvCall, v: Pubkey)
    requires AllNamed(s, v) && c.Initializes? && EnvStep(s, c).Ok?
    ensures AllNamed(EnvStep(s, c).value, v)
  {
  }

  lemma ExecKeepsNamed(bumps: Bumps, s: State, c: Call, v: Pubkey)
    requires PlacedOk(bumps, s) && AllNamed(s, v) && NamesCounterparty(c, v)
    ensures AllNamed(Exec(bumps, s, c), v)
  {
    hide PlacedOk, AllNamed, SameShape, Loses, EnvStep, SessionStep, UpgradeStep, TabStep, ClaimStep, CreditStep,
         ExitStep;
    if Step(bumps, s, c).Ok? {
      var s' := Step(bumps, s, c).value;
      match c
      case Env(e) =>
        if e.Initializes? { InitializeKeepsNamed(s, e, v); } else { EnvKeepsShape(s, e); ShapeKeepsNamed(s, s', v); }
      case Session(e) =>
        if e.Registers? { RegisterKeepsNamed(bumps, s, e, v); }
        else { TeardownLoses(bumps, s, e); LosingKeepsNamed(s, s', e.sk, v); }
      case Upgrade(e) => UpgradeKeepsNamed(bumps, s, e, v);
      case Tab(e) => TabKeepsShape(s, e); ShapeKeepsNamed(s, s', v);
      case Claim(e) => ClaimKeepsShape(s, e); ShapeKeepsNamed(s, s', v);
      case Credit(e) => CreditKeepsShape(s, e); ShapeKeepsNamed(s, s', v);
      case Exit(e) => ExitKeepsShape(s, e); ShapeKeepsNamed(s, s', v);
    }
  }

  /** The corollary a caller can check by names: while every registration on its vault names a counterparty, no
      register on it is ever handed a cleared account, so its count is right in every run. */
  lemma {:induction false} NamedRunsPassLive(bumps: Bumps, s: State, calls: seq<Call>, v: Pubkey)
    requires SessionsOk(bumps, s, v) && AllNameCounterparty(calls, v)
    ensures OnlyLive(bumps, s, calls, v) && SessionsOk(bumps, Run(bumps, s, calls), v)
    decreases |calls|
  {
    if calls != [] {
      var n := |calls| - 1;
      assert NamesCounterparty(calls[n], v);
      hide PlacedOk, CountRight, AllNamed, Exec, NamesCounterparty, PassesLive, PassesOnlyLive, OnlyLive;
      NamedRunsPassLive(bumps, s, calls[..n], v);
      var before := Run(bumps, s, calls[..n]);
      NamedCallPassesLive(bumps, before, calls[n], v);
      assert calls[..n] + [calls[n]] == calls;
      OnlyLiveExtends(bumps, s, calls[..n], calls[n], v);
      ExecKeepsPlacedOk(bumps, before, calls[n]);
      ExecKeepsCount(bumps, before, calls[n], v);
      ExecKeepsNamed(bumps, before, calls[n], v);
    } else {
      assert OnlyLive(bumps, s, calls, v);
    }
  }

  lemma NamedCallPassesLive(bumps: Bumps, s: State, c: Call, v: Pubkey)
    requires PlacedOk(bumps, s) && AllNamed(s, v)
    ensures PassesOnlyLive(bumps, s, c, v)
  {
    hide RegisterSessionKey, PlacedOk, AllNamed, PassesLive;
    if c.Session? && c.session.Registers? && c.session.vk == v && Step(bumps, s, c).Ok? {
      RegisterPassesLive(bumps, s, v, c.session.args, c.session.refs, c.session.passkeyOk);
    }
  }

  // ---- Why the counterparty must not be the default key --------------------------------------

  function DefaultSessionKey(bumps: Bumps): Pubkey { RegisterTarget(bumps, 1, DEFAULT_KEY) }

  const FIRST := RegisterArgs(4, 1, 100, DEFAULT_KEY, 0, 1)
  const FIVE := RegisterArgs(8, 5, 100, 5, 0, 1)
  const NINE := RegisterArgs(4, 10, 100, 9, 0, 1)

  /** Vault 1 on wallet 7 with 10 deposited registers a session for the default key and one for counterparty 5,
      and then revokes the first. */
  function DefaultSessionCalls(bumps: Bumps): seq<Call> {
    Funding(10)
    + [Session(Registers(1, FIRST, [], true))]
    + [Session(Registers(1, FIVE, [AccountRef(DefaultSessionKey(bumps), false)], true))]
    + [Session(Revokes(1, DefaultSessionKey(bumps), DEFAULT_KEY, true))]
  }

  /** A live session of 5 for counterparty 5, and the cleared account of the session registered for the
      default key. */
  function AfterDefaultSession(bumps: Bumps): State {
    Funded(10).(vaults := map[1 := VaultOne(1)],
                sessions := map[
                  DefaultSessionKey(bumps) := SessionAccount(0, bumps(1, DEFAULT_KEY), 1, NO_SESSION),
                  RegisterTarget(bumps, 1, 5) := RegisteredAccount(bumps, 1, FIVE)])
  }

  function ClearedOnly(bumps: Bumps): seq<AccountRef> {
    [AccountRef(DefaultSessionKey(bumps), true)]
  }

  lemma DistinctTargets(bumps: Bumps)
    ensures DefaultSessionKey(bumps) != RegisterTarget(bumps, 1, 5)
    ensures DefaultSessionKey(bumps) != RegisterTarget(bumps, 1, 9)
    ensures RegisterTarget(bumps, 1, 5) != RegisterTarget(bumps, 1, 9)
  {
    hide Pair;
    var b0, b5, b9 := bumps(1, DEFAULT_KEY), bumps(1, 5), bumps(1, 9);
    if DefaultSessionKey(bumps) == RegisterTarget(bumps, 1, 5) {
      SessionAddressInjective(1, DEFAULT_KEY, b0, 1, 5, b5);
    }
    if DefaultSessionKey(bumps) == RegisterTarget(bumps, 1, 9) {
      SessionAddressInjective(1, DEFAULT_KEY, b0, 1, 9, b9);
    }
    if RegisterTarget(bumps, 1, 5) == RegisterTarget(bumps, 1, 9) { SessionAddressInjective(1, 5, b5, 1, 9, b9); }
  }

  /** The session for the default key alone. */
  function WithFirst(bumps: Bumps): State {
    Funded(10).(vaults := map[1 := VaultOne(1)],
                sessions := map[DefaultSessionKey(bumps) := RegisteredAccount(bumps, 1, FIRST)])
  }

  function WithBoth(bumps: Bumps): State {
    Funded(10).(vaults := map[1 := VaultOne(2)],
                sessions := map[DefaultSessionKey(bumps) := RegisteredAccount(bumps, 1, FIRST),
                                RegisterTarget(bumps, 1, 5) := RegisteredAccount(bumps, 1, FIVE)])
  }

  lemma RegistersFirst(bumps: Bumps)
    ensures RegisterSessionKey(bumps, Funded(10), 1, FIRST, [], true) == Ok(WithFirst(bumps))
  {
    hide SessionAddress;
    var s' := RegisterSessionKey(bumps, Funded(10), 1, FIRST, [], true).value;
    assert s'.vaults == WithFirst(bumps).vaults && s'.sessions == WithFirst(bumps).sessions;
  }

  lemma RegistersFive(bumps: Bumps)
    ensures RegisterSessionKey(bumps, WithFirst(bumps), 1, FIVE, [AccountRef(DefaultSessionKey(bumps), false)], true)
         == Ok(WithBoth(bumps))
  {
    hide Pair, SessionAddress;
    var s, k0 := WithFirst(bumps), DefaultSessionKey(bumps);
    DistinctTargets(bumps);
    ScanOfOne(0, 1, RegisterTarget(bumps, 1, 5), s.sessions, AccountRef(k0, false));
    var s' := RegisterSessionKey(bumps, s, 1, FIVE, [AccountRef(k0, false)], true).value;
    assert s'.vaults == WithBoth(bumps).vaults && s'.sessions == WithBoth(bumps).sessions;
  }

  lemma RevokesFirst(bumps: Bumps)
    ensures RevokeSessionKey(WithBoth(bumps), 1, DefaultSessionKey(bumps), DEFAULT_KEY, true)
      == Ok(AfterDefaultSession(bumps))
  {
    hide Pair, SessionAddress;
    DistinctTargets(bumps);
    var s' := RevokeSessionKey(WithBoth(bumps), 1, DefaultSessionKey(bumps), DEFAULT_KEY, true).value;
    assert s'.vaults == AfterDefaultSession(bumps).vaults && s'.sessions == AfterDefaultSession(bumps).sessions;
  }

  /** The program itself gets there. */
  lemma DefaultSessionIsReached(bumps: Bumps)
    ensures Run(bumps, GENESIS, DefaultSessionCalls(bumps)) == AfterDefaultSession(bumps)
  {
    hide RegisterTarget, Run, RegisterSessionKey, RevokeSessionKey, WithFirst, WithBoth, AfterDefaultSession;
    var k0 := DefaultSessionKey(bumps);
    var c3 := Session(Registers(1, FIRST, [], true));
    var c4 := Session(Registers(1, FIVE, [AccountRef(k0, false)], true));
    var c5 := Session(Revokes(1, k0, DEFAULT_KEY, true));
    FundingRun(bumps, 10);
    RegistersFirst(bumps);
    Then(bumps, Funding(10), Funded(10), c3, WithFirst(bumps));
    RegistersFive(bumps);
    Then(bumps, Funding(10) + [c3], WithFirst(bumps), c4, WithBoth(bumps));
    RevokesFirst(bumps);
    Then(bumps, Funding(10) + [c3] + [c4], WithBoth(bumps), c5, AfterDefaultSession(bumps));
  }

  /** There the cleared account still derives from what it stores, so it stands in for the live session. */
  lemma DefaultSessionHidesASibling(bumps: Bumps)
    ensures var s := Run(bumps, GENESIS, DefaultSessionCalls(bumps));
            && RegisterSessionKey(bumps, s, 1, NINE, ClearedOnly(bumps), true).Ok?
            && Keys(ClearedOnly(bumps)) != Siblings(bumps, s, 1, NINE.counterparty)
  {
    hide Pair, SessionAddress, Run;
    DefaultSessionIsReached(bumps);
    DistinctTargets(bumps);
    var s := AfterDefaultSession(bumps);
    var k0, k9 := DefaultSessionKey(bumps), RegisterTarget(bumps, 1, 9);
    ScanOfOne(0, 1, k9, s.sessions, AccountRef(k0, true));
    assert ScanOne(0, 1, k9, None, Scan(0, 0, 0, s.sessions), AccountRef(k0, true)).Ok?;
    KeysHold(ClearedOnly(bumps), 0);
    assert k0 !in Siblings(bumps, s, 1, NINE.counterparty);
  }
}
