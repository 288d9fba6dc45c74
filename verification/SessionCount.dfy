/** live_session_count counts the live session accounts in every run, and a successful register was
    therefore handed exactly the vault's other live sessions. */
module SessionCount {
  import opened Prelude
  import opened State
  import opened Protocol
  import opened SiblingScan
  import opened Specification
  import Sums

  // ---- The invariant -------------------------------------------------------------------------

  ghost predicate SeededBy(bumps: Bumps, key: Pubkey, account: SessionAccount, counterparty: Pubkey) {
    && account.bump == bumps(account.vault, counterparty)
    && key == SessionAddress(account.vault, counterparty, account.bump)
    && (account.version != 0 ==> account.reg.counterparty == counterparty)
    && (account.version == 0 ==> account.reg == NO_SESSION)
    && account.version <= SESSION_VERSION_V1
  }

  ghost predicate Placed(bumps: Bumps, s: State, key: Pubkey)
    requires key in s.sessions
  {
    && s.sessions[key].vault in s.vaults
    && exists c :: SeededBy(bumps, key, s.sessions[key], c)
  }

  ghost function LiveSet(s: State, vk: Pubkey): set<Pubkey> {
    set a | a in s.sessions && s.sessions[a].LiveFor(vk)
  }

  ghost predicate Counted(s: State, vk: Pubkey)
    requires vk in s.vaults
  {
    s.vaults[vk].liveSessions == |LiveSet(s, vk)|
  }

  /** What holds of the accounts whatever is passed to register: each is where it was derived, and a vault of an
      earlier version has neither live accounts nor a count. */
  ghost predicate PlacedOk(bumps: Bumps, s: State) {
    && (forall a :: a in s.sessions ==> Placed(bumps, s, a))
    && (forall v :: v in s.vaults && s.vaults[v].version != VAULT_VERSION_V6 ==> Vacant(s, v))
  }

  ghost predicate Vacant(s: State, v: Pubkey)
    requires v in s.vaults
  {
    s.vaults[v].liveSessions == 0 && LiveSet(s, v) == {}
  }

  /** The count of one vault is right. */
  ghost predicate CountRight(s: State, v: Pubkey) {
    v in s.vaults ==> Counted(s, v)
  }

  ghost predicate RightFor(bumps: Bumps, s: State, v: Pubkey) {
    PlacedOk(bumps, s) && CountRight(s, v)
  }

  /** Where no session account exists yet, everything is in order exactly when no vault counts any. */
  lemma NoSessionsNoCounts(bumps: Bumps, s: State)
    requires s.sessions == map[]
    ensures (PlacedOk(bumps, s) && forall v :: CountRight(s, v))
      <==> forall v :: v in s.vaults ==> s.vaults[v].liveSessions == 0
  {
    assert forall v :: LiveSet(s, v) == {};
    assert forall v :: v in s.vaults ==> (CountRight(s, v) <==> s.vaults[v].liveSessions == 0);
  }

  // ---- Steps that leave the session set alone ------------------------------------------------

  ghost predicate SameShape(s: State, s': State) {
    && s'.sessions.Keys == s.sessions.Keys
    && (forall a :: a in s.sessions ==> SameAccountShape(s.sessions[a], s'.sessions[a]))
    && s.now <= s'.now
    && s'.vaults.Keys == s.vaults.Keys
    && (forall v :: v in s.vaults ==>
          && s'.vaults[v].liveSessions == s.vaults[v].liveSessions
          && s'.vaults[v].version == s.vaults[v].version
          && s'.vaults[v].activeSession == s.vaults[v].activeSession)
  }

  predicate SameAccountShape(a: SessionAccount, b: SessionAccount) {
    && a.version == b.version && a.bump == b.bump && a.vault == b.vault
    && a.reg.counterparty == b.reg.counterparty
    && (a.version == 0 ==> a == b)
  }

  lemma ShapeKeepsPlaced(bumps: Bumps, s: State, s': State, a: Pubkey)
    requires PlacedOk(bumps, s) && SameShape(s, s')
    requires a in s'.sessions
    ensures Placed(bumps, s', a)
  {
    hide SessionAddress;
    assert Placed(bumps, s, a);
    var c :| SeededBy(bumps, a, s.sessions[a], c);
    assert SeededBy(bumps, a, s'.sessions[a], c);
  }

  lemma ShapeKeepsLiveSet(s: State, s': State, v: Pubkey)
    requires SameShape(s, s')
    ensures LiveSet(s', v) == LiveSet(s, v)
    ensures CountRight(s, v) ==> CountRight(s', v)
  {
  }

  lemma ShapeKeepsPlacedOk(bumps: Bumps, s: State, s': State)
    requires PlacedOk(bumps, s) && SameShape(s, s')
    ensures PlacedOk(bumps, s')
  {
    hide Placed, LiveSet;
    forall a | a in s'.sessions
      ensures Placed(bumps, s', a)
    {
      ShapeKeepsPlaced(bumps, s, s', a);
    }
    forall v | v in s'.vaults && s'.vaults[v].version != VAULT_VERSION_V6
      ensures Vacant(s', v)
    {
      assert Vacant(s, v);
      ShapeKeepsLiveSet(s, s', v);
    }
  }

  lemma EnvKeepsShape(s: State, c: EnvCall)
    requires !c.Initializes?
    requires EnvStep(s, c).Ok?
    ensures SameShape(s, EnvStep(s, c).value)
  {
  }

  lemma OpenTabKeepsShape(s: State, c: TabCall)
    requires c.SettlesVoucher? && TabStep(s, c).Ok?
    ensures SameShape(s, TabStep(s, c).value)
  {
    hide Pair;
  }

  lemma VoucherKeepsShape(s: State, c: TabCall)
    requires !c.SettlesVoucher? && TabStep(s, c).Ok?
    ensures SameShape(s, TabStep(s, c).value)
  {
    hide Pair, SettleVoucher;
  }

  lemma TabKeepsShape(s: State, c: TabCall)
    requires TabStep(s, c).Ok?
    ensures SameShape(s, TabStep(s, c).value)
  {
    hide TabStep, SameShape;
    if c.SettlesVoucher? {
      OpenTabKeepsShape(s, c);
    } else {
      VoucherKeepsShape(s, c);
    }
  }

  lemma ClaimKeepsShape(s: State, c: ClaimCall)
    requires ClaimStep(s, c).Ok?
    ensures SameShape(s, ClaimStep(s, c).value)
  {
  }

  lemma StandbyKeepsShape(s: State, c: CreditCall)
    requires c.SetsReserve? || c.OpensStandby? || c.ClosesStandby?
    requires CreditStep(s, c).Ok?
    ensures SameShape(s, CreditStep(s, c).value)
  {
    hide DrawCredit, RepayCredit, SeizeCollateral;
  }

  lemma LoanKeepsShape(s: State, c: CreditCall)
    requires c.Draws? || c.Repays? || c.Seizes?
    requires CreditStep(s, c).Ok?
    ensures SameShape(s, CreditStep(s, c).value)
  {
    hide SetStandbyReserve, OpenStandby, CloseStandby;
  }

  lemma CreditKeepsShape(s: State, c: CreditCall)
    requires CreditStep(s, c).Ok?
    ensures SameShape(s, CreditStep(s, c).value)
  {
    hide CreditStep, SameShape;
    if c.SetsReserve? || c.OpensStandby? || c.ClosesStandby? {
      StandbyKeepsShape(s, c);
    } else {
      LoanKeepsShape(s, c);
    }
  }

  lemma ExitKeepsShape(s: State, c: ExitCall)
    requires ExitStep(s, c).Ok?
    ensures SameShape(s, ExitStep(s, c).value)
  {
  }

  // ---- Register ------------------------------------------------------------------------------

  ghost function Siblings(bumps: Bumps, s: State, vk: Pubkey, counterparty: Pubkey): set<Pubkey> {
    LiveSet(s, vk) - {RegisterTarget(bumps, vk, counterparty)}
  }

  /** None of the accounts handed to register has been cleared. */
  ghost predicate PassesLive(s: State, refs: seq<AccountRef>) {
    forall i :: 0 <= i < |refs| && refs[i].key in s.sessions ==> s.sessions[refs[i].key].version != 0
  }

  lemma LiveIsPlaced(bumps: Bumps, s: State, vk: Pubkey, key: Pubkey)
    requires PlacedOk(bumps, s)
    requires key in LiveSet(s, vk)
    ensures var account := s.sessions[key];
            && account.bump == bumps(vk, account.reg.counterparty)
            && key == SessionAddress(vk, account.reg.counterparty, account.bump)
  {
    hide SessionAddress;
    assert Placed(bumps, s, key);
  }

  lemma TargetIsLive(bumps: Bumps, s: State, vk: Pubkey, counterparty: Pubkey)
    requires PlacedOk(bumps, s)
    ensures var target := RegisterTarget(bumps, vk, counterparty);
            && (target in s.sessions ==> s.sessions[target].vault == vk)
            && (SessionOrZero(s.sessions, target).version != 0 <==> target in LiveSet(s, vk))
            && (SessionOrZero(s.sessions, target).version != 0 ==>
                  && s.sessions[target].bump == bumps(vk, counterparty)
                  && s.sessions[target].version == SESSION_VERSION_V1)
  {
    hide Pair;
    var target := RegisterTarget(bumps, vk, counterparty);
    if target in s.sessions {
      var account := s.sessions[target];
      assert Placed(bumps, s, target);
      var c :| SeededBy(bumps, target, account, c);
      SessionAddressInjective(vk, counterparty, bumps(vk, counterparty), account.vault, c, account.bump);
    }
  }

  /** The guards of register, as a caller can check them beforehand. */
  ghost predicate RegisterAccepts(bumps: Bumps, s: State, vk: Pubkey, a: RegisterArgs, refs: seq<AccountRef>,
                                  passkeyOk: bool)
  {
    && vk in s.vaults
    && s.vaults[vk].version == VAULT_VERSION_V6
    && a.maxAmount > 0 && a.maxRevolving > 0 && a.expiresAt > s.now
    && s.vaults[vk].liveSessions < 255
    && Ascending(refs)
    && Keys(refs) == Siblings(bumps, s, vk, a.counterparty)
    && (forall i :: 0 <= i < |refs| && refs[i].key in s.sessions && s.sessions[refs[i].key].reg.expiresAt <= s.now ==>
          refs[i].writable)
    && CapSum(s.now, s.sessions, Siblings(bumps, s, vk, a.counterparty)) + a.maxAmount + s.vaults[vk].outstandingLocked
         <= s.Balance(s.vaults[vk].swig)
    && passkeyOk
  }

  lemma KeysHold(refs: seq<AccountRef>, i: nat)
    requires i < |refs|
    ensures refs[i].key in Keys(refs)
  {
  }

  lemma SiblingsCount(bumps: Bumps, s: State, vk: Pubkey, counterparty: Pubkey)
    requires RightFor(bumps, s, vk) && vk in s.vaults
    ensures var isNew := SessionOrZero(s.sessions, RegisterTarget(bumps, vk, counterparty)).version == 0;
            |Siblings(bumps, s, vk, counterparty)| == s.vaults[vk].liveSessions - (if isNew then 0 else 1)
  {
    hide Pair, RegisterTarget;
    TargetIsLive(bumps, s, vk, counterparty);
    assert Counted(s, vk);
    var target := RegisterTarget(bumps, vk, counterparty);
    if target !in LiveSet(s, vk) {
      assert Siblings(bumps, s, vk, counterparty) == LiveSet(s, vk);
    }
  }

  /** What the handler checks once the loop has ended with `scan`. */
  ghost predicate ScanGuards(bumps: Bumps, s: State, vk: Pubkey, a: RegisterArgs, scan: Scan, passkeyOk: bool) {
    && vk in s.vaults
    && var v := s.vaults[vk];
    var isNew := SessionOrZero(s.sessions, RegisterTarget(bumps, vk, a.counterparty)).version == 0;
    && v.version == VAULT_VERSION_V6
    && a.maxAmount > 0 && a.maxRevolving > 0 && a.expiresAt > s.now
    && v.liveSessions < 255
    && scan.live + scan.swept == v.liveSessions - (if isNew then 0 else 1)
    && scan.sum + a.maxAmount + v.outstandingLocked <= s.Balance(v.swig)
    && passkeyOk
  }

  lemma RegisterUnfolds(bumps: Bumps, s: State, vk: Pubkey, a: RegisterArgs, refs: seq<AccountRef>, passkeyOk: bool)
    ensures var scan := ScanSiblings(s.now, vk, RegisterTarget(bumps, vk, a.counterparty), s.sessions, refs);
            RegisterSessionKey(bumps, s, vk, a, refs, passkeyOk).Ok? <==>
              scan.Ok? && ScanGuards(bumps, s, vk, a, scan.value, passkeyOk)
  {
    hide ScanSiblings, RegisterTarget, SessionOrZero, FreshRegistration;
  }

  /** Strict ascent and the count equation together leave one possible list of live accounts: the vault's
      other live sessions, each once. */
  lemma RegisterSeesEverySibling(bumps: Bumps, s: State, vk: Pubkey, a: RegisterArgs, refs: seq<AccountRef>,
                                 passkeyOk: bool)
    requires RightFor(bumps, s, vk) && PassesLive(s, refs)
    requires RegisterSessionKey(bumps, s, vk, a, refs, passkeyOk).Ok?
    ensures RegisterAccepts(bumps, s, vk, a, refs, passkeyOk)
  {
    hide RegisterSessionKey, RegisterTarget, CapSum, UnexpiredAmong, SessionAddress, PlacedOk, Counted, ScanSiblings,
         SweptTo;
    var target := RegisterTarget(bumps, vk, a.counterparty);
    RegisterUnfolds(bumps, s, vk, a, refs, passkeyOk);
    ScanEstablishes(s.now, vk, target, s.sessions, refs);
    CountsCoverKeys(s.now, s.sessions, Keys(refs));
    forall k | k in Keys(refs)
      ensures k in Siblings(bumps, s, vk, a.counterparty)
    {
      var i :| 0 <= i < |refs| && refs[i].key == k;
      assert SiblingOk(s.now, vk, target, s.sessions, refs[i]);
    }
    SiblingsCount(bumps, s, vk, a.counterparty);
    Sums.SubsetOfSameSize(Keys(refs), Siblings(bumps, s, vk, a.counterparty));
  }

  /** Exactly when the guarantee holds: a list register accepts is the complete sibling set if and only if
      no account on it has been cleared. */
  lemma RegisterCompleteUnlessCleared(bumps: Bumps, s: State, vk: Pubkey, a: RegisterArgs, refs: seq<AccountRef>,
                                      passkeyOk: bool)
    requires RightFor(bumps, s, vk)
    requires RegisterSessionKey(bumps, s, vk, a, refs, passkeyOk).Ok?
    ensures Keys(refs) == Siblings(bumps, s, vk, a.counterparty) <==> PassesLive(s, refs)
  {
    hide RegisterSessionKey, RegisterTarget, CapSum, UnexpiredAmong, SessionAddress, PlacedOk, Counted, ScanSiblings,
         SweptTo;
    if PassesLive(s, refs) {
      RegisterSeesEverySibling(bumps, s, vk, a, refs, passkeyOk);
    }
    if Keys(refs) == Siblings(bumps, s, vk, a.counterparty) {
      forall i | 0 <= i < |refs|
        ensures refs[i].key in LiveSet(s, vk)
      {
        KeysHold(refs, i);
      }
    }
  }

  lemma RegisterTakesEverySibling(bumps: Bumps, s: State, vk: Pubkey, a: RegisterArgs, refs: seq<AccountRef>,
                                  passkeyOk: bool)
    requires RightFor(bumps, s, vk)
    requires RegisterAccepts(bumps, s, vk, a, refs, passkeyOk)
    ensures RegisterSessionKey(bumps, s, vk, a, refs, passkeyOk).Ok?
  {
    hide RegisterSessionKey, RegisterTarget, CapSum, UnexpiredAmong, Keys, SessionAddress, PlacedOk, Counted,
         ScanSiblings, SweptTo;
    var target := RegisterTarget(bumps, vk, a.counterparty);
    SiblingsCount(bumps, s, vk, a.counterparty);
    forall i | 0 <= i < |refs|
      ensures SiblingOk(s.now, vk, target, s.sessions, refs[i])
    {
      KeysHold(refs, i);
      LiveIsPlaced(bumps, s, vk, refs[i].key);
    }
    ScanAccepts(s.now, vk, target, s.sessions, refs);
    ScanEstablishes(s.now, vk, target, s.sessions, refs);
    CountsCoverKeys(s.now, s.sessions, Keys(refs));
    RegisterUnfolds(bumps, s, vk, a, refs, passkeyOk);
  }

  /** Both directions: the handler succeeds on live accounts exactly when they are the complete, canonical
      sibling list and the caps fit. */
  lemma RegisterOnLiveIffComplete(bumps: Bumps, s: State, vk: Pubkey, a: RegisterArgs, refs: seq<AccountRef>,
                                  passkeyOk: bool)
    requires RightFor(bumps, s, vk)
    ensures RegisterSessionKey(bumps, s, vk, a, refs, passkeyOk).Ok? && PassesLive(s, refs)
      <==> RegisterAccepts(bumps, s, vk, a, refs, passkeyOk)
  {
    hide RegisterSessionKey, PlacedOk, Counted, Siblings, CapSum;
    if RegisterSessionKey(bumps, s, vk, a, refs, passkeyOk).Ok? && PassesLive(s, refs) {
      RegisterSeesEverySibling(bumps, s, vk, a, refs, passkeyOk);
    }
    if RegisterAccepts(bumps, s, vk, a, refs, passkeyOk) {
      RegisterTakesEverySibling(bumps, s, vk, a, refs, passkeyOk);
      forall i | 0 <= i < |refs|
        ensures refs[i].key in s.sessions && s.sessions[refs[i].key].version != 0
      {
        KeysHold(refs, i);
        SiblingsAreLive(bumps, s, vk, a.counterparty, refs[i].key);
      }
    }
  }

  lemma SiblingsAreLive(bumps: Bumps, s: State, vk: Pubkey, counterparty: Pubkey, k: Pubkey)
    requires k in Siblings(bumps, s, vk, counterparty)
    ensures k in s.sessions && s.sessions[k].version != 0
  {
    hide RegisterTarget;
  }

  // ---- The accounts register leaves ----------------------------------------------------------

  function RegisteredAccount(bumps: Bumps, vk: Pubkey, a: RegisterArgs): SessionAccount {
    SessionAccount(SESSION_VERSION_V1, bumps(vk, a.counterparty), vk, FreshRegistration(a))
  }

  /** Field by field: the scope asked for, nothing used of it, and the seeds of its address. */
  predicate Holds(account: SessionAccount, bumps: Bumps, vk: Pubkey, a: RegisterArgs) {
    && account.version == 1 && account.bump == bumps(vk, a.counterparty) && account.vault == vk
    && Scoped(account.reg, a)
  }

  /** The sessions after a successful register: the target holds a fresh registration and the expired
      siblings are cleared. */
  ghost predicate SessionsRegistered(bumps: Bumps, s: State, vk: Pubkey, a: RegisterArgs,
                                     after: map<Pubkey, SessionAccount>)
  {
    var target := RegisterTarget(bumps, vk, a.counterparty);
    var siblings := Siblings(bumps, s, vk, a.counterparty);
    && after.Keys == s.sessions.Keys + {target}
    && after[target] == RegisteredAccount(bumps, vk, a)
    && Holds(after[target], bumps, vk, a)
    && forall k :: k in s.sessions && k != target ==>
         after[k] == if k in siblings && s.sessions[k].reg.expiresAt <= s.now then s.sessions[k].Cleared()
                     else s.sessions[k]
  }

  ghost function UnexpiredSiblings(bumps: Bumps, s: State, vk: Pubkey, counterparty: Pubkey): set<Pubkey> {
    UnexpiredAmong(s.now, s.sessions, Siblings(bumps, s, vk, counterparty))
  }

  /** Besides the sessions only the vault's count moves: to the unexpired siblings plus the target. */
  ghost predicate RegisteredTo(bumps: Bumps, s: State, vk: Pubkey, a: RegisterArgs, s': State) {
    && vk in s.vaults && vk in s'.vaults && s.vaults[vk].version == VAULT_VERSION_V6
    && s' == s.(vaults := s'.vaults, sessions := s'.sessions)
    && s'.vaults == s.vaults[vk := s.vaults[vk].(liveSessions := s'.vaults[vk].liveSessions)]
    && s'.vaults[vk].liveSessions == |UnexpiredSiblings(bumps, s, vk, a.counterparty)| + 1
    && SessionsRegistered(bumps, s, vk, a, s'.sessions)
  }

  lemma RegisterYields(bumps: Bumps, s: State, vk: Pubkey, a: RegisterArgs, refs: seq<AccountRef>, passkeyOk: bool)
    requires RegisterSessionKey(bumps, s, vk, a, refs, passkeyOk).Ok?
    ensures var target := RegisterTarget(bumps, vk, a.counterparty);
            var existing := SessionOrZero(s.sessions, target);
            var scan := ScanSiblings(s.now, vk, target, s.sessions, refs).value;
            var s' := RegisterSessionKey(bumps, s, vk, a, refs, passkeyOk).value;
            && s'.vaults.Keys == s.vaults.Keys + {vk}
            && s' == s.(vaults := s'.vaults, sessions := s'.sessions)
            && s'.sessions == scan.sessions[target := if existing.version == 0 then RegisteredAccount(bumps, vk, a)
                                                      else existing.(reg := FreshRegistration(a))]
            && var count := s.vaults[vk].liveSessions - scan.swept + (if existing.version == 0 then 1 else 0);
            && 0 <= count <= U8_MAX
            && s'.vaults == s.vaults[vk := s.vaults[vk].(liveSessions := count)]
  {
    hide ScanSiblings, RegisterTarget, SessionOrZero, FreshRegistration;
  }

  lemma SweptThenWritten(bumps: Bumps, s: State, vk: Pubkey, a: RegisterArgs, swept: map<Pubkey, SessionAccount>)
    requires SweptTo(s.now, s.sessions, Siblings(bumps, s, vk, a.counterparty), swept)
    ensures SessionsRegistered(bumps, s, vk, a,
                               swept[RegisterTarget(bumps, vk, a.counterparty) := RegisteredAccount(bumps, vk, a)])
  {
    hide RegisterTarget, Siblings;
  }

  lemma RegisterLeaves(bumps: Bumps, s: State, vk: Pubkey, a: RegisterArgs, refs: seq<AccountRef>, passkeyOk: bool)
    requires RightFor(bumps, s, vk) && PassesLive(s, refs)
    requires RegisterSessionKey(bumps, s, vk, a, refs, passkeyOk).Ok?
    ensures RegisteredTo(bumps, s, vk, a, RegisterSessionKey(bumps, s, vk, a, refs, passkeyOk).value)
  {
    hide RegisterSessionKey, RegisterTarget, CapSum, UnexpiredAmong, SessionAddress, PlacedOk, Counted, ScanSiblings,
         Keys, LiveSet, SessionsRegistered, SweptTo, Siblings;
    var target := RegisterTarget(bumps, vk, a.counterparty);
    RegisterSeesEverySibling(bumps, s, vk, a, refs, passkeyOk);
    RegisterUnfolds(bumps, s, vk, a, refs, passkeyOk);
    RegisterYields(bumps, s, vk, a, refs, passkeyOk);
    ScanEstablishes(s.now, vk, target, s.sessions, refs);
    CountsCoverKeys(s.now, s.sessions, Keys(refs));
    TargetIsLive(bumps, s, vk, a.counterparty);
    SweptThenWritten(bumps, s, vk, a, ScanSiblings(s.now, vk, target, s.sessions, refs).value.sessions);
  }

  lemma LiveAfterRegister(bumps: Bumps, s: State, vk: Pubkey, a: RegisterArgs, s': State, k: Pubkey)
    requires RegisteredTo(bumps, s, vk, a, s')
    requires k != RegisterTarget(bumps, vk, a.counterparty)
    ensures k in LiveSet(s', vk) <==> k in UnexpiredSiblings(bumps, s, vk, a.counterparty)
  {
    hide RegisterTarget;
    assert k in s'.sessions <==> k in s.sessions;
  }

  lemma RegisterMovesLiveSet(bumps: Bumps, s: State, vk: Pubkey, a: RegisterArgs, s': State)
    requires RegisteredTo(bumps, s, vk, a, s')
    ensures LiveSet(s', vk)
      == UnexpiredSiblings(bumps, s, vk, a.counterparty) + {RegisterTarget(bumps, vk, a.counterparty)}
  {
    hide RegisterTarget, UnexpiredSiblings, Siblings;
    assert RegisterTarget(bumps, vk, a.counterparty) in LiveSet(s', vk);
    hide LiveSet, RegisteredTo;
    forall k | k != RegisterTarget(bumps, vk, a.counterparty)
      ensures k in LiveSet(s', vk) <==> k in UnexpiredSiblings(bumps, s, vk, a.counterparty)
    {
      LiveAfterRegister(bumps, s, vk, a, s', k);
    }
  }

  lemma SiblingsExist(bumps: Bumps, s: State, vk: Pubkey, counterparty: Pubkey)
    ensures Siblings(bumps, s, vk, counterparty) <= s.sessions.Keys
    ensures RegisterTarget(bumps, vk, counterparty) !in Siblings(bumps, s, vk, counterparty)
  {
    hide RegisterTarget;
  }

  /** What a successful register can have done, whatever it was handed: clear accounts of its own vault, write the
      target, and move its own vault's count. */
  ghost predicate RegisterTouches(bumps: Bumps, s: State, vk: Pubkey, a: RegisterArgs, s': State) {
    var target := RegisterTarget(bumps, vk, a.counterparty);
    && vk in s.vaults && vk in s'.vaults && s.vaults[vk].version == VAULT_VERSION_V6
    && s' == s.(vaults := s'.vaults, sessions := s'.sessions)
    && s'.vaults == s.vaults[vk := s.vaults[vk].(liveSessions := s'.vaults[vk].liveSessions)]
    && s'.sessions.Keys == s.sessions.Keys + {target}
    && (target in s.sessions ==> s.sessions[target].vault == vk)
    && s'.sessions[target] == RegisteredAccount(bumps, vk, a)
    && forall k :: k in s.sessions && k != target ==>
         || s'.sessions[k] == s.sessions[k]
         || (s.sessions[k].vault == vk && s'.sessions[k] == s.sessions[k].Cleared())
  }

  lemma SweepTouches(now: i64, vk: Pubkey, target: Pubkey, sessions: map<Pubkey, SessionAccount>, refs: seq<AccountRef>,
                     after: map<Pubkey, SessionAccount>)
    requires forall i :: 0 <= i < |refs| ==> SiblingOk(now, vk, target, sessions, refs[i])
    requires SweptTo(now, sessions, Keys(refs), after)
    ensures forall k :: k in sessions ==>
      after[k] == sessions[k] || (sessions[k].vault == vk && after[k] == sessions[k].Cleared())
  {
    hide SessionAddress;
    forall k | k in sessions
      ensures after[k] == sessions[k] || (sessions[k].vault == vk && after[k] == sessions[k].Cleared())
    {
      if k in Keys(refs) {
        var i :| 0 <= i < |refs| && refs[i].key == k;
        assert SiblingOk(now, vk, target, sessions, refs[i]);
      }
    }
  }

  lemma RegisterTouchesOnlyItsVault(bumps: Bumps, s: State, vk: Pubkey, a: RegisterArgs, refs: seq<AccountRef>,
                                    passkeyOk: bool)
    requires PlacedOk(bumps, s)
    requires RegisterSessionKey(bumps, s, vk, a, refs, passkeyOk).Ok?
    ensures RegisterTouches(bumps, s, vk, a, RegisterSessionKey(bumps, s, vk, a, refs, passkeyOk).value)
  {
    hide RegisterSessionKey, RegisterTarget, CapSum, UnexpiredAmong, SessionAddress, PlacedOk, ScanSiblings, Keys,
         SiblingOk, FreshRegistration, LiveSet;
    var target := RegisterTarget(bumps, vk, a.counterparty);
    RegisterUnfolds(bumps, s, vk, a, refs, passkeyOk);
    RegisterYields(bumps, s, vk, a, refs, passkeyOk);
    ScanEstablishes(s.now, vk, target, s.sessions, refs);
    TargetIsLive(bumps, s, vk, a.counterparty);
    SweepTouches(s.now, vk, target, s.sessions, refs, ScanSiblings(s.now, vk, target, s.sessions, refs).value.sessions);
  }

  lemma TouchingKeepsPlaced(bumps: Bumps, s: State, vk: Pubkey, a: RegisterArgs, s': State, k: Pubkey)
    requires PlacedOk(bumps, s) && RegisterTouches(bumps, s, vk, a, s')
    requires k in s'.sessions
    ensures Placed(bumps, s', k)
  {
    hide SessionAddress;
    if k == RegisterTarget(bumps, vk, a.counterparty) {
      assert SeededBy(bumps, k, s'.sessions[k], a.counterparty);
    } else {
      assert Placed(bumps, s, k);
      var c :| SeededBy(bumps, k, s.sessions[k], c);
      assert SeededBy(bumps, k, s'.sessions[k], c);
    }
  }

  lemma TouchingKeepsOtherLiveSets(bumps: Bumps, s: State, vk: Pubkey, a: RegisterArgs, s': State, v: Pubkey)
    requires RegisterTouches(bumps, s, vk, a, s') && v != vk
    ensures LiveSet(s', v) == LiveSet(s, v)
  {
    hide RegisterTarget, FreshRegistration;
    forall k
      ensures k in LiveSet(s', v) <==> k in LiveSet(s, v)
    {
      assert k in s.sessions ==> k in s'.sessions;
    }
  }

  /** Where every account was derived stays right, and every other vault keeps its sessions and its count: for this
      nothing is asked of the list. */
  lemma RegisterKeepsPlacedOk(bumps: Bumps, s: State, vk: Pubkey, a: RegisterArgs, refs: seq<AccountRef>,
                              passkeyOk: bool)
    requires PlacedOk(bumps, s)
    requires RegisterSessionKey(bumps, s, vk, a, refs, passkeyOk).Ok?
    ensures var s' := RegisterSessionKey(bumps, s, vk, a, refs, passkeyOk).value;
            && PlacedOk(bumps, s')
            && forall v :: v != vk ==> LiveSet(s', v) == LiveSet(s, v) && (CountRight(s, v) ==> CountRight(s', v))
  {
    var s' := RegisterSessionKey(bumps, s, vk, a, refs, passkeyOk).value;
    RegisterTouchesOnlyItsVault(bumps, s, vk, a, refs, passkeyOk);
    hide RegisterSessionKey, RegisterTarget, LiveSet, Placed;
    forall k | k in s'.sessions ensures Placed(bumps, s', k) {
      TouchingKeepsPlaced(bumps, s, vk, a, s', k);
    }
    forall v | v != vk
      ensures LiveSet(s', v) == LiveSet(s, v) && (CountRight(s, v) ==> CountRight(s', v))
    {
      TouchingKeepsOtherLiveSets(bumps, s, vk, a, s', v);
    }
    forall v | v in s'.vaults && s'.vaults[v].version != VAULT_VERSION_V6
      ensures Vacant(s', v)
    {
      assert Vacant(s, v);
    }
  }

  /** Its own vault's count is right again when the list named no cleared account. */
  lemma RegisterKeepsCount(bumps: Bumps, s: State, vk: Pubkey, a: RegisterArgs, s': State)
    requires RegisteredTo(bumps, s, vk, a, s')
    ensures Counted(s', vk)
  {
    hide RegisterTarget, Siblings, UnexpiredAmong, LiveSet;
    RegisterMovesLiveSet(bumps, s, vk, a, s');
    SiblingsExist(bumps, s, vk, a.counterparty);
    CountsCoverKeys(s.now, s.sessions, Siblings(bumps, s, vk, a.counterparty));
  }

  function LiveCap(vk: Pubkey): SessionAccount -> int {
    (a: SessionAccount) => if a.LiveFor(vk) then a.reg.maxAmount else 0
  }

  /** The weights of a map concentrated on `live` and one more key, compared with another map's. */
  lemma SumWithOneMore(m: map<Pubkey, SessionAccount>, f: SessionAccount -> int, m0: map<Pubkey, SessionAccount>,
                       f0: SessionAccount -> int, live: set<Pubkey>, target: Pubkey)
    requires live + {target} <= m.Keys && live <= m0.Keys && target !in live
    requires forall k :: k in m && k !in live + {target} ==> f(m[k]) == 0
    requires forall k :: k in live ==> f(m[k]) == f0(m0[k])
    ensures Sums.Sum(m, f) == Sums.Sum(Sums.Restrict(m0, live), f0) + f(m[target])
  {
    hide Sums.Sum;
    Sums.SumRestrict(m, f, live + {target});
    assert Sums.Restrict(m, live + {target}) == Sums.Restrict(m, live)[target := m[target]];
    Sums.SumPut(Sums.Restrict(m, live), f, target, m[target]);
    Sums.SumEq(Sums.Restrict(m, live), f, Sums.Restrict(m0, live), f0);
  }

  lemma RegisterCapSum(bumps: Bumps, s: State, vk: Pubkey, a: RegisterArgs, s': State)
    requires RegisteredTo(bumps, s, vk, a, s')
    ensures Sums.Sum(s'.sessions, LiveCap(vk))
         == CapSum(s.now, s.sessions, Siblings(bumps, s, vk, a.counterparty)) + a.maxAmount
  {
    var target := RegisterTarget(bumps, vk, a.counterparty);
    var live := UnexpiredSiblings(bumps, s, vk, a.counterparty);
    SiblingsExist(bumps, s, vk, a.counterparty);
    RegisterMovesLiveSet(bumps, s, vk, a, s');
    assert s'.sessions[target] == RegisteredAccount(bumps, vk, a);
    forall k | k in s'.sessions && k !in live + {target}
      ensures LiveCap(vk)(s'.sessions[k]) == 0
    {
      assert k !in LiveSet(s', vk);
    }
    forall k | k in live
      ensures LiveCap(vk)(s'.sessions[k]) == CapOf()(s.sessions[k])
    {
      assert k in LiveSet(s', vk);
      hide LiveSet, Siblings;
    }
    hide RegisterTarget, Siblings, SessionsRegistered, LiveSet;
    SumWithOneMore(s'.sessions, LiveCap(vk), s.sessions, CapOf(), live, target);
  }

  /** Right after a register every session still marked live is unexpired, and all their caps fit in
      the wallet beside the locked amount. */
  lemma RegisterLeavesNoOvercommit(bumps: Bumps, s: State, vk: Pubkey, a: RegisterArgs, refs: seq<AccountRef>,
                                   passkeyOk: bool)
    requires RightFor(bumps, s, vk) && PassesLive(s, refs)
    requires RegisterSessionKey(bumps, s, vk, a, refs, passkeyOk).Ok?
    ensures var s' := RegisterSessionKey(bumps, s, vk, a, refs, passkeyOk).value;
            && vk in s'.vaults
            && (forall k :: k in LiveSet(s', vk) ==> s'.sessions[k].reg.expiresAt > s'.now)
            && Sums.Sum(s'.sessions, LiveCap(vk)) + s'.vaults[vk].outstandingLocked <= s'.Balance(s'.vaults[vk].swig)
  {
    hide RegisterSessionKey, RegisterTarget, CapSum, SessionAddress, PlacedOk, Counted, ScanSiblings, Keys, LiveSet,
         Siblings, LiveCap;
    var s' := RegisterSessionKey(bumps, s, vk, a, refs, passkeyOk).value;
    RegisterSeesEverySibling(bumps, s, vk, a, refs, passkeyOk);
    RegisterLeaves(bumps, s, vk, a, refs, passkeyOk);
    RegisterCapSum(bumps, s, vk, a, s');
    RegisterMovesLiveSet(bumps, s, vk, a, s');
    SiblingsExist(bumps, s, vk, a.counterparty);
  }

  // ---- Revoke, close, initialize -------------------------------------------------------------

  /** A session account reached through its seeds belongs to the vault in those seeds. */
  lemma SeedsNameTheVault(bumps: Bumps, s: State, vk: Pubkey, sk: Pubkey, counterparty: Pubkey)
    requires PlacedOk(bumps, s)
    requires SessionAt(s, vk, sk, counterparty).Ok?
    ensures s.sessions[sk].vault == vk
    ensures s.sessions[sk].version != 0 ==> s.sessions[sk].reg.counterparty == counterparty
  {
    hide Pair;
    assert Placed(bumps, s, sk);
    var account := s.sessions[sk];
    var c :| SeededBy(bumps, sk, account, c);
    SessionAddressInjective(vk, counterparty, account.bump, account.vault, c, account.bump);
  }

  /** One account cleared or removed: the rest stay where they are, and only its vault's live set shrinks. */
  ghost predicate Loses(s: State, s': State, sk: Pubkey) {
    && s'.sessions.Keys <= s.sessions.Keys
    && (forall k :: k in s'.sessions ==> s'.sessions[k] == if k == sk then s.sessions[k].Cleared() else s.sessions[k])
    && (forall k :: k in s.sessions && k != sk ==> k in s'.sessions)
  }

  lemma LosingKeepsPlaced(bumps: Bumps, s: State, s': State, sk: Pubkey, k: Pubkey)
    requires PlacedOk(bumps, s) && Loses(s, s', sk) && s'.vaults.Keys == s.vaults.Keys
    requires k in s'.sessions
    ensures Placed(bumps, s', k)
  {
    hide SessionAddress;
    assert Placed(bumps, s, k);
    var c :| SeededBy(bumps, k, s.sessions[k], c);
    assert SeededBy(bumps, k, s'.sessions[k], c);
  }

  lemma LosingMovesLiveSet(s: State, s': State, sk: Pubkey, v: Pubkey)
    requires Loses(s, s', sk)
    ensures LiveSet(s', v) == LiveSet(s, v) - {sk}
  {
  }

  lemma LosingKeepsPlacedOk(bumps: Bumps, s: State, s': State, sk: Pubkey)
    requires PlacedOk(bumps, s) && Loses(s, s', sk) && s'.vaults.Keys == s.vaults.Keys
    requires forall v :: v in s.vaults ==> s'.vaults[v].version == s.vaults[v].version
    requires forall v :: v in s.vaults && s.vaults[v].version != VAULT_VERSION_V6
               ==> s'.vaults[v].liveSessions == s.vaults[v].liveSessions
    ensures PlacedOk(bumps, s')
  {
    hide Placed, LiveSet, Loses;
    forall k | k in s'.sessions ensures Placed(bumps, s', k) {
      LosingKeepsPlaced(bumps, s, s', sk, k);
    }
    forall v | v in s'.vaults && s'.vaults[v].version != VAULT_VERSION_V6
      ensures Vacant(s', v)
    {
      assert Vacant(s, v);
      LosingMovesLiveSet(s, s', sk, v);
    }
  }

  lemma RevokeKeepsPlacedOk(bumps: Bumps, s: State, vk: Pubkey, sk: Pubkey, counterparty: Pubkey, passkeyOk: bool)
    requires PlacedOk(bumps, s)
    requires RevokeSessionKey(s, vk, sk, counterparty, passkeyOk).Ok?
    ensures PlacedOk(bumps, RevokeSessionKey(s, vk, sk, counterparty, passkeyOk).value)
  {
    hide SessionAddress, PlacedOk;
    LosingKeepsPlacedOk(bumps, s, RevokeSessionKey(s, vk, sk, counterparty, passkeyOk).value, sk);
  }

  lemma RevokeKeepsCount(bumps: Bumps, s: State, vk: Pubkey, sk: Pubkey, counterparty: Pubkey, passkeyOk: bool,
                         v: Pubkey)
    requires RightFor(bumps, s, v)
    requires RevokeSessionKey(s, vk, sk, counterparty, passkeyOk).Ok?
    ensures CountRight(RevokeSessionKey(s, vk, sk, counterparty, passkeyOk).value, v)
  {
    hide SessionAddress, PlacedOk;
    var s' := RevokeSessionKey(s, vk, sk, counterparty, passkeyOk).value;
    SeedsNameTheVault(bumps, s, vk, sk, counterparty);
    assert sk in LiveSet(s, vk);
    LosingMovesLiveSet(s, s', sk, v);
    if v != vk {
      assert LiveSet(s, v) - {sk} == LiveSet(s, v);
    }
  }

  /** The live session a revoke names is one of those counted, so the checked decrement cannot fail. */
  lemma RevokeNeverUnderflows(bumps: Bumps, s: State, vk: Pubkey, sk: Pubkey, counterparty: Pubkey, passkeyOk: bool)
    requires RightFor(bumps, s, vk)
    ensures RevokeSessionKey(s, vk, sk, counterparty, passkeyOk) != Err(IncompleteSessionSet)
  {
    hide SessionAddress;
    if vk in s.vaults && SessionAt(s, vk, sk, counterparty).Ok? {
      SeedsNameTheVault(bumps, s, vk, sk, counterparty);
      assert Counted(s, vk);
      if s.sessions[sk].version != 0 {
        assert sk in LiveSet(s, vk);
      }
    }
  }

  lemma CloseKeepsPlacedOk(bumps: Bumps, s: State, vk: Pubkey, sk: Pubkey, counterparty: Pubkey, authority: Pubkey)
    requires PlacedOk(bumps, s)
    requires CloseSession(s, vk, sk, counterparty, authority).Ok?
    ensures PlacedOk(bumps, CloseSession(s, vk, sk, counterparty, authority).value)
  {
    hide SessionAddress, PlacedOk;
    LosingKeepsPlacedOk(bumps, s, CloseSession(s, vk, sk, counterparty, authority).value, sk);
  }

  lemma CloseKeepsCount(s: State, vk: Pubkey, sk: Pubkey, counterparty: Pubkey, authority: Pubkey, v: Pubkey)
    requires CountRight(s, v)
    requires CloseSession(s, vk, sk, counterparty, authority).Ok?
    ensures CountRight(CloseSession(s, vk, sk, counterparty, authority).value, v)
  {
    hide SessionAddress;
    LosingMovesLiveSet(s, CloseSession(s, vk, sk, counterparty, authority).value, sk, v);
    assert LiveSet(s, v) - {sk} == LiveSet(s, v);
  }

  /** No account belongs to a vault that does not exist yet. */
  lemma NewVaultHasNoSessions(bumps: Bumps, s: State, vk: Pubkey)
    requires PlacedOk(bumps, s) && vk !in s.vaults
    ensures forall k :: k in s.sessions ==> s.sessions[k].vault != vk
    ensures LiveSet(s, vk) == {}
  {
    forall k | k in s.sessions ensures s.sessions[k].vault != vk { assert Placed(bumps, s, k); }
  }

  lemma InitializeKeepsCounts(bumps: Bumps, s: State, c: EnvCall, v: Pubkey)
    requires PlacedOk(bumps, s)
    requires c.Initializes? && EnvStep(s, c).Ok?
    ensures PlacedOk(bumps, EnvStep(s, c).value)
    ensures CountRight(s, v) ==> CountRight(EnvStep(s, c).value, v)
  {
    var s' := EnvStep(s, c).value;
    NewVaultHasNoSessions(bumps, s, c.vk);
    forall k | k in s'.sessions ensures Placed(bumps, s', k) {
      assert Placed(bumps, s, k);
    }
    hide Placed;
    forall u | u in s'.vaults
      ensures LiveSet(s', u) == LiveSet(s, u)
    {
    }
    forall u | u in s'.vaults && s'.vaults[u].version != VAULT_VERSION_V6
      ensures Vacant(s', u)
    {
      assert Vacant(s, u);
    }
  }

  // ---- Migration -----------------------------------------------------------------------------

  lemma UpgradeKeepsPlaced(bumps: Bumps, s: State, c: UpgradeCall, k: Pubkey)
    requires PlacedOk(bumps, s)
    requires UpgradeStep(bumps, s, c).Ok?
    requires k in UpgradeStep(bumps, s, c).value.sessions
    ensures Placed(bumps, UpgradeStep(bumps, s, c).value, k)
  {
    hide SessionAddress;
    var s' := UpgradeStep(bumps, s, c).value;
    if k in s.sessions {
      assert Placed(bumps, s, k);
      var cp :| SeededBy(bumps, k, s.sessions[k], cp);
      assert SeededBy(bumps, k, s'.sessions[k], cp);
    } else {
      assert SeededBy(bumps, k, s'.sessions[k], c.counterparty);
    }
  }

  lemma UpgradeKeepsPlacedOk(bumps: Bumps, s: State, c: UpgradeCall)
    requires PlacedOk(bumps, s)
    requires UpgradeStep(bumps, s, c).Ok?
    ensures PlacedOk(bumps, UpgradeStep(bumps, s, c).value)
  {
    hide RegisterTarget, Placed, LiveSet;
    var s' := UpgradeStep(bumps, s, c).value;
    forall k | k in s'.sessions ensures Placed(bumps, s', k) {
      UpgradeKeepsPlaced(bumps, s, c, k);
    }
    forall v | v in s'.vaults && s'.vaults[v].version != VAULT_VERSION_V6
      ensures Vacant(s', v)
    {
      assert Vacant(s, v);
      UpgradeMovesLiveSet(bumps, s, c, v);
    }
  }

  /** A vault that leaves V5 counts what it brings: its live inline session, now an account, or nothing. */
  lemma UpgradeCounts(bumps: Bumps, s: State, c: UpgradeCall, v: Pubkey)
    requires PlacedOk(bumps, s)
    requires UpgradeStep(bumps, s, c).Ok?
    ensures v == c.vk || CountRight(s, v) ==> CountRight(UpgradeStep(bumps, s, c).value, v)
  {
    hide RegisterTarget, Placed, LiveSet;
    UpgradeMovesLiveSet(bumps, s, c, v);
    if v == c.vk {
      assert Vacant(s, v);
    }
  }

  lemma UpgradeMovesLiveSet(bumps: Bumps, s: State, c: UpgradeCall, v: Pubkey)
    requires UpgradeStep(bumps, s, c).Ok?
    ensures LiveSet(UpgradeStep(bumps, s, c).value, v) ==
      if c.MigratesWithSession? && v == c.vk then LiveSet(s, v) + {RegisterTarget(bumps, v, c.counterparty)}
      else LiveSet(s, v)
  {
    hide SessionAddress;
  }

  // ---- When a cleared account is passed ------------------------------------------------------

  /** A register that was handed a cleared account takes it for an expired sibling and counts one live session
      too few. */
  lemma ClearedAccountMiscounts(bumps: Bumps, s: State, vk: Pubkey, a: RegisterArgs, refs: seq<AccountRef>,
                                passkeyOk: bool)
    requires RightFor(bumps, s, vk) && !PassesLive(s, refs) && 0 <= s.now
    requires RegisterSessionKey(bumps, s, vk, a, refs, passkeyOk).Ok?
    ensures var s' := RegisterSessionKey(bumps, s, vk, a, refs, passkeyOk).value;
            vk in s'.vaults && s'.vaults[vk].liveSessions < |LiveSet(s', vk)|
  {
    hide RegisterSessionKey, RegisterTarget, CapSum, SessionAddress, PlacedOk, Counted, ScanSiblings, FreshRegistration,
         SiblingOk, Keys, UnexpiredAmong, LiveSet, Siblings, SweptTo;
    var target := RegisterTarget(bumps, vk, a.counterparty);
    RegisterUnfolds(bumps, s, vk, a, refs, passkeyOk);
    RegisterYields(bumps, s, vk, a, refs, passkeyOk);
    ScanEstablishes(s.now, vk, target, s.sessions, refs);
    SiblingsCount(bumps, s, vk, a.counterparty);
    var swept := Keys(refs) - UnexpiredAmong(s.now, s.sessions, Keys(refs));
    var cleared := ClearedIsSwept(bumps, s, refs);
    LiveAfterScan(bumps, s, vk, a, refs, passkeyOk);
    SiblingsExist(bumps, s, vk, a.counterparty);
    if cleared in Siblings(bumps, s, vk, a.counterparty) {
      SiblingsAreLive(bumps, s, vk, a.counterparty, cleared);
    }
    FewerThanSwept(Siblings(bumps, s, vk, a.counterparty), swept, cleared, target);
  }

  lemma FewerThanSwept(siblings: set<Pubkey>, swept: set<Pubkey>, cleared: Pubkey, target: Pubkey)
    requires cleared in swept && cleared !in siblings && target !in siblings
    ensures |siblings| + 1 - |swept| < |(siblings - swept) + {target}|
  {
    var hit := swept * siblings;
    Sums.SubsetSize(hit, swept - {cleared});
    assert siblings - swept == siblings - hit;
  }

  lemma ClearedIsSwept(bumps: Bumps, s: State, refs: seq<AccountRef>) returns (k: Pubkey)
    requires PlacedOk(bumps, s) && !PassesLive(s, refs) && 0 <= s.now
    ensures k in s.sessions && s.sessions[k].version == 0
    ensures k in Keys(refs) - UnexpiredAmong(s.now, s.sessions, Keys(refs))
  {
    hide SessionAddress;
    var i :| 0 <= i < |refs| && refs[i].key in s.sessions && s.sessions[refs[i].key].version == 0;
    k := refs[i].key;
    KeysHold(refs, i);
    assert Placed(bumps, s, k);
  }

  lemma LiveAfterScan(bumps: Bumps, s: State, vk: Pubkey, a: RegisterArgs, refs: seq<AccountRef>, passkeyOk: bool)
    requires PlacedOk(bumps, s)
    requires RegisterSessionKey(bumps, s, vk, a, refs, passkeyOk).Ok?
    ensures var s' := RegisterSessionKey(bumps, s, vk, a, refs, passkeyOk).value;
            var swept := Keys(refs) - UnexpiredAmong(s.now, s.sessions, Keys(refs));
            LiveSet(s', vk)
              == (Siblings(bumps, s, vk, a.counterparty) - swept) + {RegisterTarget(bumps, vk, a.counterparty)}
  {
    hide RegisterSessionKey, RegisterTarget, CapSum, SessionAddress, PlacedOk, ScanSiblings, FreshRegistration,
         SiblingOk, Keys, LiveSet, UnexpiredAmong, SweptTo;
    var target := RegisterTarget(bumps, vk, a.counterparty);
    var s' := RegisterSessionKey(bumps, s, vk, a, refs, passkeyOk).value;
    RegisterUnfolds(bumps, s, vk, a, refs, passkeyOk);
    RegisterYields(bumps, s, vk, a, refs, passkeyOk);
    ScanEstablishes(s.now, vk, target, s.sessions, refs);
    TargetIsLive(bumps, s, vk, a.counterparty);
    var after := ScanSiblings(s.now, vk, target, s.sessions, refs).value.sessions;
    var existing := SessionOrZero(s.sessions, target);
    var written :=
      if existing.version == 0 then RegisteredAccount(bumps, vk, a) else existing.(reg := FreshRegistration(a));
    assert s'.sessions == after[target := written];
    assert written.LiveFor(vk);
    LiveAfterSweep(s, vk, Keys(refs), after, target, written, s');
  }

  lemma LiveAfterSweep(s: State, vk: Pubkey, keys: set<Pubkey>, after: map<Pubkey, SessionAccount>, target: Pubkey,
                       written: SessionAccount, s': State)
    requires SweptTo(s.now, s.sessions, keys, after)
    requires written.LiveFor(vk) && s'.sessions == after[target := written]
    ensures LiveSet(s', vk) == (LiveSet(s, vk) - {target} - (keys - UnexpiredAmong(s.now, s.sessions, keys))) + {target}
  {
    forall k | k != target
      ensures k in LiveSet(s', vk) <==>
        k in LiveSet(s, vk) - {target} - (keys - UnexpiredAmong(s.now, s.sessions, keys))
    {
      assert k in s'.sessions <==> k in s.sessions;
    }
    assert target in LiveSet(s', vk);
  }

  // ---- Every run -----------------------------------------------------------------------------

  /** If the call is a register on vault `v` that succeeds, it names no cleared account. */
  ghost predicate PassesOnlyLive(bumps: Bumps, s: State, c: Call, v: Pubkey) {
    c.Session? && c.session.Registers? && c.session.vk == v && Step(bumps, s, c).Ok? ==> PassesLive(s, c.session.refs)
  }

  ghost predicate OnlyLive(bumps: Bumps, s: State, calls: seq<Call>, v: Pubkey) {
    forall i :: 0 <= i < |calls| ==> PassesOnlyLive(bumps, Run(bumps, s, calls[..i]), calls[i], v)
  }

  lemma ExecKeepsPlacedOk(bumps: Bumps, s: State, c: Call)
    requires PlacedOk(bumps, s)
    ensures PlacedOk(bumps, Exec(bumps, s, c))
  {
    hide PlacedOk, EnvStep, UpgradeStep, TabStep, ClaimStep, CreditStep, ExitStep, RegisterSessionKey, RevokeSessionKey,
         CloseSession, SameShape;
    if Step(bumps, s, c).Ok? {
      var s' := Step(bumps, s, c).value;
      match c
      case Env(e) =>
        if e.Initializes? { InitializeKeepsCounts(bumps, s, e, e.vk); }
        else { EnvKeepsShape(s, e); ShapeKeepsPlacedOk(bumps, s, s'); }
      case Session(Registers(vk, a, refs, ok)) => RegisterKeepsPlacedOk(bumps, s, vk, a, refs, ok);
      case Session(Revokes(vk, sk, cp, ok)) => RevokeKeepsPlacedOk(bumps, s, vk, sk, cp, ok);
      case Session(Closes(vk, sk, cp, authority)) => CloseKeepsPlacedOk(bumps, s, vk, sk, cp, authority);
      case Upgrade(e) => UpgradeKeepsPlacedOk(bumps, s, e);
      case Tab(e) => TabKeepsShape(s, e); ShapeKeepsPlacedOk(bumps, s, s');
      case Claim(e) => ClaimKeepsShape(s, e); ShapeKeepsPlacedOk(bumps, s, s');
      case Credit(e) => CreditKeepsShape(s, e); ShapeKeepsPlacedOk(bumps, s, s');
      case Exit(e) => ExitKeepsShape(s, e); ShapeKeepsPlacedOk(bumps, s, s');
    }
  }

  lemma RegisterCounts(bumps: Bumps, s: State, c: SessionCall, v: Pubkey)
    requires RightFor(bumps, s, v)
    requires c.Registers? && SessionStep(bumps, s, c).Ok?
    requires c.vk == v ==> PassesLive(s, c.refs)
    ensures CountRight(SessionStep(bumps, s, c).value, v)
  {
    hide RegisterSessionKey, PlacedOk, Counted, PassesLive, RegisteredTo, LiveSet;
    if c.vk == v {
      RegisterLeaves(bumps, s, c.vk, c.args, c.refs, c.passkeyOk);
      RegisterKeepsCount(bumps, s, c.vk, c.args, SessionStep(bumps, s, c).value);
    } else {
      RegisterKeepsPlacedOk(bumps, s, c.vk, c.args, c.refs, c.passkeyOk);
    }
  }

  lemma ExecKeepsCount(bumps: Bumps, s: State, c: Call, v: Pubkey)
    requires RightFor(bumps, s, v) && PassesOnlyLive(bumps, s, c, v)
    ensures CountRight(Exec(bumps, s, c), v)
  {
    hide PlacedOk, CountRight, EnvStep, SessionStep, UpgradeStep, TabStep, ClaimStep, CreditStep, ExitStep, PassesLive,
         SameShape;
    if Step(bumps, s, c).Ok? {
      var s' := Step(bumps, s, c).value;
      match c
      case Env(e) =>
        if e.Initializes? { InitializeKeepsCounts(bumps, s, e, v); }
        else { EnvKeepsShape(s, e); ShapeKeepsLiveSet(s, s', v); }
      case Session(e) =>
        if e.Registers? { RegisterCounts(bumps, s, e, v); } else { TeardownCounts(bumps, s, e, v); }
      case Upgrade(e) => UpgradeCounts(bumps, s, e, v);
      case Tab(e) => TabKeepsShape(s, e); ShapeKeepsLiveSet(s, s', v);
      case Claim(e) => ClaimKeepsShape(s, e); ShapeKeepsLiveSet(s, s', v);
      case Credit(e) => CreditKeepsShape(s, e); ShapeKeepsLiveSet(s, s', v);
      case Exit(e) => ExitKeepsShape(s, e); ShapeKeepsLiveSet(s, s', v);
    }
  }

  lemma TeardownCounts(bumps: Bumps, s: State, c: SessionCall, v: Pubkey)
    requires RightFor(bumps, s, v)
    requires !c.Registers? && SessionStep(bumps, s, c).Ok?
    ensures CountRight(SessionStep(bumps, s, c).value, v)
  {
    hide PlacedOk, CountRight, RevokeSessionKey, CloseSession;
    match c
    case Revokes(vk, sk, cp, ok) => RevokeKeepsCount(bumps, s, vk, sk, cp, ok, v);
    case Closes(vk, sk, cp, authority) => CloseKeepsCount(s, vk, sk, cp, authority, v);
  }

  lemma OnlyLivePrefix(bumps: Bumps, s: State, calls: seq<Call>, v: Pubkey, n: nat)
    requires OnlyLive(bumps, s, calls, v) && n <= |calls|
    ensures OnlyLive(bumps, s, calls[..n], v)
  {
    hide PassesOnlyLive, Run;
    forall i | 0 <= i < n
      ensures PassesOnlyLive(bumps, Run(bumps, s, calls[..n][..i]), calls[..n][i], v)
    {
      assert calls[..n][..i] == calls[..i];
    }
  }

  lemma OnlyLiveExtends(bumps: Bumps, s: State, calls: seq<Call>, c: Call, v: Pubkey)
    requires OnlyLive(bumps, s, calls, v) && PassesOnlyLive(bumps, Run(bumps, s, calls), c, v)
    ensures OnlyLive(bumps, s, calls + [c], v)
  {
    hide PassesOnlyLive, Run;
    var n := |calls|;
    forall i | 0 <= i <= n
      ensures PassesOnlyLive(bumps, Run(bumps, s, (calls + [c])[..i]), (calls + [c])[i], v)
    {
      assert (calls + [c])[..i] == calls[..i];
      assert i == n ==> calls[..i] == calls;
    }
  }

  /** Over every run whatsoever, every session account is where it was derived, and a vault of an earlier version
      has no live one. */
  lemma {:induction false} RunKeepsPlacedOk(bumps: Bumps, s: State, calls: seq<Call>)
    requires PlacedOk(bumps, s)
    ensures PlacedOk(bumps, Run(bumps, s, calls))
    decreases |calls|
  {
    if calls != [] {
      hide PlacedOk, Exec;
      var n := |calls| - 1;
      RunKeepsPlacedOk(bumps, s, calls[..n]);
      ExecKeepsPlacedOk(bumps, Run(bumps, s, calls[..n]), calls[n]);
    }
  }

  /** From every state where one vault's count is right, over every run in which no successful register on that
      vault names a cleared account, its live_session_count is the number of its live session accounts: through
      first touch, replace, sweep, revoke, close, re-create and both migrations, and whatever is registered on
      other vaults. */
  lemma {:induction false} RunKeepsCount(bumps: Bumps, s: State, calls: seq<Call>, v: Pubkey)
    requires RightFor(bumps, s, v) && OnlyLive(bumps, s, calls, v)
    ensures RightFor(bumps, Run(bumps, s, calls), v)
    decreases |calls|
  {
    if calls != [] {
      var n := |calls| - 1;
      OnlyLivePrefix(bumps, s, calls, v, n);
      hide PlacedOk, CountRight, Exec, PassesOnlyLive;
      RunKeepsCount(bumps, s, calls[..n], v);
      assert PassesOnlyLive(bumps, Run(bumps, s, calls[..n]), calls[n], v);
      ExecKeepsPlacedOk(bumps, Run(bumps, s, calls[..n]), calls[n]);
      ExecKeepsCount(bumps, Run(bumps, s, calls[..n]), calls[n], v);
    }
  }

  lemma StepKeepsClock(bumps: Bumps, s: State, c: Call)
    requires Step(bumps, s, c).Ok?
    ensures s.now <= Step(bumps, s, c).value.now
  {
    hide RegisterSessionKey, EnvStep, UpgradeStep, TabStep, ClaimStep, CreditStep, ExitStep, SessionAddress;
    match c
    case Env(e) => if e.Initializes? { InitializeKeepsClock(s, e); } else { EnvKeepsShape(s, e); }
    case Session(Registers(vk, a, refs, ok)) => RegisterYields(bumps, s, vk, a, refs, ok);
    case Session(_) =>
    case Upgrade(e) => UpgradeKeepsClock(bumps, s, e);
    case Tab(e) => TabKeepsShape(s, e);
    case Claim(e) => ClaimKeepsShape(s, e);
    case Credit(e) => CreditKeepsShape(s, e);
    case Exit(e) => ExitKeepsShape(s, e);
  }

  lemma InitializeKeepsClock(s: State, c: EnvCall)
    requires c.Initializes? && EnvStep(s, c).Ok?
    ensures EnvStep(s, c).value.now == s.now
  {
  }

  lemma UpgradeKeepsClock(bumps: Bumps, s: State, c: UpgradeCall)
    requires UpgradeStep(bumps, s, c).Ok?
    ensures UpgradeStep(bumps, s, c).value.now == s.now
  {
    hide RegisterTarget;
  }

  lemma {:induction false} RunKeepsClock(bumps: Bumps, s: State, calls: seq<Call>)
    ensures s.now <= Run(bumps, s, calls).now
    decreases |calls|
  {
    if calls != [] {
      hide Step;
      var n := |calls| - 1;
      RunKeepsClock(bumps, s, calls[..n]);
      if Step(bumps, Run(bumps, s, calls[..n]), calls[n]).Ok? {
        StepKeepsClock(bumps, Run(bumps, s, calls[..n]), calls[n]);
      }
    }
  }

  /** Exactly when one vault's count stays right: throughout a run, if and only if no successful register on that
      vault names a cleared account. */
  lemma CountRightIffOnlyLive(bumps: Bumps, s: State, calls: seq<Call>, v: Pubkey)
    requires RightFor(bumps, s, v) && 0 <= s.now
    ensures (forall n :: 0 <= n <= |calls| ==> CountRight(Run(bumps, s, calls[..n]), v))
      <==> OnlyLive(bumps, s, calls, v)
  {
    hide PlacedOk, CountRight, PassesOnlyLive, Run;
    if OnlyLive(bumps, s, calls, v) {
      forall n | 0 <= n <= |calls|
        ensures CountRight(Run(bumps, s, calls[..n]), v)
      {
        OnlyLivePrefix(bumps, s, calls, v, n);
        RunKeepsCount(bumps, s, calls[..n], v);
      }
    }
    if forall n :: 0 <= n <= |calls| ==> CountRight(Run(bumps, s, calls[..n]), v) {
      forall i | 0 <= i < |calls|
        ensures PassesOnlyLive(bumps, Run(bumps, s, calls[..i]), calls[i], v)
      {
        assert CountRight(Run(bumps, s, calls[..i]), v) && CountRight(Run(bumps, s, calls[..i + 1]), v);
        RunKeepsClock(bumps, s, calls[..i]);
        RunKeepsPlacedOk(bumps, s, calls[..i]);
        RunSnoc(bumps, s, calls, i);
        CountRightAfter(bumps, Run(bumps, s, calls[..i]), calls[i], v);
      }
    }
  }

  lemma CountRightAfter(bumps: Bumps, s: State, c: Call, v: Pubkey)
    requires RightFor(bumps, s, v) && 0 <= s.now && CountRight(Exec(bumps, s, c), v)
    ensures PassesOnlyLive(bumps, s, c, v)
  {
    hide RegisterSessionKey, PlacedOk, LiveSet, PassesLive;
    if c.Session? && c.session.Registers? && c.session.vk == v && Step(bumps, s, c).Ok? {
      var r := c.session;
      if !PassesLive(s, r.refs) {
        ClearedAccountMiscounts(bumps, s, r.vk, r.args, r.refs, r.passkeyOk);
      }
    }
  }
}
