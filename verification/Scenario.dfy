/** Runs from genesis, step by step: the setting the runs that reach a surprising state start from. */
module Scenario {
  import opened Prelude
  import opened State
  import opened Protocol

  /** Vault 1 under passkey prefix 2 and authority 3, with no cooling-off, bound to wallet 7. */
  function VaultOne(live: u8): Vault {
    Vault(VAULT_VERSION_V6, 7, 0, 0, None, 3, live, 0, 0, 0, 0, None, 0, None, None)
  }

  function Funding(amount: u64): seq<Call> {
    [Env(Initializes(1, 2, 0, 3))] + [Env(SetsSwig(1, 7, true))] + [Env(Deposits(7, amount))]
  }

  function Funded(amount: u64): State {
    GENESIS.(vaults := map[1 := VaultOne(0)], balances := map[7 := amount])
  }

  /** A run is extended by a step that succeeds. */
  lemma Then(bumps: Bumps, calls: seq<Call>, s: State, c: Call, s': State)
    requires Run(bumps, GENESIS, calls) == s && Step(bumps, s, c) == Ok(s')
    ensures Run(bumps, GENESIS, calls + [c]) == s'
  {
    hide Step;
    RunExtends(bumps, GENESIS, calls, c);
  }

  lemma FundingRun(bumps: Bumps, amount: u64)
    ensures Run(bumps, GENESIS, Funding(amount)) == Funded(amount)
  {
    var c0, c1, c2 := Env(Initializes(1, 2, 0, 3)), Env(SetsSwig(1, 7, true)), Env(Deposits(7, amount));
    var s1 := GENESIS.(vaults := map[1 := VaultOne(0).(swig := DEFAULT_KEY)]);
    var s2 := GENESIS.(vaults := map[1 := VaultOne(0)]);
    Then(bumps, [], GENESIS, c0, s1);
    assert [] + [c0] == [c0];
    assert s1.vaults[1 := VaultOne(0)] == s2.vaults;
    Then(bumps, [c0], s1, c1, s2);
    assert s2.balances[7 := amount] == Funded(amount).balances;
    Then(bumps, [c0] + [c1], s2, c2, Funded(amount));
  }

  lemma ScanOfOne(now: i64, vk: Pubkey, target: Pubkey, sessions: map<Pubkey, SessionAccount>, acct: AccountRef)
    ensures ScanSiblings(now, vk, target, sessions, [acct])
         == ScanOne(now, vk, target, None, Scan(0, 0, 0, sessions), acct)
  {
    assert [acct][..0] == [];
    assert ScanSiblings(now, vk, target, sessions, [acct][..0]) == Ok(Scan(0, 0, 0, sessions));
  }
}
