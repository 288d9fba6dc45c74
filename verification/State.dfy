/** The program's accounts, as state.rs declares them, and the store that holds them. */
module State {
  import opened Prelude

  /** Addresses are opaque and totally ordered. The type is unbounded so that the derivation of
      program addresses can be collision-free, as the runtime's hash is assumed to be. */
  type Pubkey = nat

  const DEFAULT_KEY: Pubkey := 0

  const VAULT_VERSION_V2: u8 := 2
  const VAULT_VERSION_V3: u8 := 3
  const VAULT_VERSION_V4: u8 := 4
  const VAULT_VERSION_V5: u8 := 5
  const VAULT_VERSION_V6: u8 := 6
  const SESSION_VERSION_V1: u8 := 1
  const STANDBY_BACKER_VERSION_V1: u8 := 1
  const FORCE_RELEASE_GRACE_SECONDS: int := 7 * 24 * 60 * 60
  const MAX_REQUEST_DRIFT: int := 300

  // ---- Program-derived addresses -----------------------------------------------------------

  /** An injective pairing: 2^a * (2b + 1). */
  function Pair(a: nat, b: nat): (p: nat)
    ensures p > 0
  {
    if a == 0 then 2 * b + 1 else 2 * Pair(a - 1, b)
  }

  lemma {:induction false} PairInjective(a: nat, b: nat, c: nat, d: nat)
    requires Pair(a, b) == Pair(c, d)
    ensures a == c && b == d
  {
    if a > 0 && c > 0 {
      PairInjective(a - 1, b, c - 1, d);
    }
  }

  /** create_program_address over ["session", vault, counterparty] and an explicit bump. */
  function SessionAddress(vault: Pubkey, counterparty: Pubkey, bump: u8): Pubkey {
    Pair(vault, Pair(counterparty, bump))
  }

  /** One session per (vault, counterparty): the address gives its seeds back. */
  lemma SessionAddressInjective(v: Pubkey, c: Pubkey, b: u8, v': Pubkey, c': Pubkey, b': u8)
    requires SessionAddress(v, c, b) == SessionAddress(v', c', b')
    ensures v == v' && c == c' && b == b'
  {
    PairInjective(v, Pair(c, b), v', Pair(c', b'));
    PairInjective(c, b, c', b');
  }

  /** The address of ["locked-claim", vault, voucher_hash]. */
  function ClaimAddress(vault: Pubkey, voucherHash: nat): Pubkey {
    Pair(vault, voucherHash)
  }

  /** One claim per (vault, voucher hash). */
  lemma ClaimAddressInjective(v: Pubkey, h: nat, v': Pubkey, h': nat)
    requires ClaimAddress(v, h) == ClaimAddress(v', h')
    ensures v == v' && h == h'
  {
    PairInjective(v, h, v', h');
  }

  // ---- Accounts ----------------------------------------------------------------------------

  datatype PendingWithdrawal = PendingWithdrawal(amount: u64, destination: Pubkey, requestedAt: i64)

  /** `activeSession` is the session a vault of an earlier version carries inline, and `liveSessions` the
      count that replaced it: a V6 vault has no inline session, an earlier one has no count. */
  datatype Vault = Vault(
    version: u8,
    swig: Pubkey,
    coolingOffSeconds: u32,
    pendingVouchers: u32,
    pendingWithdrawal: Option<PendingWithdrawal>,
    dexterAuthority: Pubkey,
    liveSessions: u8,
    outstandingLocked: u64,
    totalCrystallized: u64,
    totalSettled: u64,
    borrowed: u64,
    standbyBacker: Option<Pubkey>,
    standbyCap: u64,
    borrowRecoveryAt: Option<i64>,
    activeSession: Option<SessionRegistration>)

  datatype SessionRegistration = SessionRegistration(
    sessionPubkey: Pubkey,
    maxAmount: u64,
    expiresAt: i64,
    counterparty: Pubkey,
    nonce: u32,
    spent: u64,
    currentOutstanding: u64,
    maxRevolving: u64,
    crystallized: u64,
    lastLockedSequence: u32)
  {
    /** The XOR frontier both terminal paths are gated on. */
    function Frontier(): u64 { Max(spent, crystallized) }
  }

  const NO_SESSION := SessionRegistration(DEFAULT_KEY, 0, 0, DEFAULT_KEY, 0, 0, 0, 0, 0, 0)

  datatype SessionAccount = SessionAccount(version: u8, bump: u8, vault: Pubkey, reg: SessionRegistration) {
    /** Revoke and the register-time sweep clear a session: version and scope go, bump and vault stay. */
    function Cleared(): SessionAccount { SessionAccount(0, bump, vault, NO_SESSION) }

    predicate LiveFor(v: Pubkey) { vault == v && version != 0 }
  }

  datatype ClaimStatus = Pending | Settled | Abandoned

  datatype LockedClaim = LockedClaim(
    vault: Pubkey,
    sessionPubkeyAtLock: Pubkey,
    voucherHash: nat,
    amount: u64,
    createdAt: i64,
    maturityAt: Option<i64>,
    holderRecoveryAt: Option<i64>,
    currentHolder: Pubkey,
    status: ClaimStatus,
    settledAt: Option<i64>,
    recoveredAt: Option<i64>)

  datatype StandbyBacker = StandbyBacker(
    version: u8,
    financierSwig: Pubkey,
    committedReserve: u64,
    aggregatePromised: u64)

  /** Everything the instructions read or write. Backers are keyed by the financier that seeds
      their address, balances by the swig whose wallet owns the token account. */
  datatype State = State(
    now: i64,
    vaults: map<Pubkey, Vault>,
    sessions: map<Pubkey, SessionAccount>,
    claims: map<Pubkey, LockedClaim>,
    backers: map<Pubkey, StandbyBacker>,
    balances: map<Pubkey, u64>)
  {
    function Balance(wallet: Pubkey): u64 {
      if wallet in balances then balances[wallet] else 0
    }
  }

  const GENESIS := State(0, map[], map[], map[], map[], map[])
}
