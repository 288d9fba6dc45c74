# A verified model of the dexter vault

The dexter vault is a Solana program: a buyer's vault holds USDC in a wallet, authorizes sellers through session
accounts, pays them through vouchers that are settled at once or locked into claims, may draw on a financier's
standby credit, and is withdrawn from after a cooling-off period. Its accounts have gone through six byte layouts,
and an operator's script walks old ones up to the current layout. This project models that logic in Dafny and proves
what holds of it over all inputs and all runs.

Check everything with `dafny verify dfyconfig.toml`.

## The model

**The protocol as a step relation.** `State` holds the accounts: vaults, session accounts, claims, financier ledgers,
token balances and the clock. `Protocol` gives each instruction as a function from the accounts it finds to the
accounts it leaves or to the error it ends with, and `Exec` and `Run` make transactions and runs of them; a failed
transaction changes nothing. `Bank` is the same program as the runtime executes it: a class whose methods change the
accounts in place, the sibling loop of register clearing expired siblings as it goes; `Execute` runs one of them as a
transaction and, when it or the transfer it authorizes fails, puts back what it had found. The class keeps its history,
and its invariant is that the store is what `Run` makes of that history; the methods state what this gives their callers.
The invariants are proved over `Run`: `SessionCount` (with `SiblingScan` and `Counterparty`), `ClaimLedger`, `Epoch`,
`CreditLedger`, `Deadline`, `Solvency` and `Withdrawal`. `Insolvency` has the runs that show what solvency asks for is
needed, and `Scenario` what they start from. Runs start from any state in order, which may hold vaults of V2 to V5 with
inline sessions; both V5 -> V6 migrations are steps of the run. The empty chain is one such state. `Sums` has the sums
over account maps these proofs rest on.

`Specification` says what every instruction promises without saying how: which error refuses it and, otherwise, what
each field holds afterwards. `Refinement` proves that the step relation does exactly that, and so does `Bank.Execute`.
`Tabs` counts from a history alone the vouchers a vault still awaits.

- Addresses are opaque, ordered and unbounded, so that address derivation can be injective as the runtime's hash is
  assumed to be. Passkey, session-key and swig signatures are boolean inputs, as is the voucher hash comparison.
- An instruction and the swig transfer it authorizes are one transaction: the wallet is debited by exactly the amount
  the handler computes, or the transaction ends with `InsufficientFunds`. Each wallet has one token account.
- u8, u32, u64 and i64 are bounded types; every checked and saturating operation of the source is written out.

**The bytes.** `Borsh` and `Layouts` give writers and readers for the layouts V2 to V6 and the session inside them,
`Offsets` says where each field stands, `Appending` that following bytes do not disturb an encoding, `Migration` and
`Legacy` give the migrations as functions of an account's bytes, `VaultAccount` runs them on a buffer that is resized
and overwritten, and `MigrationChain` proves what they preserve. `Fleet` models the script: its readers with
hand-computed offsets, its choice of the last hop and its walk. Keys are 32 bytes here. `INIT_SPACE` is the encoding length with every option
present, which gives the sizes 289, 305, 341, 399 and 279.

**The challenge.** `WebAuthn` models the scanner for the challenge in clientDataJSON and the streaming base64url
decoder with its 32-bit shift buffer, against the bit-string reading of section 5 of RFC 4648.

Where the source's own words and its code disagree, the code is modelled:

- programs/dexter-vault/src/state.rs:91-93 says that no deadline means nothing is borrowed and is set on the first
  draw; a draw of 0 also arms it, before there is a loan. `Deadline.TightIffNoEmptyDraw` is exact,
  `Deadline.EmptyDrawSpendsTheWindow` is a run in which a loan is seized in the second it is drawn, and
  `Deadline.SeizedAfterItsWindow` is what holds of every run without such a draw.
- programs/dexter-vault/src/state.rs:66-68 says the summed-cap gate cannot be made to see too few sessions; that needs
  no register on the vault to be handed a cleared account, which a session registered for the default key makes
  possible: `SessionCount.CountRightIffOnlyLive` is exact, `Counterparty.DefaultSessionHidesASibling` is such a run.
- programs/dexter-vault/src/verify/webauthn.rs:172-174 speaks of the next unescaped quote; the code stops at the first
  quote, escaped or not. `WebAuthn.ReadingsAgree` says exactly on which documents that differs,
  `WebAuthn.PaddedEscapedQuote` is one.
- programs/dexter-vault/src/instructions/migrate_v2_to_v3.rs:35-47 says the account grows by sixteen zero bytes, and
  scripts/migrate-fleet.ts:17 that it grows to 305; the handler takes the size of the current vault, 279, which is less
  than a V2 account has, so nothing grows. `MigrationChain.V2SurvivesIff` is exact and `MigrationChain.FullV2IsStranded`
  is a family of accounts no later hop can read.

## Model

| member | source | states |
|---|---|---|
| `Refinement.StepMeets` | programs/dexter-vault/src/lib.rs:14-214 | Every instruction, on every state and with every argument, is refused with exactly the error that `Specification` names for it, or leaves exactly the accounts specified, field by field, with everything else as it was. |
| `Refinement.ListMeets` | programs/dexter-vault/src/instructions/register_session_key.rs:173-245 | The error of the sibling loop is that of the first entry that is not in order, read off the accounts as the instruction found them and not off the working copy it sweeps. |
| `Refinement.RegisterMeets` | programs/dexter-vault/src/instructions/register_session_key.rs:129-321 | Register, whatever list it is handed: each refusal with its error; otherwise the target holds the key, cap, expiry, counterparty, nonce and revolving capacity asked for with all four odometers 0, exactly the expired entries of the list are blank, and the count moves by what was swept and what is new. |
| `Refinement.TeardownMeets` | programs/dexter-vault/src/instructions/revoke_session_key.rs:73-141 | Revoke blanks one session and takes one from the count; close removes a session that is not live; each refusal with its error. |
| `Refinement.UpgradeMeets` | programs/dexter-vault/src/instructions/migrate_v5_to_v6.rs:100-365 | The two last hops as steps: stamp 6, the inline session away or, exactly as it was, in its own account; each refusal with its error. |
| `Refinement.SettleVoucherMeets` | programs/dexter-vault/src/instructions/settle_voucher.rs:41-86 | A tab opened raises the meter by the amount, within the capacity, and the pending count by one, capped; a release takes one from the count; each refusal with its error. |
| `Refinement.SettleTabMeets` | programs/dexter-vault/src/instructions/settle_tab_voucher.rs:155-251 | A settlement sets `spent` to the voucher, takes what was paid off the meter and one off the pending count, both as far as zero, and debits exactly that wallet by exactly the rise; each refusal with its error. |
| `Refinement.LockMeets` | programs/dexter-vault/src/instructions/lock_voucher.rs:136-295 | A lock creates the claim with every field as asked, moves crystallized_cumulative to the voucher, takes the rise off the meter as far as zero, and reserves and counts it in the vault; each refusal with its error. |
| `Refinement.ClaimMeets` | programs/dexter-vault/src/instructions/settle_locked_voucher.rs:61-119 | Settling, recovering and transferring a claim: which fields of claim and vault move, what is paid, and each refusal with its error. |
| `Refinement.CreditMeets` | programs/dexter-vault/src/instructions/open_standby.rs:74-165 | The six credit instructions: which fields of the vault and of the financier's ledger move, what is paid by whom, and each refusal with its error. |
| `Refinement.ExitMeets` | programs/dexter-vault/src/instructions/finalize_withdrawal.rs:61-146 | Request, finalize and force release: each refusal with its error, the cooling-off and the grace period as plain sums of seconds, and the fields that move. |
| `Refinement.EnvMeets` | programs/dexter-vault/src/instructions/initialize_vault.rs:42-80 | A new vault field by field, a binding to a wallet, and the clock and deposits of the environment; each refusal with its error. |
| `SiblingScan.ScanEstablishes` | programs/dexter-vault/src/instructions/register_session_key.rs:173-245 | Once the sibling loop has ended, the list was strictly ascending, every entry passed re-derivation, the two counters are the sizes of the unexpired and the expired part, the sum is the sum of the unexpired caps, and exactly the expired entries are cleared. |
| `SiblingScan.ScanAccepts` | programs/dexter-vault/src/instructions/register_session_key.rs:177-245 | Conversely the loop accepts every strictly ascending list of good siblings whose caps fit in a u64. |
| `SessionCount.RegisterUnfolds` | programs/dexter-vault/src/instructions/register_session_key.rs:129-298 | Register succeeds exactly when the loop does and the guards around it hold; the re-sync subtractions after the completeness check never fail. |
| `SessionCount.RegisterSeesEverySibling` | programs/dexter-vault/src/instructions/register_session_key.rs:160-256 | A successful register that was handed no cleared account was handed exactly the vault's other live sessions, each once: ascent gives distinctness, vault binding gives membership, the count equation gives equality of sets. |
| `SessionCount.RegisterTakesEverySibling` | programs/dexter-vault/src/instructions/register_session_key.rs:129-267 | The other direction: the complete list, with the caps within the balance, is always accepted. |
| `SessionCount.RegisterOnLiveIffComplete` | programs/dexter-vault/src/instructions/register_session_key.rs:129-279 | Wherever the count of its vault is right: register succeeds on a list without cleared accounts if and only if it is the complete, ascending sibling list (expired ones writable) and the caps, the locked amount and the new cap fit in the balance. |
| `Counterparty.RegisterIffComplete` | programs/dexter-vault/src/instructions/register_session_key.rs:129-279 | While no session of its vault is registered for the default key, register succeeds at all if and only if that holds. |
| `SessionCount.RegisterCompleteUnlessCleared` | programs/dexter-vault/src/instructions/register_session_key.rs:194-256 | Wherever the count of its vault is right: an accepted list is the complete sibling set if and only if it names no cleared account. |
| `SessionCount.ClearedAccountMiscounts` | programs/dexter-vault/src/instructions/register_session_key.rs:214-298 | A successful register that was handed a cleared account leaves live_session_count below the number of live sessions. |
| `Counterparty.DefaultSessionIsReached` | programs/dexter-vault/src/instructions/revoke_session_key.rs:114-127 | A run of six calls from the empty chain leads to a vault with one live session and the cleared account of a session registered for the default key. |
| `Counterparty.DefaultSessionHidesASibling` | programs/dexter-vault/src/instructions/register_session_key.rs:194-256 | After that run the cleared account stands in for the live one, so the condition on cleared accounts is needed. |
| `SessionCount.RegisterLeaves` | programs/dexter-vault/src/instructions/register_session_key.rs:214-318 | What a successful register on live accounts leaves: in the target the key, cap, expiry, counterparty, nonce and revolving capacity asked for, with spent, outstanding, crystallized and lock sequence 0; the expired siblings cleared, every other account untouched, the count re-synced to the unexpired siblings plus the target. |
| `SessionCount.RegisterMovesLiveSet` | programs/dexter-vault/src/instructions/register_session_key.rs:281-318 | Afterwards the vault's live sessions are the unexpired siblings and the target. |
| `SessionCount.RegisterCapSum` | programs/dexter-vault/src/instructions/register_session_key.rs:207-263 | Their caps add up to what the gate compared with the balance. |
| `SessionCount.RegisterLeavesNoOvercommit` | programs/dexter-vault/src/instructions/register_session_key.rs:206-267 | Right after a register every session marked live is unexpired and all their caps plus the locked amount are within the live balance. |
| `SessionCount.RegisterKeepsPlacedOk` | programs/dexter-vault/src/instructions/register_session_key.rs:214-318 | Whatever list a register is handed: every session account stays where it was derived, and no other vault's live sessions or count change. |
| `SessionCount.SeedsNameTheVault` | programs/dexter-vault/src/state.rs:140-158 | A live session account reached through its seeds belongs to that vault and stores that counterparty. |
| `SessionCount.RevokeKeepsCount` | programs/dexter-vault/src/instructions/revoke_session_key.rs:73-141 | Revoke clears without closing, and a count that was right, of its own vault or of another, still is. |
| `SessionCount.RevokeNeverUnderflows` | programs/dexter-vault/src/instructions/revoke_session_key.rs:129-138 | The checked decrement in revoke cannot fail. |
| `SessionCount.CloseKeepsCount` | programs/dexter-vault/src/instructions/close_session.rs:75-104 | Closing a cleared session leaves a count that was right, of its own vault or of another, right. |
| `SessionCount.UpgradeCounts` | programs/dexter-vault/src/instructions/migrate_v5_to_v6.rs:282-329 | A vault that leaves V5 counts exactly what it brings: its live inline session, now an account, or nothing. Every other count that was right still is. |
| `SessionCount.RunKeepsPlacedOk` | programs/dexter-vault/src/state.rs:140-158 | Over every run whatsoever every session account sits at its canonical address, with an existing vault, and a vault before V6 has no live session account and counts none. |
| `SessionCount.RunKeepsCount` | programs/dexter-vault/src/state.rs:64-69 | For one vault, from every state whose accounts are in place and whose count of that vault is right, over every run in which no successful register on that vault names a cleared account: its live_session_count is the number of its session accounts with version != 0, through first touch, replace, sweep, revoke, close, re-create and both migrations, and whatever is registered on other vaults. |
| `SessionCount.CountRightIffOnlyLive` | programs/dexter-vault/src/state.rs:64-69 | Exactly when, with a clock that is not negative: one vault's count is right throughout a run if and only if no successful register on that vault names a cleared account. |
| `SessionCount.NoSessionsNoCounts` | programs/dexter-vault/src/instructions/initialize_vault.rs:42-80 | Vaults of any version without session accounts are such a start exactly when none of them counts any. |
| `Counterparty.NamedRunsPassLive` | programs/dexter-vault/src/instructions/register_session_key.rs:194-205 | The corollary a vault's owner can check by names: while every registration on the vault, and the session it migrates, name a counterparty other than the default key, no register on it is ever handed a cleared account and its count is right in every run. |
| `State.SessionAddressInjective` | programs/dexter-vault/src/state.rs:140-142 | A session address determines its vault and its counterparty: one tab per (vault, counterparty). |
| `ClaimLedger.LockMoves` | programs/dexter-vault/src/instructions/lock_voucher.rs:234-295 | A lock adds one new claim, pending, of the rise over crystallized_cumulative and with the deadlines asked for, moves no money, and the three odometers are still the sums over the claims. |
| `ClaimLedger.SettleLockedMoves` | programs/dexter-vault/src/instructions/settle_locked_voucher.rs:98-115 | A pending claim becomes Settled now and nothing else about it changes; exactly its amount leaves the outstanding total, and the odometers are still the sums. |
| `ClaimLedger.RecoverMoves` | programs/dexter-vault/src/instructions/recover_abandoned_lock.rs:57-91 | A pending claim becomes Abandoned now and nothing else about it changes; exactly its amount leaves the outstanding total. |
| `ClaimLedger.TransferMoves` | programs/dexter-vault/src/instructions/transfer_lock_ownership.rs:42-49 | A transfer, by the holder of a pending claim, moves the holder and nothing else anywhere. |
| `ClaimLedger.PendingIsReserved` | programs/dexter-vault/src/instructions/settle_locked_voucher.rs:102-110 | The amount of a pending claim is part of outstanding_locked_amount, so settle and recover never saturate. |
| `ClaimLedger.RunKeepsClaimsOk` | programs/dexter-vault/src/state.rs:70-79 | From every state where it holds, and so from the empty chain, over every run: outstanding_locked_amount is the sum of the pending claims, total_settled_amount and total_crystallized_amount are the sums over settled and over all claims capped at u64::MAX, every claim is at its derived address, exactly the matching timestamp is set, settlement is not before maturity, and a recovery is not before its deadline and, with both deadlines, strictly after maturity. |
| `ClaimLedger.RunEvolves` | programs/dexter-vault/src/state.rs:161-165 | Over any run the terms of a claim never change, and once it has left Pending nothing about it does. |
| `ClaimLedger.VoucherLocksOnce` | programs/dexter-vault/src/instructions/lock_voucher.rs:51-117 | A voucher that has a claim can never be locked again, whatever happened to the claim. |
| `State.ClaimAddressInjective` | programs/dexter-vault/src/instructions/lock_voucher.rs:91-99 | A claim address determines its vault and its voucher hash: one claim per voucher. |
| `Epoch.RunIsAccounted` | programs/dexter-vault/src/instructions/lock_voucher.rs:190-269 | From every start without session accounts, over every run and for every session, since its last registration or migration: the accepted cumulative amounts, whichever path took them, strictly increase up to max(spent, crystallized_cumulative) <= max_amount; the wallet paid exactly `spent` along the tab path; the claims created add up to exactly crystallized_cumulative; the revolving meter is what the tabs opened added, less what each settlement paid and each lock claimed, every such release stopping at zero, and is within its capacity. |
| `CreditLedger.OpenMoves` | programs/dexter-vault/src/instructions/open_standby.rs:74-165 | Opening or resizing a standby sets backer and cap and nothing else of the vault, moves the aggregate by exactly the change of the cap and stays within the reserve; the subtraction of a resize down is exact. |
| `CreditLedger.CloseMoves` | programs/dexter-vault/src/instructions/close_standby.rs:130-154 | Closing needs nothing borrowed, clears backer and cap and nothing else of the vault, and takes exactly the cap out of the aggregate. |
| `CreditLedger.ReserveKeepsCreditOk` | programs/dexter-vault/src/instructions/set_standby_reserve.rs:67-105 | Setting a reserve, also for the first time, keeps every aggregate the sum of its promises and within the reserve. |
| `CreditLedger.CapIsPromised` | programs/dexter-vault/src/instructions/close_standby.rs:145-151 | A vault's cap is part of its financier's aggregate, so the saturating subtractions never saturate. |
| `CreditLedger.RunKeepsCreditOk` | programs/dexter-vault/src/state.rs:226-244 | From every state where it holds, vaults before V6 included, over every run: aggregate_promised of each financier is the sum of standby_cap over the vaults it backs and at most committed_reserve; borrowed <= standby_cap; no backer means no cap; borrowed > 0 means a deadline is armed. |
| `CreditLedger.LentWithinReserve` | programs/dexter-vault/src/state.rs:236-241 | Hence the total borrowed against a financier never exceeds its reserve. |
| `CreditLedger.RunConservesCredit` | programs/dexter-vault/src/instructions/draw_credit.rs:122-147 | From every start, over every run: what a vault owed before plus what left financier wallets for it is what left its wallet in repayments and seizures plus what it still owes. |
| `Deadline.RunKeepsDeadline` | programs/dexter-vault/src/instructions/repay_credit.rs:100-118 | While a loan stays open its deadline is armed and never changes. |
| `Deadline.SeizedAfterDeadline` | programs/dexter-vault/src/instructions/seize_collateral.rs:114-142 | So a seizure happens no earlier than the deadline the loan held at any earlier point since it was opened. |
| `Deadline.TightIffNoEmptyDraw` | programs/dexter-vault/src/state.rs:91-93 | Per vault and from every state where it holds: a deadline is armed exactly while something is owed, throughout a run, if and only if no draw of 0 succeeds on the vault while it owes nothing. |
| `Deadline.LoanKeepsItsWindow` | programs/dexter-vault/src/instructions/draw_credit.rs:129-147 | On such a run the deadline of a loan is the clock at the draw that opened it plus that draw's window, as long as the loan is open. |
| `Deadline.SeizedAfterItsWindow` | programs/dexter-vault/src/instructions/seize_collateral.rs:114-142 | On such a run a loan opened by a draw at clock t with window w is seized no earlier than t + w. |
| `Deadline.EmptyDrawSpendsTheWindow` | programs/dexter-vault/src/instructions/draw_credit.rs:129-147 | A run of eight calls from the empty chain: a draw of 0 with window 0 arms the deadline, a draw of 10 with a window of an hour inherits it, and the loan can be seized in the same second. |
| `Solvency.RunStaysSolvent` | programs/dexter-vault/src/instructions/register_session_key.rs:258-267 | From any point where a vault is solvent on a wallet of its own, over every run in which no register on that vault names a cleared account and every call that succeeds uses one terminal path per epoch, no credit on that vault or wallet, binds no second vault to the wallet, migrates no session in beyond what is free, and finalizes only when none of its sessions is unexpired, outstanding_locked_amount plus the remaining room of all unexpired sessions never exceeds the balance; what is registered on other vaults does not matter. |
| `Solvency.OtherRegisterStaysSolvent` | programs/dexter-vault/src/instructions/register_session_key.rs:214-318 | A register on another vault, with whatever list, leaves this one solvent. |
| `Solvency.BeginsIffNothingCounted` | programs/dexter-vault/src/instructions/initialize_vault.rs:42-80 | A start of these runs: any state without session accounts whose claims and inline sessions are in order is one exactly when no vault counts a session. |
| `Solvency.GenesisBegins` | programs/dexter-vault/src/instructions/initialize_vault.rs:42-80 | The empty chain is one. |
| `Solvency.SettleTabSlack` | programs/dexter-vault/src/instructions/settle_tab_voucher.rs:195-237 | A tab settlement costs the vault exactly max(spent, crystallized_cumulative) - spent of its free balance. |
| `Solvency.LockSlack` | programs/dexter-vault/src/instructions/lock_voucher.rs:195-279 | A lock costs it exactly max(spent, crystallized_cumulative) - crystallized_cumulative. |
| `Solvency.SolventIffAffordable` | programs/dexter-vault/src/instructions/lock_voucher.rs:234-252 | Exactly when a migration, voucher, claim, credit or withdrawal step leaves the vault solvent: if and only if the step's cost is within the free balance. |
| `Solvency.SettleTabIsCovered` | programs/dexter-vault/src/instructions/settle_tab_voucher.rs:223-237 | On a solvent vault a tab settlement along its own path never meets an insufficient balance. |
| `Solvency.LockNeverOvercommits` | programs/dexter-vault/src/instructions/lock_voucher.rs:243-252 | On a solvent vault lock's over-commit check never fires along the lock path. |
| `Solvency.SettleLockedIsCovered` | programs/dexter-vault/src/instructions/settle_locked_voucher.rs:86-118 | On a solvent vault the transfer that settles a claim is always covered. |
| `Solvency.RegisterStaysSolvent` | programs/dexter-vault/src/instructions/register_session_key.rs:258-267 | A successful register makes its vault solvent. |
| `Solvency.IdleIsSolvent` | programs/dexter-vault/src/instructions/initialize_vault.rs:42-80 | A vault with nothing locked and no live session is solvent, so runs can start there. |
| `Insolvency.AfterTabsIsReached` | programs/dexter-vault/src/instructions/settle_tab_voucher.rs:223-237 | A run of five calls from the empty chain leads to a vault holding 1 whose session, capped at 5, has had 4 settled along the tab path. |
| `Insolvency.MixedPathsOvercommit` | programs/dexter-vault/src/instructions/lock_voucher.rs:234-252 | After that run the vault is solvent, and a lock of the remaining 1, measured from crystallized_cumulative alone, meets the over-commit check: the one-path condition is needed. |
| `Insolvency.MixedPathsEndInsolvent` | programs/dexter-vault/src/instructions/lock_voucher.rs:234-252 | A run of eight calls from the empty chain, every one of them accepted: one session has 4 settled and is then locked up to its cap of 5, another has 5 settled, and the vault is 4 short; settling the claim of 5 ends in an insufficient balance. |
| `Insolvency.RepaymentEndsInsolvent` | programs/dexter-vault/src/instructions/repay_credit.rs:106-127 | A run from the empty chain that opens a session with a cap of 5 and then repays 5 of credit out of the same wallet ends 5 short. |
| `Insolvency.WithdrawalEndsInsolvent` | programs/dexter-vault/src/instructions/finalize_withdrawal.rs:78-128 | A run from the empty chain that opens a session with a cap of 5 and then withdraws the 5 there are ends 5 short: finalize looks at the claims and the loan, not at the sessions. |
| `Withdrawal.RunStaysStamped` | programs/dexter-vault/src/instructions/request_withdrawal.rs:35-59 | In every run a pending request carries a signing time within 300 seconds, on either side, of the clock at which it was made, or is the one that was there at the start. |
| `Withdrawal.FinalizeWaits` | programs/dexter-vault/src/instructions/finalize_withdrawal.rs:78-128 | In every run a withdrawal requested in it is finalized no earlier than the request plus the cooling-off less 300 seconds, and one that was pending at the start no earlier than its own timestamp plus the cooling-off, unless the cooling-off is 0; the balance left after any finalize covers the locked claims and the open loan. |
| `Withdrawal.ForceReleaseWaits` | programs/dexter-vault/src/instructions/force_release.rs:56-96 | In every run a voucher is force-released no earlier than seven days less 300 seconds after a request made in the run, or seven days after the timestamp of one that was pending at the start. |
| `Withdrawal.FinalizeIff` | programs/dexter-vault/src/instructions/finalize_withdrawal.rs:61-128 | Exactly when a withdrawal is finalized: one is requested, no voucher is pending, the vault has a wallet and a known version, the cooling-off is over, what is left covers claims and loan, and the passkey signed. |
| `Tabs.RunCountsTabs` | programs/dexter-vault/src/instructions/settle_voucher.rs:48-82 | In every run pending_voucher_count is the tabs opened on the vault, the count stopping at u32::MAX, less the releases and the settlements, which stop at zero. |
| `Tabs.FinalizesWithNoTabOpen` | programs/dexter-vault/src/instructions/finalize_withdrawal.rs:87-90 | So in every run a withdrawal is finalized exactly when, besides the rest, the history leaves no tab waiting for its settlement or release. |
| `Bank.Bank.constructor` | programs/dexter-vault/src/instructions/initialize_vault.rs:5-28 | A store may begin with vaults of any version that have no session accounts yet, and is in order from then on. |
| `Bank.Bank.Execute` | programs/dexter-vault/src/instructions/register_session_key.rs:236-256 | One transaction, whichever instruction it is: the error specified with every account as found, or exactly the accounts specified. The store is always what its history makes of its start, its claim and credit ledgers are in order, its session accounts are in place, and the count of each vault is right as long as no register on that vault was handed a cleared account. |
| `Bank.Bank.InitializeVault` | programs/dexter-vault/src/instructions/initialize_vault.rs:42-80 | Accepted exactly for a vacant address and a compressed key prefix; the new vault has no live session and is solvent from its first moment. |
| `Bank.Bank.SetSwig` | programs/dexter-vault/src/instructions/set_swig.rs:26-54 | A vault is bound to a wallet once. |
| `Bank.Bank.ScanSiblings` | programs/dexter-vault/src/instructions/register_session_key.rs:173-245 | The in-place loop computes what the recursive scan does, with its errors, and on success leaves exactly the expired siblings cleared and the counters and sum right. |
| `Bank.Bank.RegisterSessionKey` | programs/dexter-vault/src/instructions/register_session_key.rs:125-321 | On success the target holds the scope asked for, field by field, with nothing used of it. Handed no cleared account, on a vault that never was, it succeeds exactly on the complete sibling list within the balance, and then every live session is unexpired and all caps plus the locked amount are within the balance. No other vault's live sessions change, whatever the list. |
| `Bank.Bank.RevokeSessionKey` | programs/dexter-vault/src/instructions/revoke_session_key.rs:73-141 | Exactly the named session leaves the live set; on a vault whose registers were handed no cleared account the count is the size of what remains and the decrement cannot fail. |
| `Bank.Bank.CloseSession` | programs/dexter-vault/src/instructions/close_session.rs:91-112 | Only a session that is not live is removed, and the live set of no vault changes. |
| `Bank.Bank.MigrateV5ToV6` | programs/dexter-vault/src/instructions/migrate_v5_to_v6.rs:119-154 | The vault leaves V5 with count 0 and has no live session account. |
| `Bank.Bank.MigrateV5ToV6WithSession` | programs/dexter-vault/src/instructions/migrate_v5_to_v6.rs:282-329 | The unexpired inline session becomes, unchanged, the only live session account of the vault, and the count is 1. |
| `Bank.Bank.SettleVoucher` | programs/dexter-vault/src/instructions/settle_voucher.rs:41-86 | Opening a tab raises the meter by exactly the amount, never above its capacity, and nothing else of the session, and the pending count by one unless it is full; releasing one touches no session. |
| `Bank.Bank.SettleTabVoucher` | programs/dexter-vault/src/instructions/settle_tab_voucher.rs:155-251 | The vault's wallet, and no other, pays exactly the rise of `spent`; the frontier rises strictly to the voucher and stays within the cap; the meter falls by what was paid and the pending count by one, both as far as zero; nothing else of the session moves. |
| `Bank.Bank.LockVoucher` | programs/dexter-vault/src/instructions/lock_voucher.rs:150-298 | One new pending claim of exactly the rise of crystallized_cumulative; the frontier rises strictly to the voucher; the reserved amount is the sum of the pending claims and within the balance. |
| `Bank.Bank.SettleLockedVoucher` | programs/dexter-vault/src/instructions/settle_locked_voucher.rs:36-119 | Only a pending, mature claim settles; the wallet pays exactly its amount and exactly that leaves the reservation, without saturating. |
| `Bank.Bank.RecoverAbandonedLock` | programs/dexter-vault/src/instructions/recover_abandoned_lock.rs:19-95 | Only a pending claim past its recovery time, and with both deadlines strictly past maturity, is recovered; exactly its amount leaves the reservation. |
| `Bank.Bank.TransferLockOwnership` | programs/dexter-vault/src/instructions/transfer_lock_ownership.rs:18-50 | Succeeds exactly for the holder of a pending claim; only the holder changes and the ledger stays in order. |
| `Bank.Bank.SetStandbyReserve` | programs/dexter-vault/src/instructions/set_standby_reserve.rs:67-105 | The reserve is never set below the sum of what the financier has promised over all vaults. |
| `Bank.Bank.OpenStandby` | programs/dexter-vault/src/instructions/open_standby.rs:74-165 | The aggregate is still the sum of all caps promised, within the reserve, and the new cap covers what is borrowed. |
| `Bank.Bank.CloseStandby` | programs/dexter-vault/src/instructions/close_standby.rs:130-211 | Nothing is borrowed; exactly the cap leaves the aggregate of the backer that was recorded, which is still the sum of the caps that remain. |
| `Bank.Bank.DrawCredit` | programs/dexter-vault/src/instructions/draw_credit.rs:99-155 | The financier pays exactly the draw; what all vaults owe it is within its reserve; the deadline is the clock plus the window, unless one was armed, which does not move. |
| `Bank.Bank.RepayCredit` | programs/dexter-vault/src/instructions/repay_credit.rs:93-127 | The debt falls by exactly what the wallet pays, the lesser of the amount and the debt, and the deadline goes with the last of it. |
| `Bank.Bank.SeizeCollateral` | programs/dexter-vault/src/instructions/seize_collateral.rs:105-152 | Only an open loan past its deadline is seized, and the wallet pays exactly what was owed. |
| `Bank.Bank.RequestWithdrawal` | programs/dexter-vault/src/instructions/request_withdrawal.rs:28-62 | The signing time is within 300 seconds of the clock on either side, also where the source falls back on overflow. |
| `Bank.Bank.FinalizeWithdrawal` | programs/dexter-vault/src/instructions/finalize_withdrawal.rs:61-146 | Accepted exactly when the store's history leaves no tab open and the rest is met; then the wallet pays exactly what was requested, what is left covers the locked claims and the loan, a cooling-off that is not 0 has passed since the timestamp, and the store's own history puts the request at least the cooling-off less 300 seconds before. |
| `Bank.Bank.ForceRelease` | programs/dexter-vault/src/instructions/force_release.rs:56-96 | One pending voucher is released, seven days after the timestamp of the request, and the store's own history puts the request at least seven days less 300 seconds before. |
| `Borsh.U64RoundTrip` | programs/dexter-vault/src/state.rs:96-101 | Reading a little-endian u64 back gives it and leaves what followed. |
| `Borsh.I64RoundTrip` | programs/dexter-vault/src/state.rs:96-101 | The same for a two's complement i64. |
| `Layouts.HeadRoundTrip` | programs/dexter-vault/src/instructions/migrate_v5_to_v6.rs:76-87 | The fields every generation starts with, the only variable one among them the pending withdrawal, read back. |
| `Layouts.HeadReadBack` | programs/dexter-vault/src/instructions/migrate_v5_to_v6.rs:76-87 | Whatever decodes as a head is the encoding of that head followed by the rest. |
| `Layouts.SessionRoundTrip` | programs/dexter-vault/src/state.rs:115-138 | A session registration reads back. |
| `Layouts.PutV4` | programs/dexter-vault/src/instructions/migrate_v3_to_v4.rs:180-195 | An encoding never exceeds 8 + INIT_SPACE = 341. |
| `Layouts.PutV5` | programs/dexter-vault/src/instructions/migrate_v4_to_v5.rs:154-173 | An encoding never exceeds 399. |
| `Layouts.PutV6` | programs/dexter-vault/src/instructions/migrate_v5_to_v6.rs:169-180 | An encoding never exceeds 279, and fills it if and only if all three options are present. |
| `Layouts.V3RoundTrip` | programs/dexter-vault/src/instructions/migrate_v3_to_v4.rs:126-159 | Decoding an encoded V3 vault gives it back, whatever follows. |
| `Layouts.V4RoundTrip` | programs/dexter-vault/src/instructions/migrate_v4_to_v5.rs:117-136 | The same for V4. |
| `Layouts.V5RoundTrip` | programs/dexter-vault/src/instructions/migrate_v5_to_v6.rs:75-98 | The same for V5. |
| `Layouts.V6RoundTrip` | programs/dexter-vault/src/state.rs:40-94 | The same for V6. |
| `Layouts.V6ReadBack` | programs/dexter-vault/src/state.rs:40-94 | Bytes that decode as V6 are the encoding of that vault followed by what was left unread. |
| `Offsets.LittleEndian` | programs/dexter-vault/src/state.rs:96-101 | Byte i of a stored number is its base-256 digit of weight i. |
| `Offsets.HeadOffsets` | scripts/migrate-fleet.ts:51-63 | In the account, discriminator included, the head's fields stand at 8, 9, 10, 43, 75, 79 and 83, and then identity and authority. |
| `Offsets.WithdrawalOffsets` | programs/dexter-vault/src/state.rs:96-101 | The pending withdrawal is amount, destination and signing time in 48 bytes. |
| `Offsets.SessionOffsets` | programs/dexter-vault/src/state.rs:115-138 | The ten session fields stand at 0, 32, 40, 48, 80, 84, 92, 100, 108 and 116. |
| `Offsets.ShorterSessions` | scripts/migrate-fleet.ts:65-69 | What V2 and V3 hold of a session are its first 92 and 108 bytes. |
| `Offsets.OdometersOffsets` | programs/dexter-vault/src/instructions/migrate_v3_to_v4.rs:180-195 | Outstanding, crystallized and settled, in this order. |
| `Offsets.CreditOffsets` | programs/dexter-vault/src/instructions/migrate_v4_to_v5.rs:154-173 | Borrowed, backer, cap and deadline, in this order, the two options behind their tags. |
| `Offsets.GroupsInOrder` | programs/dexter-vault/src/instructions/migrate_v5_to_v6.rs:75-98 | V4 is head, session, odometers; V5 appends the credit; V6 has its count where the session was. |
| `Offsets.LegacyOffsets` | programs/dexter-vault/src/instructions/migrate_legacy_to_v6.rs:17-26 | The legacy fields stand at 0, 1, 34, 66, 74 and 78, then the user id and the authority if there is one. |
| `MigrationChain.ReadsBackV4` | programs/dexter-vault/src/instructions/migrate_v3_to_v4.rs:264-295 | The V4 encoding written over any buffer decodes to the vault written, whatever stale bytes follow. |
| `MigrationChain.ReadsBackV5` | programs/dexter-vault/src/instructions/migrate_v4_to_v5.rs:234-265 | The same for V5. |
| `MigrationChain.ReadsBackV6` | programs/dexter-vault/src/instructions/migrate_v5_to_v6.rs:162-186 | The zero-padded, shrunk V6 image decodes to the vault written. |
| `MigrationChain.HopToV3` | programs/dexter-vault/src/instructions/migrate_v2_to_v3.rs:96-183 | On every buffer: it is stamped 3 if and only if its prefix decodes and the recorded authority signs, grows only below 279 bytes, and what the V3 reader then makes of a V2 vault is exact: a session takes the sixteen bytes behind it for its two meters, or cannot be read when there are fewer. |
| `MigrationChain.V2SurvivesIff` | programs/dexter-vault/src/instructions/migrate_v2_to_v3.rs:35-47 | Exactly when the first hop preserves a V2 vault, with both meters 0: if and only if it carries no session or sixteen zero bytes follow it. |
| `MigrationChain.FullV2IsStranded` | programs/dexter-vault/src/instructions/migrate_v2_to_v3.rs:144-180 | A V2 account of 289 bytes with a pending withdrawal and a session passes the first hop and fails the second in Borsh, whoever signs. |
| `MigrationChain.FullV2Exists` | programs/dexter-vault/src/instructions/migrate_v2_to_v3.rs:96-183 | There is such an account. |
| `MigrationChain.HopToV4` | programs/dexter-vault/src/instructions/migrate_v3_to_v4.rs:197-298 | On every buffer: it is migrated if and only if it decodes as V3 and its recorded authority signs; it becomes max(size, 341) bytes and decodes to a V4 vault with every head field kept under stamp 4, a session if and only if there was one, the same eight fields with nothing locked, and zero odometers; the bytes behind the encoding are the old ones. |
| `MigrationChain.HopToV5` | programs/dexter-vault/src/instructions/migrate_v4_to_v5.rs:175-268 | On every buffer: what does not decode or is not signed by the recorded authority is refused; otherwise max(size, 399) bytes that decode to head, session and odometers as they were, under stamp 5, with nothing borrowed and no standby. |
| `MigrationChain.HopToV6` | programs/dexter-vault/src/instructions/migrate_v5_to_v6.rs:100-204 | On every buffer and with every error named: a live session is refused, an expired one dropped, a buffer shorter than 279 bytes refused; otherwise 279 bytes, zero behind the encoding, that decode to head, odometers and credit as they were, under stamp 6, and count 0. |
| `MigrationChain.HopToV6WithSession` | programs/dexter-vault/src/instructions/migrate_v5_to_v6.rs:257-365 | The with-session hop, on every buffer and with every error named: no session, an expired one and the wrong counterparty are each refused with their own error; otherwise the session is carried out verbatim and count 1 is left. |
| `MigrationChain.RefusedBytes` | programs/dexter-vault/src/instructions/migrate_v5_to_v6.rs:100-117 | The error of bytes a hop cannot read: UnsupportedVaultVersion when they are shorter than 9, not a vault or of another version, Borsh's own otherwise. |
| `MigrationChain.Finishing` | programs/dexter-vault/src/instructions/migrate_v5_to_v6.rs:125-132 | For every V5 account and clock exactly one of the two hops accepts it, with the result above. |
| `MigrationChain.WalkFromV4` | programs/dexter-vault/src/instructions/migrate_v4_to_v5.rs:175-268 | Every V4 vault in an account of at most 399 bytes, the stale-stamp cohort in a V5 shell included, reaches V5 and then V6 with every field kept. |
| `MigrationChain.ChainPreservesMeaning` | programs/dexter-vault/src/instructions/migrate_v3_to_v4.rs:197-298 | V3 -> V4 -> V5 -> V6 on every V3 account, any mix of options and any slack, field by field: sizes 341, 399 and 279; every head field arrives; a live session leaves in the session carried out, its eight fields as they were, and is counted, any other is dropped; odometers and credit are neutral. |
| `MigrationChain.V3AccountsDecode` | programs/dexter-vault/src/instructions/migrate_v3_to_v4.rs:39-50 | Every V3 vault fits in 305 bytes and decodes from them whatever bytes follow. |
| `MigrationChain.OverlapReadsAsV4` | scripts/migrate-fleet.ts:675-679 | 279 bytes of V6 shape stamped 4 decode as V4 if and only if live_session_count is 0, and then to the same head and odometers without a session. |
| `MigrationChain.RepairRestores` | scripts/migrate-fleet.ts:669-701 | Walking such an account V4 -> V5 -> V6 gives 279 bytes that decode to the same head and odometers under stamp 6, count 0 and neutral credit. |
| `Legacy.LegacyRoundTrip` | programs/dexter-vault/src/instructions/migrate_legacy_to_v6.rs:150-188 | An account of 151 or 183 bytes that holds an encoding of the matching layout decodes to it. |
| `Legacy.LegacyNeverOverruns` | programs/dexter-vault/src/instructions/migrate_legacy_to_v6.rs:144-168 | Every buffer of 151 or 183 bytes with the discriminator decodes if and only if its option tag is 0 or 1, and otherwise fails in Borsh: no read passes the end. |
| `Legacy.NotLegacy` | programs/dexter-vault/src/instructions/migrate_legacy_to_v6.rs:150-158 | An account of another length or without the discriminator, and only such a one, is NotALegacyVault, and whatever does not decode is refused with the decoder's error. |
| `Legacy.LegacyMigrates` | programs/dexter-vault/src/instructions/migrate_legacy_to_v6.rs:210-311 | Exactly the stored authority, or the fixed administrator where none is stored, can migrate; the result is 279 bytes, zero behind the encoding, that decode field by field to the legacy bump, passkey, swig, pending count and pending withdrawal, the cooling-off brought into u32, the user id extended with zeros, the signer as authority, and nothing of a later era in use. |
| `VaultAccount.VaultAccount.MigrateV2ToV3` | programs/dexter-vault/src/instructions/migrate_v2_to_v3.rs:96-183 | The handler on the buffer, resized only when too small and then stamped, leaves the bytes the lemmas above are about, or an error and the old bytes. |
| `VaultAccount.VaultAccount.MigrateV3ToV4` | programs/dexter-vault/src/instructions/migrate_v3_to_v4.rs:197-298 | The same for V3 -> V4, which overwrites the account. |
| `VaultAccount.VaultAccount.MigrateV4ToV5` | programs/dexter-vault/src/instructions/migrate_v4_to_v5.rs:175-268 | The same for V4 -> V5. |
| `VaultAccount.VaultAccount.WriteV6` | programs/dexter-vault/src/instructions/migrate_v5_to_v6.rs:162-186 | Encode, pad, copy, shrink: the whole account is the padded image, or is untouched when it was smaller than 279 bytes. |
| `VaultAccount.VaultAccount.MigrateV5ToV6` | programs/dexter-vault/src/instructions/migrate_v5_to_v6.rs:100-204 | The same for the plain V5 -> V6 hop. |
| `VaultAccount.VaultAccount.MigrateV5ToV6WithSession` | programs/dexter-vault/src/instructions/migrate_v5_to_v6.rs:257-365 | The same for the with-session hop, which also creates the session account, and neither on an error. |
| `VaultAccount.VaultAccount.MigrateLegacyToV6` | programs/dexter-vault/src/instructions/migrate_legacy_to_v6.rs:247-311 | The same for the legacy migration. |
| `Fleet.PrefixAgrees` | scripts/migrate-fleet.ts:258-283 | On every buffer: Borsh reads the head if and only if the script finds a good option tag and the whole authority is there, and then the hand-computed offsets give the same version, option, authority and position after it. |
| `Fleet.ReadersAgree` | scripts/migrate-fleet.ts:258-301 | For every well-formed V2 to V6 account readPrefix returns the recorded authority, for V2 to V5 readActiveSession returns the session's expiry and counterparty or its absence, and for V6 the next byte is the session count. |
| `Fleet.ChosenHopIsTheAcceptedOne` | scripts/migrate-fleet.ts:912-931 | With equal clocks the V5 -> V6 instruction the script picks is accepted and the other one is refused. |
| `Fleet.ShortV4HasNoSession` | scripts/migrate-fleet.ts:896-908 | V6-sized bytes that decode as V4 pass the script's check of the count byte. |
| `Fleet.LastHop` | scripts/migrate-fleet.ts:912-931 | The last hop of the walk: it lands if and only if the script's clock, which chose the instruction, and the chain's agree on whether the session is live, and otherwise leaves everything as it was. |
| `Fleet.Hop` | scripts/migrate-fleet.ts:910-939 | One turn of the walk raises the version by one and leaves an account that means the same V5 vault, field by field. |
| `Fleet.MeansOneVault` | scripts/migrate-fleet.ts:358-385 | Every account the script admits means exactly one V5 vault: the field-by-field relation is total and single-valued. |
| `Fleet.Walk` | scripts/migrate-fleet.ts:885-939 | The loop terminates; from every account of V2 to V5 the script admits, with the recorded authority signing and, for V2, the bytes behind the session zero, it ends with a V6 account of the same meaning and its live session, if any, in an account of its own, if and only if the two clocks agree on the session when the last hop lands; otherwise it stops on the way with the meaning intact. A V6 account, one of no known version, and a 279-byte one under another stamp that was not asked for are left untouched. |
| `Fleet.LandedHopIsRefused` | scripts/migrate-fleet.ts:941-1000 | Any hop sent again after it has landed is refused, so a lost confirmation is told from a failure by the version alone. |
| `Fleet.ArrivedCountsItsSessions` | programs/dexter-vault/src/instructions/migrate_v5_to_v6.rs:297-321 | Where the walk of a vault without session accounts ends, live_session_count is the number of session accounts it created, each live and keyed by its counterparty. |
| `WebAuthn.ForeignFirst` | programs/dexter-vault/src/verify/webauthn.rs:210-219 | Decoding fails if and only if a character outside the alphabet precedes any padding character. |
| `WebAuthn.LettersAreTheTable` | programs/dexter-vault/src/verify/webauthn.rs:203-205 | The 64 letters are those of table 2 of RFC 4648, in its order. |
| `WebAuthn.DigitsAreTheLetters` | programs/dexter-vault/src/verify/webauthn.rs:210-219 | The decoder reads exactly those letters, each as its place in the table, and of the other characters only the equals sign is padding. |
| `WebAuthn.KeyIsItsText` | programs/dexter-vault/src/verify/webauthn.rs:176 | The key searched for is the text `"challenge":"`. |
| `WebAuthn.StreamEmits` | programs/dexter-vault/src/verify/webauthn.rs:220-225 | Once eight bits are there, the byte emitted is the pending bits and the new digit's leading bits, although the 32-bit buffer still holds stale higher bits. |
| `WebAuthn.Base64UrlDecode` | programs/dexter-vault/src/verify/webauthn.rs:206-228 | The loop returns the first floor(6n/8) bytes of the big-endian bit string of the n digits before any padding, or fails on a foreign character. |
| `WebAuthn.EncodingKeepsBits` | programs/dexter-vault/src/verify/webauthn.rs:203-205 | The base64url digits of section 5 of RFC 4648 carry the bits of the bytes, filled with zeros. |
| `WebAuthn.DecodeInvertsEncode` | programs/dexter-vault/src/verify/webauthn.rs:203-228 | For every byte string, decoding its base64url text, without padding or with anything from a padding character on, gives exactly that byte string. |
| `WebAuthn.ExtractChallenge` | programs/dexter-vault/src/verify/webauthn.rs:175-201 | The scanner decodes what lies between the first key and the first quote after it, and fails if and only if one of them is missing or the value does not decode; no index leaves the document. |
| `WebAuthn.ChallengeRecovered` | programs/dexter-vault/src/verify/webauthn.rs:164-201 | A document whose first key is followed by the base64url text of d, padded or not, and a quote yields exactly d. |
| `WebAuthn.ReadingsAgree` | programs/dexter-vault/src/verify/webauthn.rs:164-201 | Exactly when stopping at the first quote is what the comment says, stopping at the first unescaped one: the two readings give the same results on a document if and only if it does not have digits and then padding before an escaped first quote and no unescaped quote after the key. |
| `WebAuthn.PaddedEscapedQuote` | programs/dexter-vault/src/verify/webauthn.rs:188-200 | Such a document: the key, a padding character, a backslash and a quote, where the code yields the empty challenge and the other reading refuses. |

## Left out

- Signature and precompile introspection (verify/ed25519.rs, the rest of verify/webauthn.rs), sha256 and the instruction
  sysvar: foreign cryptography and runtime, boolean inputs here.
- swig_compat.rs and set_swig_atomic.rs: byte building and calls into a library that is not part of the repository;
  set_swig is modelled as the one-time binding of a vault to its wallet.
- Fleet.Walk: does not model the three attempts at one transaction, a failed one of which changes no account and a
  repeated one of which is refused (`Fleet.LandedHopIsRefused`), nor what becomes of a V2 session followed by bytes that
  are not zero, beyond `MigrationChain.HopToV3`.
- prove_passkey.rs, rotate_passkey.rs, rotate_dexter_authority.rs: they change no field the invariants speak of.
- Rent, lamports and compute units; account validation beyond existence, seeds, owner keys and discriminator.
- The bump, passkey and identity fields of vaults and the bumps and version of claims in the step relation; they are in
  the byte layouts.
- The check that a token account belongs to the vault's wallet, and the canonical derivation of a wallet from its swig.
- Bank.Bank.FinalizeWithdrawal: does not credit the destination; transfers leave the modelled wallets, and money comes
  in through deposits.
- CreditLedger.RunKeepsCreditOk: does not model reserve_kind, which is always Declared.
- VaultAccount.VaultAccount.MigrateV5ToV6WithSession: keys are 32 bytes here and opaque in the protocol, where the same
  hop is a step of the run; the hops from V3 to V5 are modelled on bytes only.
- Solvency.RunStaysSolvent: does not hold for runs that mix the two terminal paths in one epoch, use credit on the
  vault, or withdraw under unexpired sessions (`Insolvency.MixedPathsEndInsolvent`, `Insolvency.RepaymentEndsInsolvent`
  and `Insolvency.WithdrawalEndsInsolvent` are such runs); `Solvency.SolventIffAffordable` gives the exact condition of
  such a step.
- SessionCount.RunKeepsCount: does not hold of runs in which a successful register on the vault names a cleared account;
  `SessionCount.CountRightIffOnlyLive` is the exact condition.
- WebAuthn.PaddedEscapedQuote: does not say that the document passes the signature check, which is not modelled.
- Events, RPC, the journal, the reports and the command line of the script; everything under tests/ and migrations/.
