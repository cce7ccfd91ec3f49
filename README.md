# csprUSD token ledger in Dafny

A model of the csprUSD stablecoin contract for the Casper host. The contract
keeps balances and allowances, lets minters mint and burn against a
minting allowance set by a master minter, and lets a blacklister block
accounts. An owner hands out the pauser, master-minter and blacklister roles;
the pauser can stop the token-moving entry points.

The project has two layers:

- `Ledger` (ledger.dfy) states every entry point as a function from the stored
  state to `Success(new state)` or `Failure(error)`. The guards run in the
  source's order. A failure is a revert: the host rolls the call back.
- `Contract.Token` (contract.dfy) is the installed contract as an object. It
  has the named keys as fields and the dictionaries as map fields; the blacklist
  lives in a `Blacklisting.Blacklist` object and the minter dictionaries in a
  `Minters.MinterStore` object. Each entry point is a method that reads and
  writes them step by step, in the source's order. Each method is proved to
  commit exactly what its `Ledger` function describes. The balance-moving
  methods are also proved to keep the supply invariant.

Around these:

- `LedgerProperties` proves the check order, the exact effect and the error
  cases of each entry point, and what a pause, an unpause, a role hand-over or
  a blacklisting changes for the calls that follow.
- `Execution` runs sequences of calls. It proves that the total supply equals
  the sum of all balances in every state reachable from installation, and that
  under this invariant only `mint` can fail with `Overflow`.
- The smaller modules follow the source files: `Utils` and `AssertionUtils`
  (caller resolution and guards), `Minters`, `Blacklisting` and `Errors`.
  `Numbers` holds the 256-bit checked and saturating arithmetic.

Two contract versions share the state: `Ledger.Version` is `V1` (the first
version, tests/contract_versions/v1/v1_source.rs) or `Latest`
(csprusd/src/main.rs). They differ in one way: `V1` rejects zero-amount
`transfer` and `transfer_from` with `CannotTransferZeroAmount` (65017).

Parameters stand in for the host:

- The call stack is an argument of every entry point. `get_call_stack` is not
  part of this model.
- `PublicKey::to_account_hash` is the parameter `accountHash`.

Where the sources disagree, the model follows the code:

- tests/src/transfer.rs:412-477 expects the current version to reject zero
  amounts with 65017. csprusd/src/main.rs:336-400 has no such check, and
  csprusd/src/error.rs has no such variant. So `Latest` accepts zero-amount
  transfers (`LedgerProperties.ZeroTransfer`). `CannotTransferZeroAmount`
  exists only for `V1`, with the code the test constants give it.
- csprusd/src/main.rs:441 calls `update_minter_allowance`, which
  csprusd/src/minters.rs does not define. It is modelled as `set_minter_allowed`,
  the call the first version makes at that point.

`balances.rs` (the `transfer_balance` helper and the balance readers and
writers) and `allowances.rs` are not part of this model. `Ledger.TransferBalance`
stands in for the helper:

- it fails with `InsufficientBalance` when the sender holds less than `amount`
  (tests/src/transfer.rs:143-150);
- otherwise it moves exactly `amount` (tests/src/transfer.rs:62-71);
- it fails with `Overflow` when the recipient's balance would not fit. Neither
  the call sites nor the tests show this branch; it is an assumption about the
  unseen helper, recorded under "Left out".

The `Overflow` branch is proved unreachable while the supply invariant holds
(`LedgerProperties.TransferBalanceNeverOverflows`), so no other result depends
on it. Missing balances and
allowances read as 0.

## Model

| member | source | states |
|---|---|---|
| Numbers.CheckedAdd | csprusd/src/main.rs:430-436 | `checked_add` yields a value exactly when the sum fits in 256 bits, and that value is the sum |
| Numbers.CheckedSub | csprusd/src/main.rs:483-490 | `checked_sub` yields a value exactly when it would not go below 0, and that value plus the subtrahend is the minuend |
| Numbers.SaturatingAdd | csprusd/src/main.rs:325-326 | the result is at least each operand, and is either the exact sum or 2^256-1 on overflow |
| Numbers.SaturatingSub | csprusd/src/main.rs:298-299 | the result is at most the minuend, and is either the exact difference or 0 when the subtrahend is larger |
| Errors.Discriminant | csprusd/src/error.rs:13-68 | every error's code lies in the ledger range 60000-60017 or the access range 65000-65019; the enum also holds the first version's `CannotTransferZeroAmount`, 65017 (tests/src/utility/constants.rs:100) |
| Errors.DecodeDiscriminant | csprusd/src/error.rs:13-68 | decoding an error's discriminant gives back that error; the enum also holds the first version's `CannotTransferZeroAmount`, 65017 (tests/src/utility/constants.rs:100) |
| Errors.DiscriminantOfDecoded | csprusd/src/error.rs:13-68 | a code that decodes to an error is that error's discriminant; the enum also holds the first version's `CannotTransferZeroAmount`, 65017 (tests/src/utility/constants.rs:100) |
| Errors.DiscriminantsDistinct | csprusd/src/error.rs:13-68 | no two errors share a discriminant; the enum also holds the first version's `CannotTransferZeroAmount`, 65017 (tests/src/utility/constants.rs:100) |
| Errors.ExpectedCodes | tests/src/utility/constants.rs:22-32 | every error code the test constants declare has that value: 60000-60003, 65004, 65006, 65007, 65013, 65014, 65018 and 65019 (lines 22-32), 65000 and 65001 (lines 98-99), and 65017 for the first version's `CannotTransferZeroAmount` (line 100) |
| Errors.EntryPointCodes | csprusd/src/error.rs:35-63 | the codes of the errors the entry points raise that the test constants do not name: 60017 `CannotTargetSelfUser`, 65005 `NotMinter`, 65012 `CannotMintZeroAmount`, 65015 `CannotBurnZeroAmount`, 65016 `BurnExceedsBalance` |
| Errors.ToApiError | csprusd/src/error.rs:70-74 | the `ApiError::User` code of an error decodes back to that error, so distinct errors stay distinct |
| Utils.CallStackElementToAddress | csprusd/src/utils.rs:39-52 | session frames map to `Account` with their account hash; a contract frame maps to `Hash` with its package hash, and only it maps to `Hash` |
| Utils.Reverse | csprusd/src/utils.rs:61 | `rev()`: the same length, and index `i` holds the element at `|s| - 1 - i` |
| Utils.GetImmediateCallerAddress | csprusd/src/utils.rs:57-65 | fails with `InvalidContext` exactly when the stack has fewer than 2 frames; otherwise it yields the address of the second frame from the top |
| Utils.CallerDependsOnlyOnSecondFromTop | csprusd/src/utils.rs:57-65 | two stacks of length at least 2 that agree on the second frame from the top have the same caller |
| AssertionUtils.CallerIs | csprusd/src/assertion_utils.rs:16-64 | the comparison the role guards share: passes exactly when the caller is the given holder; otherwise fails with the role's error, or with `InvalidContext` when the stack has fewer than 2 frames |
| AssertionUtils.OnlyPauser | csprusd/src/assertion_utils.rs:16-23 | passes exactly when the caller is the stored pauser; otherwise it fails with `NotPauser`, or with `InvalidContext` when there is no caller |
| AssertionUtils.WhenNotPaused | csprusd/src/assertion_utils.rs:25-29 | fails exactly when the paused flag is set, and then with `ContractPaused` |
| AssertionUtils.OnlyOwner | csprusd/src/assertion_utils.rs:31-38 | passes exactly when the caller is the stored owner; otherwise it fails with `NotOwner`, or with `InvalidContext` |
| AssertionUtils.OnlyMinters | csprusd/src/assertion_utils.rs:40-44 | passes exactly when `is_minter_util` holds for the account; otherwise it fails with `NotMinter` |
| AssertionUtils.OnlyMasterMinter | csprusd/src/assertion_utils.rs:46-53 | passes exactly when the caller is the stored master minter; otherwise it fails with `NotMasterMinter`, or with `InvalidContext` |
| AssertionUtils.OnlyBlacklister | csprusd/src/assertion_utils.rs:55-64 | passes exactly when the caller is `Account` of the stored public key's account hash; otherwise it fails with `NotBlacklister`, or with `InvalidContext` |
| AssertionUtils.ContractCallerIsNeverBlacklister | csprusd/src/assertion_utils.rs:55-64 | a caller that is a contract (a `Hash` key) never passes the blacklister check |
| Minters.IsMinterUtil | csprusd/src/minters.rs:12-22 | true exactly when the key was written with `true`; false for a key never written |
| Minters.ReadMinterAllowed | csprusd/src/minters.rs:24-31 | the stored allowance, or 0 for a key never set |
| Minters.MinterStore.constructor | csprusd/src/main.rs:512-515 | the `minters` and `minter_allowed` dictionaries `init` creates start empty |
| Minters.MinterStore.SetMinterAllowed | csprusd/src/minters.rs:33-38 | reading the minter's allowance back gives the value set; other keys' allowances and all minter flags are unchanged |
| Minters.MinterStore.AddMinter | csprusd/src/minters.rs:40-45 | afterwards the key is a minter; other keys' flags and all allowances are unchanged |
| Minters.MinterStore.RemoveMinterUtil | csprusd/src/minters.rs:47-52 | afterwards the key is not a minter; its allowance entry and other keys' flags are untouched |
| Blacklisting.FirstIndexOf | csprusd/src/blacklisting.rs:30-32 | `position`: none exactly when the key is absent, otherwise an index holding the key with no earlier occurrence |
| Blacklisting.FirstIndexAt | csprusd/src/blacklisting.rs:30-32 | an index holding the key with no earlier occurrence is the one `position` returns |
| Blacklisting.SwapRemove | csprusd/src/blacklisting.rs:34 | `swap_remove`: one element shorter, every other index unchanged, and the last element moved into the freed index |
| Blacklisting.SwapRemoveMultiset | csprusd/src/blacklisting.rs:34 | `swap_remove` removes exactly one copy of the element at the index |
| Blacklisting.UnBlacklistAbsent | csprusd/src/blacklisting.rs:27-39 | un-blacklisting an absent key leaves the list unchanged |
| Blacklisting.UnBlacklistPresent | csprusd/src/blacklisting.rs:30-35 | un-blacklisting a present key shortens the list by one, removes exactly one copy of the key, and moves the last entry into the first occurrence's index |
| Blacklisting.UnBlacklistMembership | csprusd/src/blacklisting.rs:27-39 | after un-blacklisting `k`, a key other than `k` is listed exactly when it was before; `k` stays listed exactly when it occurred at least twice |
| Blacklisting.UnBlacklisted | csprusd/src/blacklisting.rs:27-39 | `un_blacklist_address` on the stored list: its contract is stated by `Blacklisting.UnBlacklistAbsent`, `UnBlacklistPresent` and `UnBlacklistMembership` |
| Blacklisting.BlacklistTwiceUnblacklistOnce | csprusd/src/blacklisting.rs:18-39 | a key blacklisted twice and un-blacklisted once is still blacklisted |
| Blacklisting.Blacklist.constructor | csprusd/src/main.rs:557 | the list installation stores starts empty |
| Blacklisting.Blacklist.IsBlacklistedUtil | csprusd/src/blacklisting.rs:9-16 | the scan answers true exactly when the key occurs in the stored list |
| Blacklisting.Blacklist.Position | csprusd/src/blacklisting.rs:30-32 | the scan returns the index of the first occurrence, or none |
| Blacklisting.Blacklist.BlacklistAddress | csprusd/src/blacklisting.rs:18-25 | the stored list becomes the old list with the key appended |
| Blacklisting.Blacklist.UnBlacklistAddress | csprusd/src/blacklisting.rs:27-39 | the stored list becomes the old list with the first occurrence swap-removed, or stays as it was when the key is absent |
| Ledger.Install | csprusd/src/main.rs:508-561 | the installed state: supply 0, every balance 0, not paused, an empty blacklist, exactly the master minter flagged as minter, the given roles, and the supply invariant |
| Ledger.PauseContract | csprusd/src/main.rs:108-114 | a successful `pause_contract` changes no balance and not the total supply; its effect and errors are stated by `LedgerProperties.PauseStopsGuardedCalls` |
| Ledger.UnpauseContract | csprusd/src/main.rs:116-122 | a successful `unpause_contract` changes no balance and not the total supply; its effect and errors are stated by `LedgerProperties.UnpauseReleasesGuardedCalls` |
| Ledger.UpdatePauser | csprusd/src/main.rs:124-131 | a successful `update_pauser` changes no balance and not the total supply; its effect and errors are stated by `LedgerProperties.UpdatePauserHandsOver` |
| Ledger.UpdateMasterMinter | csprusd/src/main.rs:133-142 | a successful `update_master_minter` changes no balance and not the total supply; its effect and errors are stated by `LedgerProperties.UpdateMasterMinterHandsOver` |
| Ledger.Blacklist | csprusd/src/main.rs:151-161 | a successful `blacklist` changes no balance and not the total supply; its effect and errors are stated by `LedgerProperties.BlacklistBlocksKey` |
| Ledger.UnBlacklist | csprusd/src/main.rs:163-173 | a successful `un_blacklist` changes no balance and not the total supply; its effect and errors are stated by `LedgerProperties.UnBlacklistLiftsKey` |
| Ledger.UpdateBlacklister | csprusd/src/main.rs:175-185 | a successful `update_blacklister` changes no balance and not the total supply; its effect and errors are stated by `LedgerProperties.UpdateBlacklisterHandsOver` |
| Ledger.TransferOwnership | csprusd/src/main.rs:187-196 | a successful `transfer_ownership` changes no balance and not the total supply; its effect and errors are stated by `LedgerProperties.TransferOwnershipHandsOver` |
| Ledger.ConfigureMinter | csprusd/src/main.rs:198-214 | a successful `configure_minter` changes no balance and not the total supply; its effect is stated by `LedgerProperties.MinterConfiguration` and its errors by `MinterConfigurationErrors` |
| Ledger.RemoveMinter | csprusd/src/main.rs:216-224 | a successful `remove_minter` changes no balance and not the total supply; its effect is stated by `LedgerProperties.MinterConfiguration` and its errors by `MinterConfigurationErrors` |
| Ledger.Approve | csprusd/src/main.rs:258-280 | a successful `approve` changes no balance and not the total supply; its effect and errors are stated by `LedgerProperties.AllowanceUpdates` |
| Ledger.DecreaseAllowance | csprusd/src/main.rs:282-307 | a successful `decrease_allowance` changes no balance and not the total supply; its effect and errors are stated by `LedgerProperties.AllowanceUpdates` |
| Ledger.IncreaseAllowance | csprusd/src/main.rs:309-334 | a successful `increase_allowance` changes no balance and not the total supply; its effect and errors are stated by `LedgerProperties.AllowanceUpdates` |
| Ledger.TransferBalance | csprusd/src/main.rs:353 | `transfer_balance`, stated from its call sites; its contract is `LedgerProperties.TransferBalanceMovesAmount` and `TransferBalanceNeverOverflows` |
| Ledger.AllowanceChecks | csprusd/src/main.rs:259-269 | the checks the allowance entry points share; their order and errors are stated by `LedgerProperties.AllowanceChecksInOrder` |
| Ledger.TransferChecks | csprusd/src/main.rs:338-349 | the checks of `transfer`; their order and errors are stated by `LedgerProperties.TransferChecksInOrder` |
| Ledger.Transfer | csprusd/src/main.rs:336-359 | `transfer`; stated by `LedgerProperties.TransferChecksInOrder`, `TransferMovesAmount`, `TransferNeverOverflows`, `ZeroTransfer` and `TransferPreservesValid` |
| Ledger.TransferFromChecks | csprusd/src/main.rs:363-376 | the checks of `transfer_from` before the allowance; stated by `LedgerProperties.TransferFromChecksInOrder` |
| Ledger.SpendAllowance | csprusd/src/main.rs:380-392 | the allowance check, the move and the allowance write of `transfer_from`; stated by `LedgerProperties.TransferFromChecksInOrder` and `TransferFromMovesAmount` |
| Ledger.TransferFrom | csprusd/src/main.rs:361-400 | `transfer_from`; stated by `LedgerProperties.TransferFromChecksInOrder`, `TransferFromMovesAmount`, `TransferFromNeverOverflows`, `ZeroTransferFrom` and `TransferFromPreservesValid` |
| Ledger.MintChecks | csprusd/src/main.rs:404-427 | the checks of `mint`; their order and errors are stated by `LedgerProperties.MintChecksInOrder` |
| Ledger.MintTo | csprusd/src/main.rs:429-451 | the writes of `mint`; stated by `LedgerProperties.MintChecksInOrder`, `MintCreatesAmount` and `MintOverflowsOnlyOnSupply` |
| Ledger.Mint | csprusd/src/main.rs:402-458 | `mint`; stated by `LedgerProperties.MintChecksInOrder`, `MintCreatesAmount`, `MintOverflowsOnlyOnSupply` and `MintPreservesValid` |
| Ledger.BurnChecks | csprusd/src/main.rs:462-481 | the checks of `burn`; their order and errors are stated by `LedgerProperties.BurnChecksInOrder` |
| Ledger.BurnFrom | csprusd/src/main.rs:483-499 | the writes of `burn`; stated by `LedgerProperties.BurnChecksInOrder`, `BurnDestroysAmount` and `BurnNeverUnderflows` |
| Ledger.Burn | csprusd/src/main.rs:460-506 | `burn`; stated by `LedgerProperties.BurnChecksInOrder`, `BurnDestroysAmount`, `BurnNeverUnderflows` and `BurnPreservesValid` |
| LedgerProperties.TransferBalanceMovesAmount | tests/src/transfer.rs:62-74 | the helper fails with `InsufficientBalance` when the sender holds less, and fails only then or on recipient overflow; on success the sender loses and the recipient gains exactly `amount`, no other balance changes, and the sum of balances is kept |
| LedgerProperties.TransferBalanceNeverOverflows | tests/src/transfer.rs:143-167 | while the sum of balances fits in 256 bits, the recipient's balance cannot overflow |
| LedgerProperties.TransferChecksInOrder | csprusd/src/main.rs:336-359 | `transfer` checks: paused, then caller, then sender or recipient blacklisted, then self-transfer, then (first version) zero amount, then balance |
| LedgerProperties.TransferMovesAmount | csprusd/src/main.rs:336-359 | a successful `transfer` moves exactly `amount` from caller to recipient, changes nothing but balances, and keeps the supply and the sum of balances |
| LedgerProperties.TransferNeverOverflows | csprusd/src/main.rs:353 | while the invariant holds, `transfer` never fails with `Overflow` |
| LedgerProperties.TransferFromChecksInOrder | csprusd/src/main.rs:361-400 | `transfer_from` checks: paused, caller, spender or recipient or owner blacklisted, `owner == recipient`, (first version) zero amount, then the allowance, before any balance is looked at |
| LedgerProperties.TransferFromMovesAmount | tests/src/transfer.rs:229-241 | a successful `transfer_from` lowers the allowance and the owner's balance by exactly `amount`, raises the recipient's by `amount`, and changes nothing else |
| LedgerProperties.TransferFromNeverOverflows | csprusd/src/main.rs:386 | while the invariant holds, `transfer_from` never fails with `Overflow` |
| LedgerProperties.ZeroTransfer | tests/contract_versions/v1/v1_source.rs:345-348 | once the earlier checks pass, the first version rejects a zero `transfer` with `CannotTransferZeroAmount`; the latest accepts it and no balance changes |
| LedgerProperties.ZeroTransferFrom | tests/contract_versions/v1/v1_source.rs:375-378 | the same for `transfer_from`: the first version rejects zero; the latest accepts it, keeps every balance and keeps the allowance |
| LedgerProperties.VersionsAgreeOnNonzeroAmounts | tests/contract_versions/v1/v1_source.rs:330-396 | for every nonzero amount, both versions of `transfer` and `transfer_from` give the same result |
| LedgerProperties.MintChecksInOrder | csprusd/src/main.rs:402-458 | `mint` checks: paused, caller, minter, minter or recipient blacklisted, zero amount, minting allowance, then overflow of the balance or the supply, and otherwise succeeds |
| LedgerProperties.MintCreatesAmount | csprusd/src/main.rs:402-458 | a successful `mint` raises the recipient's balance and the supply by `amount`, lowers the minter's allowance by `amount`, and changes nothing else |
| LedgerProperties.MintOverflowsOnlyOnSupply | csprusd/src/main.rs:429-451 | while the invariant holds, a `mint` that fails with `Overflow` would have pushed the supply past 2^256-1 |
| LedgerProperties.BurnChecksInOrder | csprusd/src/main.rs:460-506 | `burn` checks: paused, caller, minter, blacklisted, zero amount, balance, and otherwise succeeds unless the supply would underflow |
| LedgerProperties.BurnDestroysAmount | csprusd/src/main.rs:460-506 | a successful `burn` lowers the caller's balance and the supply by exactly `amount`, and changes nothing else |
| LedgerProperties.BurnNeverUnderflows | csprusd/src/main.rs:483-490 | while the invariant holds, `burn` never fails with `Overflow` |
| LedgerProperties.TransferPreservesValid | csprusd/src/main.rs:336-359 | a successful `transfer` from a state whose supply equals the sum of balances leads to such a state |
| LedgerProperties.TransferFromPreservesValid | csprusd/src/main.rs:361-400 | the same for `transfer_from` |
| LedgerProperties.MintPreservesValid | csprusd/src/main.rs:402-458 | the same for `mint`: the supply and the sum of balances both grow by `amount` |
| LedgerProperties.BurnPreservesValid | csprusd/src/main.rs:460-506 | the same for `burn`: the supply and the sum of balances both shrink by `amount` |
| LedgerProperties.AllowanceChecksInOrder | csprusd/src/main.rs:258-269 | the allowance entry points check: paused, caller, `spender == caller`, then owner or spender blacklisted |
| LedgerProperties.AllowanceUpdates | csprusd/src/main.rs:258-334 | on success, `approve` overwrites the allowance with `amount`, `decrease_allowance` stores the old value minus `amount` or 0, `increase_allowance` stores the old value plus `amount` or 2^256-1; only that entry changes; on failure all three report the check's error |
| LedgerProperties.MinterConfigurationErrors | csprusd/src/main.rs:198-224 | `configure_minter` succeeds exactly when not paused and called by the master minter, otherwise failing with `ContractPaused`, `InvalidContext` or `NotMasterMinter` in that order; `remove_minter` fails with the last two |
| LedgerProperties.MinterConfiguration | csprusd/src/main.rs:198-224 | a successful `configure_minter` changes only the minter's flag (to true) and its allowance (to the given one); a successful `remove_minter` changes only the flag (to false) and the allowance (to 0); every other key's entries, the roles, the blacklist, the allowances and the pause flag stay as they were |
| LedgerProperties.PausedLedgerReverts | csprusd/src/main.rs:259-404 | while paused, `approve`, both allowance updates, `transfer`, `transfer_from`, `mint`, `burn` and `configure_minter` fail with `ContractPaused` |
| LedgerProperties.AdministrationIgnoresPause | csprusd/src/main.rs:108-224 | `remove_minter`, pause and unpause, blacklist and un-blacklist, and the role updates succeed exactly when the caller holds the role, whether paused or not |
| LedgerProperties.PauseStopsGuardedCalls | csprusd/src/main.rs:108-114 | `pause_contract` fails with `NotPauser` (or `InvalidContext` without a caller); on success it sets the flag and nothing else, and then all eight pause-guarded entry points fail with `ContractPaused` (tests/src/take_a_pause.rs:145-281) |
| LedgerProperties.UnpauseReleasesGuardedCalls | csprusd/src/main.rs:116-122 | `unpause_contract` fails with `NotPauser` or `InvalidContext`; on success it clears the flag and nothing else, and then none of the eight guarded entry points fails with `ContractPaused` |
| LedgerProperties.UnpausedAllowancesProceed | csprusd/src/assertion_utils.rs:25-29 | while not paused, `approve`, both allowance updates and `configure_minter` never fail with `ContractPaused` |
| LedgerProperties.UnpausedTransfersProceed | csprusd/src/assertion_utils.rs:25-29 | while not paused, `transfer` and `transfer_from` never fail with `ContractPaused` |
| LedgerProperties.UnpausedMintAndBurnProceed | csprusd/src/assertion_utils.rs:25-29 | while not paused, `mint` and `burn` never fail with `ContractPaused` |
| LedgerProperties.PauseThenUnpause | csprusd/src/main.rs:108-122 | a successful pause followed by an unpause from the same caller succeeds and restores the state with the flag clear |
| LedgerProperties.UpdatePauserHandsOver | tests/src/take_a_pause.rs:95-142 | `update_pauser` fails with `NotOwner` or `InvalidContext`; on success only the pauser changes, afterwards exactly the new pauser can pause and unpause, and a different old pauser gets `NotPauser` |
| LedgerProperties.UpdateMasterMinterHandsOver | tests/src/master_minter.rs:59-80 | `update_master_minter` fails with `NotOwner` or `InvalidContext`; on success only the master minter changes, afterwards exactly the new one can remove minters and (while not paused) configure them, and a different old one gets `NotMasterMinter` |
| LedgerProperties.UpdateBlacklisterHandsOver | csprusd/src/main.rs:175-185 | `update_blacklister` fails with `NotOwner` or `InvalidContext`; on success only the stored public key changes, afterwards exactly the account of the new key can blacklist and un-blacklist, and a different old account gets `NotBlacklister` |
| LedgerProperties.TransferOwnershipHandsOver | tests/src/ownership.rs:46-71 | `transfer_ownership` fails with `NotOwner` or `InvalidContext`; on success only the owner changes, afterwards exactly the new owner passes the four owner-only entry points (`update_pauser`, `update_master_minter`, `update_blacklister`, `transfer_ownership`), and a different old owner gets `NotOwner` from each |
| LedgerProperties.BlacklistBlocksKey | tests/src/blacklisting.rs:73-101 | `blacklist` fails with `NotBlacklister` or `InvalidContext`; on success the key is appended and listed, every other key keeps its status, and while not paused the key's `transfer` and any `mint` to it by a minter fail with `BlackListedAccount` (a `mint` from a non-minter fails earlier with `NotMinter`, main.rs:406-407) |
| LedgerProperties.UnBlacklistLiftsKey | csprusd/src/main.rs:163-173 | `un_blacklist` fails with `NotBlacklister` or `InvalidContext`; on success the key stays listed only if it was listed at least twice, and every other key keeps its status |
| Contract.Token.constructor | csprusd/src/main.rs:508-561 | the new contract's state is the installed state and keeps the invariant |
| Contract.Token.PauseContract | csprusd/src/main.rs:108-114 | commits what `Ledger.PauseContract` describes, or reverts and changes nothing |
| Contract.Token.UnpauseContract | csprusd/src/main.rs:116-122 | commits what `Ledger.UnpauseContract` describes, or reverts and changes nothing |
| Contract.Token.UpdatePauser | csprusd/src/main.rs:124-131 | commits what `Ledger.UpdatePauser` describes, or reverts and changes nothing |
| Contract.Token.UpdateMasterMinter | csprusd/src/main.rs:133-142 | commits what `Ledger.UpdateMasterMinter` describes, or reverts and changes nothing |
| Contract.Token.Blacklist | csprusd/src/main.rs:151-161 | commits what `Ledger.Blacklist` describes, or reverts and changes nothing |
| Contract.Token.UnBlacklist | csprusd/src/main.rs:163-173 | commits what `Ledger.UnBlacklist` describes, or reverts and changes nothing |
| Contract.Token.UpdateBlacklister | csprusd/src/main.rs:175-185 | commits what `Ledger.UpdateBlacklister` describes, or reverts and changes nothing |
| Contract.Token.TransferOwnership | csprusd/src/main.rs:187-196 | commits what `Ledger.TransferOwnership` describes, or reverts and changes nothing |
| Contract.Token.ConfigureMinter | csprusd/src/main.rs:198-214 | commits what `Ledger.ConfigureMinter` describes, or reverts and changes nothing |
| Contract.Token.RemoveMinter | csprusd/src/main.rs:216-224 | commits what `Ledger.RemoveMinter` describes, or reverts and changes nothing |
| Contract.Token.AllowanceChecks | csprusd/src/main.rs:259-269 | the shared checks give the result `Ledger.AllowanceChecks` describes, and change nothing |
| Contract.Token.Approve | csprusd/src/main.rs:258-280 | commits what `Ledger.Approve` describes, or reverts and changes nothing |
| Contract.Token.DecreaseAllowance | csprusd/src/main.rs:282-307 | commits what `Ledger.DecreaseAllowance` describes, or reverts and changes nothing |
| Contract.Token.IncreaseAllowance | csprusd/src/main.rs:309-334 | commits what `Ledger.IncreaseAllowance` describes, or reverts and changes nothing |
| Contract.Token.TransferBalance | tests/src/transfer.rs:143-167 | the balances become what `Ledger.TransferBalance` returns, or stay unchanged with the helper's error |
| Contract.Token.TransferChecks | csprusd/src/main.rs:338-349 | the checks of `transfer`, in order, give the result `Ledger.TransferChecks` describes (the sender, or the first failing check's error), and change nothing |
| Contract.Token.Transfer | csprusd/src/main.rs:336-359 | commits what `Ledger.Transfer` describes for the contract's version, or reverts and changes nothing; keeps the invariant |
| Contract.Token.TransferFromChecks | csprusd/src/main.rs:363-376 | the checks of `transfer_from`, in order, give the result `Ledger.TransferFromChecks` describes, and change nothing |
| Contract.Token.TransferFrom | csprusd/src/main.rs:361-400 | commits what `Ledger.TransferFrom` describes for the contract's version, or reverts and changes nothing; keeps the invariant |
| Contract.Token.SpendAllowance | tests/contract_versions/v1/v1_source.rs:380-388 | the allowance step of `transfer_from` leaves the balances and allowances that `Ledger.SpendAllowance` describes, in the first version's order (allowance subtracted with `checked_sub` before the move) and in the latest's (csprusd/src/main.rs:380-392: compared first, stored after the move); on failure nothing changes |
| Contract.Token.MintChecks | csprusd/src/main.rs:404-427 | the checks of `mint`, in order, give the result `Ledger.MintChecks` describes (the minter, or the first failing check's error), and change nothing |
| Contract.Token.Mint | csprusd/src/main.rs:402-458 | commits what `Ledger.Mint` describes, or reverts and changes nothing; keeps the invariant |
| Contract.Token.MintTo | csprusd/src/main.rs:429-451 | the writes of `mint` commit what `Ledger.MintTo` describes; when the supply overflows after the balance and allowance writes, the call reverts and the state is as before |
| Contract.Token.BurnChecks | csprusd/src/main.rs:462-481 | the checks of `burn`, in order, give the result `Ledger.BurnChecks` describes, and change nothing |
| Contract.Token.Burn | csprusd/src/main.rs:460-506 | commits what `Ledger.Burn` describes, or reverts and changes nothing; keeps the invariant |
| Contract.Token.BurnFrom | csprusd/src/main.rs:483-499 | the writes of `burn` commit what `Ledger.BurnFrom` describes: the supply and then the caller's balance lowered by `amount`, or a revert that changes nothing |
| Execution.Execute | csprusd/src/main.rs:108-506 | the dispatch from a named entry point to its `Ledger` function; stated through `Execution.Commit` and the lemmas below |
| Execution.Commit | csprusd/src/main.rs:108-506 | a reverted call leaves the stored state unchanged; a successful one stores the entry point's result |
| Execution.Run | csprusd/src/main.rs:108-506 | a sequence of calls, each committed or reverted; stated by `Execution.RunPreservesValid` and `InstalledContractStaysValid` |
| Execution.AdministrationKeepsBalances | csprusd/src/main.rs:108-334 | the administrative and allowance entry points never change a balance or the supply |
| Execution.TokenCallsPreserveValid | csprusd/src/main.rs:336-506 | `transfer`, `transfer_from`, `mint` and `burn` keep the total supply equal to the sum of all balances |
| Execution.CommitPreservesValid | csprusd/src/main.rs:336-506 | every entry point keeps the total supply equal to the sum of all balances |
| Execution.RunPreservesValid | csprusd/src/main.rs:336-506 | any sequence of calls keeps the invariant |
| Execution.InstalledContractStaysValid | csprusd/src/main.rs:508-561 | in every state reachable from installation, the total supply equals the sum of all balances |
| Execution.OnlyMintOverflows | csprusd/src/main.rs:429-451 | while the invariant holds, only `mint` can fail with `Overflow`, and only when the supply would pass 2^256-1 |

## Left out

- Read-only getters (`name`, `symbol`, `decimals`, `currency`, `total_supply`, `balance_of`, `allowance`, `is_blacklisted`, `is_minter`, `minter_allowance` and the role getters): each returns a stored value that the `Ledger.State` members already expose; returning a value to the host is not modelled.
- Token metadata (name, symbol, currency, decimals): it is written once at installation and never read by the core.
- Events: emission goes through an external event library and changes no modelled state.
- Host storage plumbing (`get_uref`, `read_from`, `storage::read`/`write`, dictionary creation, the blake2b/hex dictionary keys): replaced by map fields; the `FailedToCreateDictionary` path of `init` is not modelled.
- Installation and upgrade machinery (named keys, contract hashes, `call`, `migrate`, the first version's `upgrade_contract_blacklister_key_to_publickey` and `init_upgrade`): host deployment calls.
- `PublicKey::to_account_hash`: cryptography, taken as the parameter `accountHash`.
- `runtime::get_call_stack` and `runtime::get_named_arg`: host calls; the call stack and the named arguments are parameters.
- Other host `Key` variants (URefs and so on): the entry points only compare and store keys; `Key` has the two variants a caller can be.
- Byte lengths: account and package hashes are byte sequences of any length, not fixed 32-byte arrays.
- The first version's pauser stored as a `PublicKey` and its indexed blacklist dictionaries: their sources are not part of this model; the first version shares the latest version's state here.
- csprusd/src/entry_points.rs and csprusd/src/constants.rs: entry-point metadata and names only.
- The test proxy contract (csprusd-test-contract/src/main.rs): it forwards calls.
- Ledger.TransferBalance: the `Overflow` failure on the recipient's balance is assumed of `transfer_balance`, whose source (balances.rs) is not part of this model; the call sites (csprusd/src/main.rs:353, 386) only unwrap its result. Under the supply invariant the branch cannot be taken.
- Ledger.MintTo: the `checked_sub` on the minter allowance (csprusd/src/main.rs:440) is a plain subtraction, because the preceding check makes its failure unreachable.
- Ledger.SpendAllowance: the `checked_sub` on the allowance after the move (csprusd/src/main.rs:388-391) is a plain subtraction, because the preceding comparison makes its failure unreachable.
- Ledger.BurnFrom: the `checked_sub` on the balance (csprusd/src/main.rs:493-499) is a plain subtraction, because the preceding check makes its failure unreachable.
