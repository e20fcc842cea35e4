# Lockup ledger for liquidity-pool shares

A model of `LockupContract`, a NEAR contract that holds liquidity-pool shares. The shares come from the Ref Finance token contract. For each account it keeps one lockup: an amount, a duration and the block time it started. A lockup can be withdrawn once its release time (start plus duration) has been reached, and only after the administrator has marked the contract audited.

- Shares arrive through the token contract's `mft_on_transfer` notification. The notification's message is the lock duration in nanoseconds.
- A second deposit merges into the existing lockup, but only if it does not bring the release time forward (extend-only).
- A withdrawal has two steps. `withdraw` removes the lockup and asks the token contract to transfer the shares back. `withdraw_callback` receives the transfer's outcome and puts the lockup back if the transfer failed.

The model has these parts:

- `uints.dfy`: the fixed-width integers (`U64`, `U128`, and the 32-bit usize of wasm32) and `Option`.
- `decimal.dfy`: the decimal text used for the pool's token id (`format!`) and for the duration message (`str::parse::<u64>`).
- `accounts.dfy`: account ids and their order. This is lexicographic order over characters, which is the order Rust gives `String`.
- `ordered_map.dfy`: iterating the lockup map in key order, and skip/take paging.
- `lockups.dfy`: the contract. It holds the `Lockup` record, the constants, and the class `LockupContract`. The class has the map as a field and one method per entry point that changes state. The queries are functions.
- `scenarios.dfy`: client code. It runs the withdrawal protocol, a worked funding example, and the rollback race.

The runtime's inputs are method parameters. An `Env` gives the caller, the attached deposit and the block time, and the callback gets the transfer's outcome as a boolean. On the chain, a panic reverts the whole call. In the model, each entry point instead returns an error and leaves the state as it was. `withdraw` removes the lockup before it checks the release time, so the model stages the removal and commits it only when every check has passed. `withdraw` returns the transfer request and the `(account, lockup)` pair that the runtime hands to `withdraw_callback`. Other calls may run between the two steps.

Overflow: the sums at `src/lib.rs:78`, `:79` and `:94` use plain `+` on u64 and u128. The model treats overflow as an abort (`Error.Overflow`), as in a build with overflow checks. `CheckReleased` shows that this abort never blocks a withdrawal that is really due. A lockup whose release time does not fit in 64 bits is frozen: it can be neither withdrawn nor topped up (`OverflowingLockupIsFrozen`).

A deposit that would release earlier than the existing lockup is rejected. 300 shares for 0.5 s at block time 3000, added to 500 shares locked for 1 s from block time 2000, would release at 500,003,000, before 1,000,002,000, so `src/lib.rs:78` rejects it. `Scenarios.FundingExample` shows this rejection and a merge at block time 6e8.

The administrator is the hard-coded `slimedragon.near` (`Lockups.ADMIN`).

## Model

| member | source | states |
|---|---|---|
| `Lockups.LockupContract.constructor` | src/lib.rs:38-46 | the contract starts with the given pool and token contract, no lockups, and `audited` false |
| `Lockups.LockupContract.RegisterLockup` | src/lib.rs:48-60 | fails with no change unless exactly `STORAGE_DEPOSIT` (0.1 NEAR) is attached. Also fails if the caller already has a lockup. Otherwise adds `{0, 0, now}` for the caller and changes no other entry. `audited` is outside its frame |
| `Lockups.LockupContract.MftOnTransfer` | src/lib.rs:62-87 | fails with no change when: the caller is not the token contract; the token id is not `":" + pool`; the message is not a u64; or `Fund` rejects the deposit. Otherwise it stores `Fund`'s lockup for the sender, changes no other entry, and returns a refund of 0 |
| `Lockups.Fund` | src/lib.rs:72-83 | a new account always gets `{amount, duration, now}`. An existing lockup is merged exactly when its release time is at most `now + duration` and no sum overflows. The merged lockup has the new duration, timestamp `now`, and old amount plus deposit. The release time never moves earlier |
| `Lockups.TokenIdInjective` | src/lib.rs:70 | the token-id check accepts the token of exactly one pool |
| `DecimalText.Decimal` | src/lib.rs:70 | the decimal form is all digits and non-empty, and starts with '0' only for 0 |
| `DecimalText.ParseU64` | src/lib.rs:71 | a parsed message is non-empty, has an optional leading '+', and is digits after it; '-' and empty input are rejected. The parsed value is the number the digits after the '+' denote, and every non-empty digit string below 2^64 after an optional '+' (leading zeros included) is accepted |
| `DecimalText.DecimalValue` | src/lib.rs:70-71 | the digits of the decimal form of n denote n |
| `DecimalText.ZeroPaddingValue` | src/lib.rs:71 | a leading zero does not change the value of a digit string |
| `DecimalText.ParseDecimal` | src/lib.rs:71 | parsing the decimal form of any u64 gives it back, also with a leading '+' or a leading zero |
| `DecimalText.ParseRejectsOverflow` | src/lib.rs:71 | any message whose digits after an optional '+' (leading zeros included) denote 2^64 or more is rejected, not wrapped |
| `DecimalText.ParseRejectsLargeDecimal` | src/lib.rs:71 | the decimal form of any n ≥ 2^64, with or without '+', is rejected |
| `DecimalText.DecimalInjective` | src/lib.rs:70 | different numbers have different decimal forms |
| `Lockups.LockupContract.Withdraw` | src/lib.rs:89-106 | fails with no change unless: one yoctoNEAR is attached; the contract is audited; the caller has a lockup; and its release time has been reached. On success it removes only the caller's entry. It requests a transfer of exactly that lockup's amount of token `":" + pool` to the caller from the token contract, and hands `(caller, lockup)` to the callback. The request's memo is always none |
| `Lockups.CheckReleased` | src/lib.rs:94 | passes exactly when the release time is at most the block time; an overflowing sum only occurs for a lockup that is not due |
| `Lockups.OverflowingLockupIsFrozen` | src/lib.rs:77-94 | a lockup whose release time exceeds the u64 range can never be withdrawn or funded further |
| `Lockups.LockupContract.WithdrawCallback` | src/lib.rs:123-131 | on success the map is unchanged. On failure the original lockup is put back, replacing any entry the account holds by then |
| `Lockups.LockupContract.SetAudited` | src/lib.rs:116-121 | fails unless one yoctoNEAR is attached and the caller is `slimedragon.near`. Otherwise sets `audited`. It never clears `audited`, a repeat call changes nothing, and the lockups are outside its frame |
| `Lockups.LockupContract.GetLockup` | src/lib.rs:108-110 | returns the account's entry exactly when it has one |
| `Lockups.LockupContract.GetLockups` | src/lib.rs:112-114 | entries of the map with their own values, in strictly ascending account order, namely those at positions skip, skip+1, … of the key-ordered iteration. There are min(take, size − skip) of them, and none when skip ≥ size or take = 0 |
| `Lockups.GetLockupsAsWritten` | src/lib.rs:113 | get_lockups with `skip` and `take` truncated to the 32-bit usize of wasm32: the entries at positions skip mod 2^32, … of the key-ordered iteration, min(take mod 2^32, size − skip mod 2^32) of them |
| `Lockups.AsWrittenAgreesBelowUsize` | src/lib.rs:113 | for skip and take below 2^32 the code as written pages exactly as the full-width page does |
| `Lockups.TruncatedSkipRestarts` | src/lib.rs:113 | with skip = 2^32 the code returns the first entry, where the full-width page is empty |
| `Lockups.TruncatedTakeIsEmpty` | src/lib.rs:113 | with take = 2^32 the code returns nothing, where the full-width page is the whole map |
| `OrderedMap.SortedKeys` | src/lib.rs:113 | the map's keys, each once, in strictly ascending order |
| `OrderedMap.SortedUnique` | src/lib.rs:113 | a set of keys has only one strictly ascending enumeration, so the iteration order is determined |
| `OrderedMap.Entries` | src/lib.rs:113 | the map's (key, value) pairs in strictly ascending key order, every key present, one per entry |
| `OrderedMap.Page` | src/lib.rs:113 | `skip(s).take(t)`: the elements at positions s, s+1, … of the input, at most t of them |
| `OrderedMap.PagesConcatenate` | src/lib.rs:112-114 | a page of n followed by the next page of t equals one page of n + t, so consecutive pages neither skip nor repeat entries |
| `OrderedMap.PageAll` | src/lib.rs:113 | one page from 0 as long as the map is the whole iteration |
| `AccountIds.BelowIrreflexive` | src/lib.rs:12 | no account id sorts before itself |
| `AccountIds.BelowAsymmetric` | src/lib.rs:12 | two account ids never sort before each other |
| `AccountIds.BelowTransitive` | src/lib.rs:12 | the key order is transitive |
| `AccountIds.BelowTotal` | src/lib.rs:12 | any two different account ids are ordered |
| `Scenarios.WithdrawAndSettle` | src/lib.rs:89-131 | after a withdrawal and a successful transfer, the caller has no lockup. After a failed transfer, the ledger is exactly as before the withdrawal. The transfer amount is the removed lockup's |
| `Scenarios.FundingExample` | src/lib.rs:72-84 | 500 for 1e9 ns at 2000 gives `{500, 1e9, 2000}`. 300 for 5e8 ns at 3000 is rejected and the lockup is unchanged. The same deposit at 6e8 merges into `{800, 5e8, 6e8}` |
| `Scenarios.RollbackOverwritesInterimRegistration` | src/lib.rs:124-130 | if an account registers again while its withdrawal is in flight and the transfer fails, the rollback restores the old lockup over the new registration |

## Left out

- The NEAR SDK plumbing: promise construction for `mft_transfer`, `.then` chaining, the 50 TGas budget of the callback, and the `log!` lines. The transfer request is a returned value, and the callback is called explicitly with the outcome.
- Lockups.LockupContract.WithdrawCallback: `#[private]` is not enforced. The model's callback can be called by any client, while on the chain only the contract itself can call it.
- The SDK's automatic rejection of attached deposits on the non-payable `mft_on_transfer` and `withdraw_callback`. This is generated by the SDK and is not part of the contract's code.
- The `#[init]` once-only rule and `PanicOnDefault`. The constructor stands for the single initialisation.
- Storage layout: the `TreeMap` prefix `b"l"`, borsh and JSON encoding, and the `U64`/`U128` wrappers. These are plain bounded integers in the model.
- `AccountId` validation and `NearToken` units. Account ids are strings, and deposits are yoctoNEAR integers.
- Wrapping arithmetic: the model aborts on overflow, as a build with overflow checks does. A build without them would wrap the sums at `src/lib.rs:78`, `:79` and `:94`, and that behaviour is not modelled.
- The runtime's scheduling of the callback and its delivery guarantees. The two withdrawal steps are independent calls that a client sequences, with any other calls in between.
- The token contract's refund of a rejected deposit. That happens outside this contract.
- DecimalText.ParseU64: works on characters, not UTF-8 bytes. Every non-ASCII character is rejected either way, so the accepted messages are the same.

## Findings

| source | as written | input that shows it | evidently intended | confidence | as-written member | corrected member |
|---|---|---|---|---|---|---|
| src/lib.rs:113 | `skip.0 as usize` and `take.0 as usize` keep only the low 32 bits on wasm32, where usize is 32 bits wide | one lockup, `skip = 2^32`, `take = 1`: the first entry is returned instead of nothing. `skip = 0`, `take = 2^32`: nothing is returned instead of every entry | skip and take counted in their full u64 width | medium; not executed; holds for the wasm32 target the contract is built for | `Lockups.GetLockupsAsWritten` | `Lockups.LockupContract.GetLockups` |
