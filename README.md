# fully-backed-amm: the pool's arithmetic and bookkeeping in Dafny

A Dafny model of the on-chain core of a two-token automated market maker
(an Anchor program for Solana). The model covers three parts:

- the two arithmetic macros of `helper/mod.rs`:
  - `check_asset!`, the ratio check run before a deposit into a non-empty pool;
  - `calculate_lp_tokens!`, the LP share minted for a deposit.
- the three instructions that move tokens:
  - deposit (`DepositAsset::deposite`);
  - swap (`Swap::swap`);
  - withdraw (`Withdraw::withdraw`).
- the SPL token program calls those instructions make (`transfer_checked`, `mint_to`, `burn`).
  They are modelled only as moves on balances.

All amounts are `u64` (`AmmTypes.U64`). The following are failures, not wrapped values:

- a division by zero (`DivisionByZero`);
- a `u64` overflow in the program's own arithmetic (`ArithmeticOverflow`);
- an error of the token program (`InsufficientFunds`, `TokenOverflow`);
- a `require!` of the program (`Program(NotValidAsset)` and the rest of `AMMError`).

Layout, one module per file:

- `amm_types.dfy` (`AmmTypes`): the `u64` type, the `AMMError` codes, and the failure and `Result` types.
- `helper.dfy` (`Helper`): `CheckAsset` and `CalculateLpTokens`, and the lemmas about them.
- `ledger.dfy` (`Ledger`): the balances an instruction touches (`PoolState`) and `Apply`.
  `Apply` is what one token program call does to those balances.
- `deposit_asset.dfy`, `swap.dfy` and `withdraw_asset.dfy` (`DepositAsset`, `SwapTokens`, `WithdrawAsset`):
  - each instruction as a function of the balances it starts from;
  - the lemmas stating its effect.
- `pool.dfy` (`AmmProgram`):
  - the class `Pool`, whose handler methods update the balances in place, one token call at a time, as the Rust code does;
  - each method is proved against the specification function of its instruction;
  - `Run` and `SupplyStaysZero` cover sequences of instructions.

Three facts about the source shape the model:

- Anchor deserialises every account once, when the instruction starts. A call into the token program does not refresh that copy.
  So `calculate_lp_tokens!` reads the vault A balance and the LP supply from before the deposit's transfers.
  The handlers keep that copy as `cached`.
- A Rust `?` returns at the first error, possibly after some token calls already succeeded.
  The runtime then discards the instruction's writes. `Pool.Deposit`, `Pool.Swap` and `Pool.Withdraw` model that with `Rollback`.
  A ghost log `calls` records every token call issued, so the order of checks and effects can be stated.
- The instructions call three pieces of code whose definitions are not part of this model: `SwapToken::swap_token`, `swap_slippage_check!` and `withdraw_token!`.
  `swap.rs:8` imports `SwapToken` from `helper`, but `helper/mod.rs` defines neither `SwapToken` nor either macro; `swap.rs:8` and `withdraw_asset.rs:6` import the two macros from the crate root, where an exported macro may come from any module, the `constant` module (`lib.rs:5`) included.
  They are parameters (`AmmProgram.Externals`). No formula is assumed for them.

Where the program's own comments and tests expect something else, the model follows the code:

- The workflow comment at `programs/fully-backed-amm/src/lib.rs:40` says the first deposit computes the liquidity as the square root of `x * y`.
  The code mints no LP tokens on that deposit.
  Every later deposit then mints `(amount_a / vault_a) * 0`.
  So a pool that starts empty never has LP tokens (`SupplyStaysZero`).
- The test at `tests/fully-backed-amm.ts:305` computes the share as `s = (dx/X)T` in floating point.
  The code truncates `amount_a / vault_a` to an integer before multiplying.
  So reserves (1000, 1000) with supply 1000 mint 0 for a deposit of (100, 100), not 100 (`TenthOfPoolMintsNothing`).
- A commented-out test at `tests/fully-backed-amm.ts:319-357` expects an out-of-proportion deposit to fail.
  The code only compares truncated quotients.
  For example, reserves (1000, 2000) accept a deposit of (10, 19): both quotients are 0 (`SkewedDepositAccepted`).

## Model

| member | source | states |
|---|---|---|
| `Ledger.Apply` | programs/fully-backed-amm/src/instructions/deposit_asset.rs:111-170 | what one token program call does to the balances; stated by `Ledger.TransferMoves`, `Ledger.MintMoves` and `Ledger.BurnMoves` |
| `DepositAsset.FirstDeposit` | programs/fully-backed-amm/src/instructions/deposit_asset.rs:95-99 | the bootstrap path of the deposit; stated by `DepositAsset.BootstrapDeposit` |
| `DepositAsset.LaterDeposit` | programs/fully-backed-amm/src/instructions/deposit_asset.rs:100-106 | the ratio-checked path of the deposit; stated by `DepositAsset.RatioCheckedFirst`, `DepositAsset.DepositEffect` and `DepositAsset.EmptyVaultADepositAborts` |
| `DepositAsset.Deposit` | programs/fully-backed-amm/src/instructions/deposit_asset.rs:94-109 | the deposit instruction as a function of its starting balances; stated by `DepositAsset.DepositEffect` and `DepositAsset.DepositConserves` |
| `SwapTokens.Swap` | programs/fully-backed-amm/src/instructions/swap.rs:61-76 | the swap instruction as a function of its starting balances; stated by `SwapTokens.SwapChecksFirst`, `SwapTokens.SwapEffect` and `SwapTokens.SwapConserves` |
| `WithdrawAsset.Withdraw` | programs/fully-backed-amm/src/instructions/withdraw_asset.rs:73-82 | the withdraw instruction as a function of its starting balances; stated by `WithdrawAsset.OwedFirst`, `WithdrawAsset.WithdrawEffect` and `WithdrawAsset.WithdrawConserves` |
| `AmmProgram.Step` | programs/fully-backed-amm/src/lib.rs:22-35 | one instruction, dispatched to its specification, with a failed instruction leaving the balances unchanged; stated by `AmmProgram.StepKeepsSupplyZero` |
| `AmmProgram.Run` | programs/fully-backed-amm/src/lib.rs:13-36 | a sequence of instructions applied in order; stated by `AmmProgram.SupplyStaysZero` |
| `Helper.CheckAsset` | programs/fully-backed-amm/src/helper/mod.rs:4-12 | an empty vault B aborts on division by zero; otherwise an overflowing `vault_a + amount_a` or `vault_b + amount_b` aborts with `ArithmeticOverflow`; the only other failure is `NotValidAsset`; a zero deposit into a pool with vault B non-empty passes |
| `Helper.CheckAssetSameBand` | programs/fully-backed-amm/src/helper/mod.rs:6-10 | with vault B non-empty and no overflow, the check passes exactly when the reserves after the deposit lie in the same integer price band `[q, q+1)`, where `q = vault_a / vault_b`; otherwise it fails with `NotValidAsset` |
| `Helper.ProportionalDepositPasses` | programs/fully-backed-amm/src/helper/mod.rs:7-8 | with vault B non-empty and neither `vault_a + amount_a` nor `vault_b + amount_b` overflowing `u64`, a deposit in exactly the pool's proportion (`a * vault_b == b * vault_a`) passes the check |
| `Helper.RatioCheckIsCoarse` | programs/fully-backed-amm/src/helper/mod.rs:7-8 | whenever vault A holds less than vault B both before and after the deposit, and `vault_b + amount_b` fits in `u64`, the check passes whatever the deposit's proportion |
| `Helper.SkewedDepositAccepted` | programs/fully-backed-amm/src/helper/mod.rs:7-8 | reserves (1000, 2000) accept a deposit of (10, 19), which is not in their proportion |
| `Helper.CalculateLpTokens` | programs/fully-backed-amm/src/helper/mod.rs:15-19 | an empty vault A, and only that, aborts on division by zero; the other failure is a `u64` overflow; the share is 0 when the supply is 0 or `amount_a < vault_a`; the share never exceeds the exact proportion `amount_a * supply / vault_a`, and falls short of it by less than one whole supply |
| `Helper.LpTokensMonotone` | programs/fully-backed-amm/src/helper/mod.rs:17 | the share is non-decreasing in `amount_a` and does not depend on `amount_b` |
| `Helper.TenthOfPoolMintsNothing` | programs/fully-backed-amm/src/helper/mod.rs:17 | a deposit of (100, 100) into reserves (1000, 1000) with supply 1000 mints 0 |
| `Ledger.TransferMoves` | programs/fully-backed-amm/src/instructions/deposit_asset.rs:111-143 | a transfer between two accounts succeeds exactly when the source holds the amount and the destination does not overflow; the failure is `InsufficientFunds` or `TokenOverflow`; it moves exactly the amount and changes no other balance or LP balance |
| `Ledger.MintMoves` | programs/fully-backed-amm/src/instructions/deposit_asset.rs:145-170 | minting succeeds exactly when neither the user's LP balance nor the supply overflows; it then adds the amount to both and changes nothing else |
| `Ledger.BurnMoves` | programs/fully-backed-amm/src/instructions/withdraw_asset.rs:130-141 | burning succeeds exactly when the user and the supply hold the amount; a user holding too little gets `InsufficientFunds`; it then removes the amount from both and changes nothing else |
| `DepositAsset.BootstrapDeposit` | programs/fully-backed-amm/src/instructions/deposit_asset.rs:95-99 | into an empty pool, a deposit succeeds exactly when the provider holds both amounts; the failure is `InsufficientFunds`; on success the vaults hold exactly the amounts, the provider has lost them, and no LP balance or supply changes |
| `DepositAsset.RatioCheckedFirst` | programs/fully-backed-amm/src/instructions/deposit_asset.rs:100-103 | off the bootstrap path, a deposit the ratio check rejects fails with the check's own error |
| `DepositAsset.DepositEffect` | programs/fully-backed-amm/src/instructions/deposit_asset.rs:94-109 | a successful deposit passed the ratio check (off the bootstrap path); it adds both amounts to the vaults and takes them from the provider; it adds the minted share to the provider's LP balance and to the supply; the share is 0 on the bootstrap path and otherwise `calculate_lp_tokens` of the pre-deposit vault A and supply; no other user changes |
| `DepositAsset.EmptyVaultADepositAborts` | programs/fully-backed-amm/src/instructions/deposit_asset.rs:101-104 | with vault A empty, vault B non-empty, `amount_a < vault_b + amount_b`, `vault_b + amount_b` fitting in `u64` and the provider holding both amounts, a deposit passes the ratio check and both transfers succeed, and it then aborts with `DivisionByZero` in the share formula |
| `DepositAsset.DepositConserves` | programs/fully-backed-amm/src/instructions/deposit_asset.rs:111-143 | for mint A and for mint B, provider balance plus vault balance is unchanged by a successful deposit |
| `DepositAsset.DepositKeepsSupplyZero` | programs/fully-backed-amm/src/instructions/deposit_asset.rs:95-105 | a deposit into a pool with LP supply 0 leaves the supply 0 |
| `SwapTokens.SwapChecksFirst` | programs/fully-backed-amm/src/instructions/swap.rs:62-73 | a failing quote, or a failing slippage check, is the swap's failure |
| `SwapTokens.SwapEffect` | programs/fully-backed-amm/src/instructions/swap.rs:61-76 | a successful swap had a successful quote, computed from `is_a`, the amount and the pre-swap vault balances, and a passing slippage check; with `is_a` the user pays `amount` of A into vault A and receives the quote in B out of vault B; without `is_a` the mirror holds; LP balances, the supply and every other user are unchanged |
| `SwapTokens.SwapConserves` | programs/fully-backed-amm/src/instructions/swap.rs:78-150 | for mint A and for mint B, user balance plus vault balance is unchanged by a successful swap |
| `WithdrawAsset.OwedFirst` | programs/fully-backed-amm/src/instructions/withdraw_asset.rs:73-78 | a failing computation of either owed amount is the withdrawal's failure |
| `WithdrawAsset.WithdrawEffect` | programs/fully-backed-amm/src/instructions/withdraw_asset.rs:73-82 | a successful withdrawal computed both owed amounts from the pre-withdraw balances and the same LP amount; vault A pays the user exactly the A amount and vault B exactly the B amount; the user's LP balance and the supply each fall by exactly the LP amount; no other user changes |
| `WithdrawAsset.WithdrawConserves` | programs/fully-backed-amm/src/instructions/withdraw_asset.rs:84-128 | for mint A and for mint B, user balance plus vault balance is unchanged by a successful withdrawal |
| `WithdrawAsset.WithdrawNeedsLp` | programs/fully-backed-amm/src/instructions/withdraw_asset.rs:130-141 | a withdrawal of more LP tokens than the user holds fails |
| `AmmProgram.StepKeepsSupplyZero` | programs/fully-backed-amm/src/instructions/deposit_asset.rs:95-105 | no deposit, swap or withdrawal makes an LP supply of 0 non-zero |
| `AmmProgram.SupplyStaysZero` | programs/fully-backed-amm/src/instructions/deposit_asset.rs:95-105 | from LP supply 0, any sequence of instructions leaves the supply 0, so a pool that starts empty never has LP tokens |
| `AmmProgram.Pool.Invoke` | programs/fully-backed-amm/src/instructions/deposit_asset.rs:102-105 | each token call the handlers make is appended to the log; its effect on the pool's balances is that of `Apply`, committed on success, nothing on failure |
| `AmmProgram.Pool.TokenTransfer` | programs/fully-backed-amm/src/instructions/deposit_asset.rs:111-143 | a transfer updates the balances in place exactly as `Apply` specifies: committed on success, nothing changed on `InsufficientFunds` or `TokenOverflow` |
| `AmmProgram.Pool.TokenMint` | programs/fully-backed-amm/src/instructions/deposit_asset.rs:145-170 | minting updates the user's LP balance and the supply in place exactly as `Apply` specifies, changing nothing when it overflows |
| `AmmProgram.Pool.TokenBurn` | programs/fully-backed-amm/src/instructions/withdraw_asset.rs:130-141 | burning updates the user's LP balance and the supply in place exactly as `Apply` specifies, changing nothing when it fails |
| `AmmProgram.Pool.DepositHandler` | programs/fully-backed-amm/src/instructions/deposit_asset.rs:94-109 | the handler reads the accounts once and returns at the first error; on success the balances are `DepositAsset.Deposit` of the old ones, otherwise it returns that function's failure; the calls issued are a prefix of the two transfers and the mint, in that order; a deposit the ratio check rejects issues none |
| `AmmProgram.Pool.LaterDepositHandler` | programs/fully-backed-amm/src/instructions/deposit_asset.rs:100-106 | off the bootstrap path, the handler reads the accounts once and returns at the first error; on success the balances are `DepositAsset.LaterDeposit` of the old ones, otherwise it returns that function's failure; on success the calls issued are the two transfers and then the mint of the share computed from the old vault A balance and supply; the calls issued are always a prefix of that list; a rejected ratio check issues none |
| `AmmProgram.Pool.Deposit` | programs/fully-backed-amm/src/instructions/deposit_asset.rs:94-109 | the deposit instruction commits `DepositAsset.Deposit` on success and leaves every balance unchanged on failure; it keeps the handler's order of calls |
| `AmmProgram.Pool.SwapHandler` | programs/fully-backed-amm/src/instructions/swap.rs:61-76 | on success the balances are `SwapTokens.Swap` of the old ones, otherwise it returns that function's failure; a successful swap issues the payment in and then the payment out of the quoted amount; a failing quote or slippage check issues no call |
| `AmmProgram.Pool.Swap` | programs/fully-backed-amm/src/instructions/swap.rs:61-76 | the swap instruction commits `SwapTokens.Swap` on success and leaves every balance unchanged on failure; a failing quote or slippage check issues no call |
| `AmmProgram.Pool.WithdrawHandler` | programs/fully-backed-amm/src/instructions/withdraw_asset.rs:73-82 | on success the balances are `WithdrawAsset.Withdraw` of the old ones, otherwise it returns that function's failure; a successful withdrawal issues vault A to user, vault B to user, then the burn; a failing owed-amount computation issues no call |
| `AmmProgram.Pool.Withdraw` | programs/fully-backed-amm/src/instructions/withdraw_asset.rs:73-82 | the withdraw instruction commits `WithdrawAsset.Withdraw` on success and leaves every balance unchanged on failure; a failing owed-amount computation issues no call |

## Left out

- The definitions of `SwapToken::swap_token`, `swap_slippage_check!` and `withdraw_token!` are not part of this model: `helper/mod.rs`, which `swap.rs:8` names as the home of `SwapToken`, defines none of them, and the `constant` module (`lib.rs:5`), whose seeds `POOL` and `MINT_LP` the instructions use for account addresses, is not part of this model either.
  The three computations are parameters of the model (`AmmProgram.Externals`), so no property of the swap price or of the withdrawn amounts is stated.
- `initialize_pool.rs`, `state.rs` and `instructions/mod.rs` only store configuration and declare accounts.
  The `Pool` constructor stands in for a freshly initialised pool: empty vaults and no LP supply.
  The dispatch in `lib.rs` is modelled only by `AmmProgram.Step`, and the `initialize` instruction is left out.
- Anchor account validation is left out: `#[derive(Accounts)]` constraints, PDA seeds and bumps, `has_one`, `init_if_needed`, signers.
  A user without token accounts is modelled as holding zero of each mint.
  The program instead rejects a missing A or B account in every instruction.
  A missing LP account is created through `init_if_needed` only by deposit (`deposit_asset.rs:46-52`).
  Withdraw rejects a missing LP account, because `user_token_lp` is declared without `init_if_needed` (`withdraw_asset.rs:60-65`).
- The token program is left out beyond its balance moves: decimals checking, authorities, frozen accounts and account ownership.
- Token-2022 mint extensions are left out, although the accounts are typed with `TokenInterface` and so accept such mints.
  With a transfer-fee extension the destination receives less than the amount sent.
  `Ledger.TransferMoves`, `DepositAsset.DepositConserves`, `SwapTokens.SwapConserves` and `WithdrawAsset.WithdrawConserves` hold only for mints without transfer fees.
- Arithmetic overflow is modelled as an abort (`ArithmeticOverflow`), as in a build with overflow checks on.
  The build profile is not part of this model, so wrap-around is not modelled.
- Solana runtime atomicity is modelled only as `Pool.Rollback` after a failed handler. Concurrency between transactions is out of scope.
- The TypeScript tests use floating-point arithmetic over RPC. They serve only as examples.
