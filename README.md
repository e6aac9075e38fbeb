# Gamma pool ledger, modelled in Dafny

This project models the ledger arithmetic of the gamma constant-product pool, a Solana program. It covers five pieces:

- the output-fixed swap (`swap_base_output`);
- the liquidity deposit (`deposit_to_gamma_pool`);
- pool creation (`initialize`);
- the reward-accrual guard (`calculate_rewards`);
- the initialisation of a provider's liquidity record (`UserPoolLiquidity::initialize`).

The pool account (`PoolState`), the provider's record (`UserPoolLiquidity`) and the reward record (`UserRewardInfo`) are classes whose fields the instructions update in place. The partner table is a fixed-size array. `Snapshot()` reads each account as a value (`PoolLedger`, `UserPoolLiquidityRecord`, `UserRewardRecord`).

Each instruction has three layers:

- A pure specification function on those values: `SwapSpec`, `DepositSpec`, `InitializeSpec` and `CalculateRewardsSpec`. It returns the new account values or the error that aborts the instruction.
- A body method (`ExecuteSwap`, `ExecuteDeposit`, `ExecuteInitialize`, `ExecuteCalculateRewards`). It mirrors the program: guards with early returns, checked `u64`/`u128` arithmetic written as comparisons against 2^64 and 2^128, and field writes in the program's order. Its `ensures` ties it to the specification function.
- A transaction wrapper (`SwapBaseOutput`, `DepositToGammaPool`, `Initialize`, `CalculateRewards`). It snapshots the accounts, runs the body and restores the snapshot on an error. This is Solana's all-or-nothing transaction semantics made explicit. Its `ensures` states that an error leaves every account as it was.

Lemmas about the specification functions state what the program promises: guards, slippage bounds, the referral carve-out, partner metrics, conservation between the pool and the provider's record, the constant-product check, open-time clamping, and the integer square root.

Helpers whose code is not part of this model are function-valued fields of collaborator datatypes. The model assumes nothing about them beyond their types. They are:

- the curve (`CurveCalculator::swap_base_output`, `lp_tokens_to_trading_tokens`, `validate_supply`);
- the transfer-fee functions;
- the referral split;
- `vault_amount_without_fee` and `get_status_by_bit`;
- `PoolState::initialize`;
- `is_supported_mint`;
- `PartnerType::new`;
- `calculate_claimable_rewards`.

The clock's Unix timestamp (already cast to `u64`) and the epoch are parameters. So are `LOCK_LP_AMOUNT`, `CALCULATE_REWARDS_ADMIN` and whether the program is a test build.

Notes on the program:

- The creator's initial liquidity is the square root of the product of the vault balances read back after the initial transfers, not of the requested initial amounts (the two differ when a mint charges a transfer fee). The creator's deposited counters, however, record the requested amounts (`initialize.rs:262-266` and `326-327`).
- The mint-ordering requirement is an account constraint that fails the instruction. It is modelled as an error branch (`ConstraintRaw`), not a precondition, so "a created pool has ordered mints" is a provable property.
- A failing instruction can leave fields half written; the runtime discards them, because a Solana transaction is atomic. The body methods leave fields half written in the same way, and the wrappers do the discarding.

## Model

| member | source | states |
|---|---|---|
| Base.KeyLessAsymmetric | programs/gamma/src/instructions/initialize.rs:75 | The key order used for the mint constraint is asymmetric: of two keys at most one precedes the other, and no key precedes itself. |
| Base.KeyLessTotal | programs/gamma/src/instructions/initialize.rs:75 | Two different keys are always ordered one way or the other. |
| UserPoolLiquidities.LenIs184 | programs/gamma/src/states/user_pool_liquidity.rs:23 | The space reserved for a liquidity record is 8 + 2·32 + 5·16 + 32 = 184 bytes. |
| UserPoolLiquidities.UserPoolLiquidity.Initialize | programs/gamma/src/states/user_pool_liquidity.rs:25-42 | The user, pool and partner are stored as given. All four deposited/withdrawn counters and the owned LP become 0. The first investment time is the given time and the padding is 15 zero bytes. The whole record equals `InitialRecord` of the arguments, whatever it held before, so repeating the call changes nothing. |
| PoolStates.PoolState.WritePartners | programs/gamma/src/instructions/swap_base_output.rs:234 | After the copied partner table is written back, the account's table equals the copy entry by entry. |
| SwapInstruction.ResolveDirection | programs/gamma/src/instructions/swap_base_output.rs:55-80 | A resolved direction's source and destination vaults are exactly the vaults the trader named. The result is an error exactly when no direction matches the named pair, and that error is InvalidVault. |
| SwapInstruction.ProductFitsU128 | programs/gamma/src/instructions/swap_base_output.rs:81-83 | The product of two `u64` reserves fits a `u128`, so the checked multiplication for `constant_before` never fails. |
| SwapInstruction.ReferralTotal | programs/gamma/src/instructions/swap_base_output.rs:170-175 | A successful rebate total means both referral splits succeeded, and it is the sum of their rebates. Conversely, two successful splits whose rebates sum below 2^64 give exactly that sum. A failing split passes its error on (the protocol-fee split first), and with both splits successful the only failure is MathOverflow. |
| SwapInstruction.ApplyReferral | programs/gamma/src/instructions/swap_base_output.rs:168-199 | The rebate is all or nothing. Without a referral, or when the rebate does not apply, the amounts are unchanged. A rebate is recorded exactly when it is non-zero and its transfer fee is below it. When it is recorded, the input transfer and the swapped source each drop by exactly the rebate, and the protocol and fund fees become their after-referral values. Once the total and its fee are known, the carve-out fails exactly when the rebate applies and exceeds the input transfer or the swapped source, and then with MathError. |
| SwapInstruction.CarveOutReferral | programs/gamma/src/instructions/swap_base_output.rs:168-199 | The carve-out on mutable locals yields exactly `ApplyReferral`. |
| SwapInstruction.PartnerFee | programs/gamma/src/instructions/swap_base_output.rs:204-217 | The share succeeds exactly when the supply is non-zero, linked·100000 fits a `u64` and the fee times the supply share fits a `u64`. Its value is then the fee share of the rounded-down supply share. An empty supply fails, and every failure is MathOverflow. |
| SwapInstruction.TvlShare | programs/gamma/src/instructions/swap_base_output.rs:206-211 | The partner's share of the supply in units of 1/100000, rounded down: share·supply ≤ linked·100000 < (share+1)·supply. |
| SwapInstruction.FeeShare | programs/gamma/src/instructions/swap_base_output.rs:213-217 | The fee times the share, scaled back by 100000 and rounded down: v·100000 ≤ fee·share < (v+1)·100000, and v ≤ fee·share. |
| SwapInstruction.PartnerFeeProRata | programs/gamma/src/instructions/swap_base_output.rs:204-217 | The share `fee·(linked·100000/supply)/100000` never exceeds the pro-rata share `fee·linked/supply`. A partner whose linked LP is within the supply is never credited more than the whole protocol fee. |
| SwapInstruction.CreditPartner | programs/gamma/src/instructions/swap_base_output.rs:203-232 | The credit succeeds exactly when the partner's fee share succeeds and the input token's accumulator plus that share fits a `u64`. Then that accumulator grows by the share, and the other accumulator, the partner id and the linked LP are unchanged. Failures are MathOverflow. |
| SwapInstruction.CreditOne | programs/gamma/src/instructions/swap_base_output.rs:203-232 | One turn of the partner loop computes exactly `CreditPartner`. |
| SwapInstruction.CreditPartners | programs/gamma/src/instructions/swap_base_output.rs:202-234 | Crediting the whole table fails exactly when some entry cannot be credited, and then with MathOverflow. On success, every entry is that entry credited, and the table keeps its length. |
| SwapInstruction.CreditPartnerTable | programs/gamma/src/instructions/swap_base_output.rs:202-234 | The in-place loop over a copy of the table returns exactly `CreditPartners` of the account's table. |
| SwapInstruction.EmptySupplyFailsPartners | programs/gamma/src/instructions/swap_base_output.rs:206-211 | With an empty LP supply, a non-empty partner table cannot be credited. |
| SwapInstruction.PreflightOf | programs/gamma/src/instructions/swap_base_output.rs:16-83 | Reference definition of the checks before the curve, in the program's order, with the error each one raises. The lemmas below state its consequences. |
| SwapInstruction.CurveStep | programs/gamma/src/instructions/swap_base_output.rs:100-121 | A failing curve gives ZeroTradingTokens. A curve answer whose dynamic fee is within the new source amount, and whose (new source − dynamic fee)·new destination fits a `u128`, always succeeds; any other answer fails with MathOverflow. On success, the result is the curve's answer and the returned constant is that product. |
| SwapInstruction.Charge | programs/gamma/src/instructions/swap_base_output.rs:134-166 | Reference definition of the input-side checks and the settlement before any referral. |
| SwapInstruction.Price | programs/gamma/src/instructions/swap_base_output.rs:100-199 | Reference definition: the curve step, the input-side checks and the referral carve-out, assembled into the quote. |
| SwapInstruction.Quote | programs/gamma/src/instructions/swap_base_output.rs:16-199 | Reference definition of everything the swap checks and computes before writing the ledger. |
| SwapInstruction.AccrueFees | programs/gamma/src/instructions/swap_base_output.rs:236-285 | Reference definition: the input token's protocol, fund and trade-fee accumulators grow with checked addition. |
| SwapInstruction.MoveReserves | programs/gamma/src/instructions/swap_base_output.rs:250-307 | Reference definition of the volume counters and the vault amounts after the trade, with checked arithmetic. |
| SwapInstruction.Settle | programs/gamma/src/instructions/swap_base_output.rs:236-309 | Reference definition: the fee accrual, then the reserve movement. |
| SwapInstruction.SwapSpec | programs/gamma/src/instructions/swap_base_output.rs:11-386 | Reference definition of the whole swap on ledger values, which the swap lemmas and `ExecuteSwap` are proved against. |
| SwapInstruction.CheckPreflight | programs/gamma/src/instructions/swap_base_output.rs:16-83 | The method computes exactly `PreflightOf`, in the program's order: the zero-output guard, the referral lookup, the status bit and open time, the vault pair, the output inverse fee with checked addition, and the oriented reserves with their product. |
| SwapInstruction.RunCurve | programs/gamma/src/instructions/swap_base_output.rs:100-121 | The method computes exactly `CurveStep`: a failing curve gives ZeroTradingTokens, and a checked subtraction or multiplication in `constant_after` that fails gives MathOverflow. Otherwise it returns the curve's result and `constant_after`. |
| SwapInstruction.ChargeSwap | programs/gamma/src/instructions/swap_base_output.rs:134-166 | The method computes exactly `Charge`, in order: the source is converted to `u64` and must be positive, the inverse fee is added with checked addition, the sum is checked against `max_amount_in` (ExceededSlippage), the destination must equal the gross output, and the fees are converted to `u64`. |
| SwapInstruction.PriceSwap | programs/gamma/src/instructions/swap_base_output.rs:100-199 | The method computes exactly `Price`: the curve step, the input-side checks and the referral carve-out. |
| SwapInstruction.QuoteSwap | programs/gamma/src/instructions/swap_base_output.rs:16-199 | The method computes exactly `Quote` of the pool's ledger without writing the account. |
| SwapInstruction.AccrueFeesOnPool | programs/gamma/src/instructions/swap_base_output.rs:236-285 | Only the input token's protocol, fund and trade-fee accumulators are written. When `AccrueFees` succeeds, the account becomes its ledger. Otherwise the method fails with MathOverflow. |
| SwapInstruction.MoveReservesOnPool | programs/gamma/src/instructions/swap_base_output.rs:250-307 | Only the volume counters and the vault amounts are written. When `MoveReserves` succeeds, the account becomes its ledger. Otherwise the method fails with MathOverflow. |
| SwapInstruction.ExecuteSwap | programs/gamma/src/instructions/swap_base_output.rs:11-386 | The instruction body yields `SwapSpec`'s ledger and receipt, or its error. |
| SwapInstruction.SwapBaseOutput | programs/gamma/src/instructions/swap_base_output.rs:11-386 | On success, the pool holds `SwapSpec`'s ledger and the receipt names the transfers. On an error, the pool account is exactly as before. |
| SwapInstruction.ZeroOutputRejected | programs/gamma/src/instructions/swap_base_output.rs:16 | A request for zero output fails with RequireGtViolated, whatever else holds. |
| SwapInstruction.SwapRequiresApproval | programs/gamma/src/instructions/swap_base_output.rs:27-31 | A swap bit that is off, or a pool that has not opened yet, fails the swap with NotApproved. |
| SwapInstruction.SwapRejectsForeignVaults | programs/gamma/src/instructions/swap_base_output.rs:33-44 | Any vault pair other than (vault 0, vault 1) and (vault 1, vault 0) fails the swap with InvalidVault. That includes a foreign vault on either side and the same pool vault twice. |
| SwapInstruction.SwapMatchesVaults | programs/gamma/src/instructions/swap_base_output.rs:55-80 | A successful swap passed the status and open-time checks. The named vaults are the source and destination of the resolved direction, and the reserves are `vault_amount_without_fee` oriented for that direction. |
| SwapInstruction.SwapPaysExactOutput | programs/gamma/src/instructions/swap_base_output.rs:46-52 | The output transferred is the requested net amount plus the output mint's inverse transfer fee, and the curve's destination amount equals it (line 158). |
| SwapInstruction.SwapWithinMaxIn | programs/gamma/src/instructions/swap_base_output.rs:134-199 | The swapped source is positive, and the source plus the input inverse fee is within `max_amount_in`. The amount taken from the trader is that gross input, minus exactly the referral rebate when one is paid. |
| SwapInstruction.SwapSlippageRejected | programs/gamma/src/instructions/swap_base_output.rs:134-151 | A trade that reaches the slippage bound (the checks before the curve pass, the curve succeeds, and the source is positive and fits a `u64` together with its inverse fee) but whose gross input exceeds `max_amount_in` fails with ExceededSlippage. The checks after the bound play no part. |
| SwapInstruction.SwapKeepsConstantProduct | programs/gamma/src/instructions/swap_base_output.rs:114-121 | After a successful swap, the dynamic fee is at most the new source amount, and (new source − dynamic fee)·new destination ≥ reserve in·reserve out (checked at line 331). |
| SwapInstruction.SwapLedgerZeroForOne | programs/gamma/src/instructions/swap_base_output.rs:236-272 | For a 0→1 trade, the token-0 fee accumulators and both volume counters grow by the settled amounts. The token-0 vault gains the source less the fund and protocol fees, and the token-1 vault pays out the output. The token-1 fees, LP supply, vault keys, status and open time are unchanged, and the fee rate and epoch are set (lines 310, 383). |
| SwapInstruction.SwapLedgerOneForZero | programs/gamma/src/instructions/swap_base_output.rs:273-310 | The mirror image for a 1→0 trade. |
| SwapInstruction.SwapCreditsPartners | programs/gamma/src/instructions/swap_base_output.rs:202-234 | After a successful swap, every partner entry is that entry credited with its share of the after-referral protocol fee for the trade's direction, and the table keeps its length. |
| SwapInstruction.SwapNeedsSupplyWithPartners | programs/gamma/src/instructions/swap_base_output.rs:206-211 | A pool with partner entries and an empty LP supply cannot be swapped against. Once the quote passes, the error is MathOverflow. |
| DepositInstruction.DepositQuoteOf | programs/gamma/src/instructions/deposit.rs:113-185 | Reference definition of the deposit's checks and amounts, in the program's order. |
| DepositInstruction.LinkPartner | programs/gamma/src/instructions/deposit.rs:243-255 | Reference definition of the partner table after a deposit. `DepositLinksPartner` states its meaning. |
| DepositInstruction.DepositSpec | programs/gamma/src/instructions/deposit.rs:107-257 | Reference definition of the whole deposit on values, which the deposit lemmas and `ExecuteDeposit` are proved against. |
| DepositInstruction.FirstMatch | programs/gamma/src/instructions/deposit.rs:245-247 | The index found belongs to the provider's partner, and no earlier entry does. No index is found exactly when no entry belongs to the partner. |
| DepositInstruction.FindPartner | programs/gamma/src/instructions/deposit.rs:245-247 | The search loop returns exactly `FirstMatch`. |
| DepositInstruction.QuoteDeposit | programs/gamma/src/instructions/deposit.rs:113-185 | The method computes exactly `DepositQuoteOf` of the pool's ledger without writing it. |
| DepositInstruction.CreditPool | programs/gamma/src/instructions/deposit.rs:215-227 | The method succeeds exactly when both vault amounts and the LP supply can grow without overflow. Then they grow by the net token amounts and the LP amount, and nothing else of the pool changes. Otherwise it fails with MathOverflow. |
| DepositInstruction.CreditUser | programs/gamma/src/instructions/deposit.rs:228-240 | The method succeeds exactly when the provider's two deposited counters and owned LP can grow without `u128` overflow. Then they grow by the net token amounts and the LP amount, and nothing else of the record changes. |
| DepositInstruction.LinkPartnerOnPool | programs/gamma/src/instructions/deposit.rs:243-255 | The partner table becomes `LinkPartner` of the old table, or the method fails with MathOverflow. |
| DepositInstruction.ExecuteDeposit | programs/gamma/src/instructions/deposit.rs:107-257 | The instruction body yields `DepositSpec`'s pool ledger, provider record and quote, or its error. |
| DepositInstruction.DepositToGammaPool | programs/gamma/src/instructions/deposit.rs:107-257 | On success, the pool and the provider's record hold `DepositSpec`'s values. On an error, including slippage, neither account changes. |
| DepositInstruction.DepositZeroRejected | programs/gamma/src/instructions/deposit.rs:113 | A deposit of zero LP fails with RequireGtViolated. |
| DepositInstruction.DepositRequiresApproval | programs/gamma/src/instructions/deposit.rs:116-118 | With the deposit bit off, a deposit fails with NotApproved. |
| DepositInstruction.DepositNeedsTradingTokens | programs/gamma/src/instructions/deposit.rs:119-130 | An approved, non-zero deposit for which the curve gives no answer, or a zero amount of either token, fails with ZeroTradingTokens. |
| DepositInstruction.DepositWithinMaximum | programs/gamma/src/instructions/deposit.rs:119-185 | The token amounts of a successful deposit are the curve's ceiling-rounded backing for the requested LP, and both are positive. Each transfer amount is its token amount plus the mint's inverse fee, and each is within the provider's maximum. |
| DepositInstruction.DepositSlippageRejected | programs/gamma/src/instructions/deposit.rs:181-185 | A deposit whose amounts pass every check without a maximum, but whose transfer of either token exceeds the provider's maximum, fails with ExceededSlippage. Because the deposit is atomic, no pool or provider field is written. |
| DepositInstruction.DepositBalancesShares | programs/gamma/src/instructions/deposit.rs:215-241 | The LP supply and the provider's owned LP both grow by exactly the requested amount. Each vault and the matching deposited counter grow by the same net token amount, and the epoch is set. Every other ledger field (fees, volumes, keys, status, open time, fee rate) and every other record field (withdrawn counters, links, partner, first investment time, padding) is unchanged; only the partner table may also change. |
| DepositInstruction.DepositLinksPartner | programs/gamma/src/instructions/deposit.rs:243-255 | Only the first entry matching the provider's partner gains the deposited LP, and every other entry is unchanged. Without an affiliation the table is unchanged. |
| InitializeInstruction.ISqrt | programs/gamma/src/instructions/initialize.rs:262-266 | The integer square root r satisfies r² ≤ n < (r+1)². |
| InitializeInstruction.LiquidityFitsU64 | programs/gamma/src/instructions/initialize.rs:262-266 | The root of the product of two `u64` balances is below 2^64, so `as_u64` never overflows (the conversion would panic). |
| InitializeInstruction.ProductBound | programs/gamma/src/instructions/initialize.rs:262-266 | Two factors each at most m have a product at most m², which bounds the product of two `u64` balances. |
| InitializeInstruction.RootBound | programs/gamma/src/instructions/initialize.rs:265-266 | A number at most m² has a root at most m. |
| InitializeInstruction.EffectiveOpenTime | programs/gamma/src/instructions/initialize.rs:177-183 | An accepted open time lies strictly after now and within now + `max_open_time`. A future request is kept, and any other becomes now + 1. Within the window, each case is accepted. A clamped time beyond now + `max_open_time` fails with InvalidOpenTime once both additions fit. ArithmeticPanic arises only when one of the unchecked additions overflows. |
| InitializeInstruction.CreatorRecord | programs/gamma/src/instructions/initialize.rs:318-330 | Reference definition of the creator's record. `InitializeCreatorRecord` states its meaning. |
| InitializeInstruction.InitializeSpec | programs/gamma/src/instructions/initialize.rs:160-333 | Reference definition of pool creation on values, which the initialize lemmas and `ExecuteInitialize` are proved against. |
| InitializeInstruction.ExecuteInitialize | programs/gamma/src/instructions/initialize.rs:160-333 | The instruction body yields `InitializeSpec`'s ledger and writes its creator record, or yields its error. |
| InitializeInstruction.Initialize | programs/gamma/src/instructions/initialize.rs:160-333 | On success, the creator's record is `InitializeSpec`'s. On an error, it is as before. |
| InitializeInstruction.InitializeOrdersMints | programs/gamma/src/instructions/initialize.rs:75 | A created pool has its mints in ascending key order. |
| InitializeInstruction.InitializeRejectsUnsupportedMint | programs/gamma/src/instructions/initialize.rs:168-172 | An unsupported mint fails creation with NotSupportMint. |
| InitializeInstruction.InitializeRespectsDisable | programs/gamma/src/instructions/initialize.rs:174-176 | A configuration with pool creation disabled fails it with NotApproved. |
| InitializeInstruction.OneOrderingPerPair | programs/gamma/src/instructions/initialize.rs:75 | A pair of mints and the same pair swapped cannot both create a pool. |
| InitializeInstruction.DistinctMintsHaveAnOrder | programs/gamma/src/instructions/initialize.rs:75 | For two different mints, exactly one order passes the ordering constraint. |
| InitializeInstruction.InitializeOpenTime | programs/gamma/src/instructions/initialize.rs:177-183 | A created pool opens after now and within the window. A future request is kept, and any other becomes now + 1. A window of zero makes creation impossible. |
| InitializeInstruction.InitializeHandsOverLiquidity | programs/gamma/src/instructions/initialize.rs:260-316 | The supply is validated. The liquidity is the floor square root of the product of the vault balances and fits a `u64`. `PoolState::initialize` receives those balances, that liquidity and the clamped open time, and its ledger is the result. |
| InitializeInstruction.InitializeCreatorRecord | programs/gamma/src/instructions/initialize.rs:318-330 | The creator's record has the creator and pool as links and no partner, and the initial amounts as deposited. Nothing is withdrawn, and the first investment time is now. Owned LP plus `LOCK_LP_AMOUNT` equals the liquidity, so creation fails when the liquidity does not cover the locked amount. |
| CalculateRewardsInstruction.TruncateToU64 | programs/gamma/src/instructions/calculate_rewards.rs:79 | `as u64` keeps a value below 2^64, and otherwise gives the value below 2^64 congruent to it modulo 2^64. |
| CalculateRewardsInstruction.Anchored | programs/gamma/src/instructions/calculate_rewards.rs:72-75 | A record never calculated before (timestamp 0) starts at the first investment time. Any other record is kept as it is. The links and the claimable amount never change, and the result's timestamp is 0 only when both inputs are 0. |
| CalculateRewardsInstruction.CalculateRewardsSpec | programs/gamma/src/instructions/calculate_rewards.rs:58-89 | Reference definition of the accrual guard on values, which the rewards lemmas and `ExecuteCalculateRewards` are proved against. |
| CalculateRewardsInstruction.ExecuteCalculateRewards | programs/gamma/src/instructions/calculate_rewards.rs:58-89 | The instruction body leaves the reward record as `CalculateRewardsSpec` says, or returns its error. Only the reward record is in its frame; the pool and the liquidity record are read only (line 64). |
| CalculateRewardsInstruction.CalculateRewards | programs/gamma/src/instructions/calculate_rewards.rs:58-89 | On success, the reward record is `CalculateRewardsSpec`'s. On an error, it is as before, and the pool and the liquidity record are never written. |
| CalculateRewardsInstruction.RewardsRequireAdmin | programs/gamma/src/instructions/calculate_rewards.rs:59-62 | Outside test builds, a signer other than the rewards admin fails with InvalidOwner. |
| CalculateRewardsInstruction.RewardsNoOpWhenCurrent | programs/gamma/src/instructions/calculate_rewards.rs:66-68 | An authorised call on a record calculated at or after now succeeds and leaves the record exactly as it was. |
| CalculateRewardsInstruction.RewardsAccrualInputs | programs/gamma/src/instructions/calculate_rewards.rs:72-86 | When the accrual runs, it receives the anchored record, the owned LP truncated to `u64` and the LP supply. The result is the accrual's record with the schedule, provider and pool links set. |
| CalculateRewardsInstruction.RewardsOncePerInstant | programs/gamma/src/instructions/calculate_rewards.rs:66-68 | If the accrual advances the record to now, a second call at the same instant changes nothing. |
| CalculateRewardsInstruction.RewardsSeeOwnedLp | programs/gamma/src/instructions/calculate_rewards.rs:79 | A holding below 2^64 is passed exactly. Holdings 2^64 apart are passed as the same amount. |

## Left out

- Token movement is left out: the user-to-vault and vault-to-user transfers, the referral `transfer_checked`, `create_token_account`, the pool-creation fee transfer and `sync_native`. Each is assumed to succeed, and the order of the transfers is not modelled.
- Account creation, PDA seeds, bumps and Anchor account constraints other than the mint order are left out.
- The oracle observation update, `token_price_x32` (whose failure would also abort a swap) and the swap event are not modelled. The curve helper sees the ledger, the amounts and a boolean for a signed segmenter call; the segmenter registry check itself is not modelled.
- `emit!` events and `msg!` logging are left out.
- `Clock::get()` is not modelled. The `u64`-cast Unix timestamp and the epoch are parameters, and two reads within one instruction give the same value.
- The bodies of `CurveCalculator`, the transfer-fee helpers, the referral split and lookup, `vault_amount_without_fee`, `get_status_by_bit`, `PoolState::initialize`, `is_supported_mint`, `PartnerType::new` and `calculate_claimable_rewards` are not part of this model. Each is an unconstrained function parameter.
- `LOCK_LP_AMOUNT` and `CALCULATE_REWARDS_ADMIN` are parameters, because their values are not part of this model.
- The unchecked additions in `initialize` (now + 1 and now + `max_open_time`) are modelled as aborting with ArithmeticPanic, which assumes the program is built with overflow checks.
- In `swap_base_output`, the second InvalidVault branch (lines 78-80) cannot be reached after the first vault check (lines 42-44). The model has a single check.
- The rest of the pool account is not modelled: observation key, mints, AMM config, bumps, decimals and the price oracle fields. Only the fields these instructions read or write are kept.
- The withdraw and input-fixed swap instructions are not part of this model.
