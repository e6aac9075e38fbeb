/** The reward-accrual guard (`calculate_rewards`): an admin-only call that
    brings one provider's reward record up to the current time, at most once
    per instant, anchoring the first accrual at the provider's first
    deposit. */
module CalculateRewardsInstruction {
  import opened Base
  import opened PoolStates
  import opened UserPoolLiquidities

  /** The value of a `UserRewardInfo` account: its links to the reward
      schedule, the provider and the pool, the time rewards were last
      calculated (0 until the first calculation), and the claimable amount
      the accrual keeps. */
  datatype UserRewardRecord = UserRewardRecord(
    rewardInfo: Pubkey,
    user: Pubkey,
    poolState: Pubkey,
    rewardsLastCalculatedAt: U64,
    totalClaimable: U64)

  /** The `UserRewardInfo` account, updated in place. */
  class UserRewardInfo {
    var rewardInfo: Pubkey
    var user: Pubkey
    var poolState: Pubkey
    var rewardsLastCalculatedAt: U64
    var totalClaimable: U64

    /** Loads an account holding the record `r`. */
    constructor (r: UserRewardRecord)
      ensures Snapshot() == r
    {
      rewardInfo, user, poolState := r.rewardInfo, r.user, r.poolState;
      rewardsLastCalculatedAt, totalClaimable := r.rewardsLastCalculatedAt, r.totalClaimable;
    }

    /** The account's current value. */
    function Snapshot(): UserRewardRecord
      reads this
    {
      UserRewardRecord(rewardInfo, user, poolState, rewardsLastCalculatedAt, totalClaimable)
    }

    /** Overwrites the whole account: how the accrual's new record and a
        rolled-back transaction both land in it. */
    method Restore(r: UserRewardRecord)
      modifies this
      ensures Snapshot() == r
    {
      rewardInfo, user, poolState := r.rewardInfo, r.user, r.poolState;
      rewardsLastCalculatedAt, totalClaimable := r.rewardsLastCalculatedAt, r.totalClaimable;
    }
  }

  /** The signer and the admin key, whether this is a test build (where the
      admin check is compiled out), the clock, the keys of the accounts, and
      `calculate_claimable_rewards` — whose code is not part of this model —
      as a function of the record, the provider's LP and the LP supply. */
  datatype RewardsContext = RewardsContext(
    signer: Pubkey,
    admin: Pubkey,
    testBuild: bool,
    now: U64,
    user: Pubkey,
    poolState: Pubkey,
    rewardInfo: Pubkey,
    accrue: (UserRewardRecord, U64, U64) -> Result<UserRewardRecord>)

  /** Rust's `as u64` on a `u128`: the low 64 bits. */
  function TruncateToU64(x: U128): (r: U64)
    ensures x < U64_LIMIT ==> r == x
    ensures r < U64_LIMIT && (x - r) % U64_LIMIT == 0
  {
    x % U64_LIMIT
  }

  /** Whether the signer may run the accrual. */
  predicate Authorized(ctx: RewardsContext)
  {
    ctx.testBuild || ctx.signer == ctx.admin
  }

  /** The record the accrual starts from: a record never calculated before
      starts its window at the provider's first deposit. */
  function Anchored(info: UserRewardRecord, firstInvestmentAt: U64): (r: UserRewardRecord)
    ensures info.rewardsLastCalculatedAt == 0 ==> r.rewardsLastCalculatedAt == firstInvestmentAt
    ensures info.rewardsLastCalculatedAt != 0 ==> r == info
    ensures r.rewardInfo == info.rewardInfo && r.user == info.user && r.poolState == info.poolState
    ensures r.totalClaimable == info.totalClaimable
    ensures r.rewardsLastCalculatedAt == 0 <==> info.rewardsLastCalculatedAt == 0 && firstInvestmentAt == 0
  {
    if info.rewardsLastCalculatedAt == 0 then info.(rewardsLastCalculatedAt := firstInvestmentAt) else info
  }

  /** The whole of `calculate_rewards` on values: the reward record after
      the call, or the error that aborts it. The pool and the provider's
      liquidity record are only read. */
  function CalculateRewardsSpec(ctx: RewardsContext, pool: PoolLedger, liquidity: UserPoolLiquidityRecord, info: UserRewardRecord): Result<UserRewardRecord>
  {
    if !Authorized(ctx) then Err(InvalidOwner)
    else if info.rewardsLastCalculatedAt >= ctx.now then Ok(info)
    else
      var accrued :- ctx.accrue(Anchored(info, liquidity.firstInvestmentAt), TruncateToU64(liquidity.lpTokensOwned), pool.lpSupply);
      Ok(accrued.(rewardInfo := ctx.rewardInfo, user := ctx.user, poolState := ctx.poolState))
  }

  /** The body of the instruction on the reward account. On an error it may
      leave the account half written; `CalculateRewards` puts it back. */
  method ExecuteCalculateRewards(pool: PoolState, liquidity: UserPoolLiquidity, info: UserRewardInfo, ctx: RewardsContext) returns (r: Result<()>)
    modifies info
    ensures var spec := CalculateRewardsSpec(ctx, pool.Snapshot(), liquidity.Snapshot(), old(info.Snapshot()));
      && (spec.Ok? ==> r.Ok? && info.Snapshot() == spec.value)
      && (spec.Err? ==> r == Err(spec.error))
  {
    if !ctx.testBuild && ctx.signer != ctx.admin {
      return Err(InvalidOwner);
    }
    if info.rewardsLastCalculatedAt >= ctx.now {
      return Ok(());
    }
    if info.rewardsLastCalculatedAt == 0 {
      info.rewardsLastCalculatedAt := liquidity.firstInvestmentAt;
    }
    var accrued :- ctx.accrue(info.Snapshot(), TruncateToU64(liquidity.lpTokensOwned), pool.lpSupply);
    info.Restore(accrued);
    info.rewardInfo := ctx.rewardInfo;
    info.user := ctx.user;
    info.poolState := ctx.poolState;
    r := Ok(());
  }

  /** `calculate_rewards` as one transaction: on success the reward account
      holds what `CalculateRewardsSpec` describes; on an error it is as it
      was. The pool and the liquidity record are not written at all. */
  method CalculateRewards(pool: PoolState, liquidity: UserPoolLiquidity, info: UserRewardInfo, ctx: RewardsContext) returns (r: Result<()>)
    modifies info
    ensures var spec := CalculateRewardsSpec(ctx, pool.Snapshot(), liquidity.Snapshot(), old(info.Snapshot()));
      && (spec.Ok? ==> r.Ok? && info.Snapshot() == spec.value)
      && (spec.Err? ==> r == Err(spec.error) && info.Snapshot() == old(info.Snapshot()))
  {
    var saved := info.Snapshot();
    r := ExecuteCalculateRewards(pool, liquidity, info, ctx);
    if r.Err? {
      info.Restore(saved);
    }
  }

  // ---------------------------------------------------------------------
  // Properties of the accrual guard

  /** Outside test builds only the rewards admin may run the accrual. */
  lemma RewardsRequireAdmin(ctx: RewardsContext, pool: PoolLedger, liquidity: UserPoolLiquidityRecord, info: UserRewardRecord)
    requires !ctx.testBuild && ctx.signer != ctx.admin
    ensures CalculateRewardsSpec(ctx, pool, liquidity, info) == Err(InvalidOwner)
  {
  }

  /** A record already calculated at or after the current time is left
      exactly as it is, whatever the accrual would do. */
  lemma RewardsNoOpWhenCurrent(ctx: RewardsContext, pool: PoolLedger, liquidity: UserPoolLiquidityRecord, info: UserRewardRecord)
    requires Authorized(ctx) && info.rewardsLastCalculatedAt >= ctx.now
    ensures CalculateRewardsSpec(ctx, pool, liquidity, info) == Ok(info)
  {
  }

  /** When the accrual runs, it is given the record with its window starting
      at the provider's first deposit if it was never calculated (and at the
      last calculation otherwise), the provider's LP truncated to 64 bits and
      the pool's LP supply; the result carries the links to the schedule,
      the provider and the pool. */
  lemma RewardsAccrualInputs(ctx: RewardsContext, pool: PoolLedger, liquidity: UserPoolLiquidityRecord, info: UserRewardRecord)
    requires CalculateRewardsSpec(ctx, pool, liquidity, info).Ok?
    requires info.rewardsLastCalculatedAt < ctx.now
    ensures var anchored := Anchored(info, liquidity.firstInvestmentAt);
      var accrued := ctx.accrue(anchored, TruncateToU64(liquidity.lpTokensOwned), pool.lpSupply);
      var r := CalculateRewardsSpec(ctx, pool, liquidity, info).value;
      && Authorized(ctx)
      && (info.rewardsLastCalculatedAt == 0 ==> anchored.rewardsLastCalculatedAt == liquidity.firstInvestmentAt)
      && accrued.Ok?
      && r.rewardInfo == ctx.rewardInfo && r.user == ctx.user && r.poolState == ctx.poolState
      && r.rewardsLastCalculatedAt == accrued.value.rewardsLastCalculatedAt
      && r.totalClaimable == accrued.value.totalClaimable
  {
  }

  /** A second call at the same instant changes nothing, as long as the
      first call's accrual moved the record's timestamp up to that instant. */
  lemma RewardsOncePerInstant(ctx: RewardsContext, pool: PoolLedger, liquidity: UserPoolLiquidityRecord, info: UserRewardRecord)
    requires CalculateRewardsSpec(ctx, pool, liquidity, info).Ok?
    requires CalculateRewardsSpec(ctx, pool, liquidity, info).value.rewardsLastCalculatedAt >= ctx.now
    ensures var once := CalculateRewardsSpec(ctx, pool, liquidity, info).value;
      CalculateRewardsSpec(ctx, pool, liquidity, once) == Ok(once)
  {
  }

  /** A provider holding less than 2^64 LP is credited with exactly its
      holding; a larger holding would be taken modulo 2^64. */
  lemma RewardsSeeOwnedLp(x: U128)
    ensures x < U64_LIMIT ==> TruncateToU64(x) == x
    ensures x + U64_LIMIT < U128_LIMIT ==> TruncateToU64(x + U64_LIMIT) == TruncateToU64(x)
  {
  }
}
