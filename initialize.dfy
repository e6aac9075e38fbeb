/** Pool creation (`initialize`): the mint pair is checked, the open time is
    clamped into the configured window, the initial liquidity is the integer
    square root of the product of the two vault amounts, and the creator's
    liquidity record is written with the locked LP held back. */
module InitializeInstruction {
  import opened Base
  import opened PoolStates
  import opened UserPoolLiquidities

  /** The arguments `initialize` hands to `PoolState::initialize`. */
  datatype PoolInitArgs = PoolInitArgs(
    token0VaultAmount: U64,
    token1VaultAmount: U64,
    liquidity: U64,
    openTime: U64,
    maxTradeFeeRate: U64,
    volatilityFactor: U64)

  /** The accounts, the configuration, the clock and the collaborators whose
      code is not part of this model:
      - `token0Supported`/`token1Supported`: `is_supported_mint` of each mint;
      - `vaultAmounts`: the two vault balances read back after the initial
        transfers (the mints' transfer fees already taken);
      - `validateSupply`: `CurveCalculator::validate_supply`;
      - `poolInitialize`: `PoolState::initialize`, giving the new ledger;
      - `lockLpAmount`: the program's `LOCK_LP_AMOUNT`;
      - `now`: the clock's Unix timestamp, cast to `u64`. */
  datatype InitializeContext = InitializeContext(
    token0Mint: Pubkey,
    token1Mint: Pubkey,
    creator: Pubkey,
    poolState: Pubkey,
    token0Supported: Result<bool>,
    token1Supported: Result<bool>,
    disableCreatePool: bool,
    maxOpenTime: U64,
    now: U64,
    vaultAmounts: (U64, U64),
    validateSupply: (U64, U64) -> Result<()>,
    poolInitialize: PoolInitArgs -> Result<PoolLedger>,
    lockLpAmount: U64)

  /** The instruction's arguments. */
  datatype InitializeRequest = InitializeRequest(
    initAmount0: U64,
    initAmount1: U64,
    openTime: U64,
    maxTradeFeeRate: U64,
    volatilityFactor: U64)

  // ---------------------------------------------------------------------
  // Integer square root

  lemma ISqrtStep(n: nat, h: nat)
    requires n >= 4
    requires h * h <= n / 4 < (h + 1) * (h + 1)
    ensures (2 * h) * (2 * h) <= n < (2 * h + 2) * (2 * h + 2)
  {
    var m := n / 4;
    assert n == 4 * m + n % 4 && n % 4 < 4;
    assert (2 * h) * (2 * h) == 4 * (h * h);
    assert (2 * h + 2) * (2 * h + 2) == 4 * ((h + 1) * (h + 1));
  }

  /** The integer square root (`integer_sqrt`): the largest root whose square
      does not exceed `n`. */
  function ISqrt(n: nat): (r: nat)
    ensures r * r <= n < (r + 1) * (r + 1)
    decreases n
  {
    if n == 0 then 0
    else if n < 4 then 1
    else
      var h := ISqrt(n / 4);
      ISqrtStep(n, h);
      if (2 * h + 1) * (2 * h + 1) <= n then 2 * h + 1 else 2 * h
  }

  lemma MulMono(a: nat, b: nat)
    requires a <= b
    ensures a * a <= b * b
  {
    assert a * a <= a * b <= b * b;
  }

  /** The root of the product of two `u64` amounts fits a `u64`, so the
      `as_u64` after the square root never overflows (the conversion would
      panic). */
  lemma LiquidityFitsU64(v0: U64, v1: U64)
    ensures ISqrt(v0 * v1) < U64_LIMIT
  {
    MulLe(v0, 0, v1);
    var p: nat := v0 * v1;
    ProductBound(v0, v1, U64_LIMIT - 1);
    RootBound(p, U64_LIMIT - 1);
  }

  lemma MulLe(k: nat, a: nat, b: nat)
    requires a <= b
    ensures k * a <= k * b
  {
  }

  lemma ProductBound(a: nat, b: nat, m: nat)
    requires a <= m && b <= m
    ensures a * b <= m * m
  {
    MulLe(a, b, m);
    MulLe(m, a, m);
  }

  /** A number at most `m * m` has a root at most `m`. */
  lemma RootBound(n: nat, m: nat)
    requires n <= m * m
    ensures ISqrt(n) <= m
  {
    var r := ISqrt(n);
    assert (m + 1) * (m + 1) == m * m + 2 * m + 1;
    if r > m {
      MulMono(m + 1, r);
    }
  }

  // ---------------------------------------------------------------------
  // Open time

  /** The open time after clamping: a time not after now becomes the next
      second, and the result must not lie beyond now plus the configured
      window. The two additions are unchecked in the program and abort it on
      overflow. */
  function EffectiveOpenTime(openTime: U64, now: U64, maxOpenTime: U64): (r: Result<U64>)
    ensures r.Ok? ==> now < r.value && r.value <= now + maxOpenTime
    ensures r.Ok? && now < openTime ==> r.value == openTime
    ensures r.Ok? && openTime <= now ==> r.value == now + 1
    ensures r.Err? ==> r.error in {ArithmeticPanic, InvalidOpenTime}
    ensures now + maxOpenTime < U64_LIMIT && now < openTime <= now + maxOpenTime ==> r == Ok(openTime)
    ensures now + maxOpenTime < U64_LIMIT && openTime <= now && 0 < maxOpenTime ==> r == Ok(now + 1)
    ensures (&& now + maxOpenTime < U64_LIMIT
             && (openTime <= now ==> now + 1 < U64_LIMIT)
             && (if openTime <= now then now + 1 else openTime) > now + maxOpenTime)
            ==> r == Err(InvalidOpenTime)
    ensures r == Err(ArithmeticPanic) ==> (openTime <= now && now + 1 >= U64_LIMIT) || now + maxOpenTime >= U64_LIMIT
  {
    if openTime <= now && now + 1 >= U64_LIMIT then Err(ArithmeticPanic)
    else
      var clamped := if openTime <= now then now + 1 else openTime;
      if now + maxOpenTime >= U64_LIMIT then Err(ArithmeticPanic)
      else if clamped > now + maxOpenTime then Err(InvalidOpenTime)
      else Ok(clamped)
  }

  // ---------------------------------------------------------------------
  // The instruction on values

  /** The record `initialize` leaves for the creator: the fresh record, with
      the initial amounts as deposited and the liquidity less the locked LP
      as owned. */
  function CreatorRecord(ctx: InitializeContext, req: InitializeRequest, lpOwned: U128): UserPoolLiquidityRecord
  {
    InitialRecord(ctx.creator, ctx.poolState, None, ctx.now).(
      token0Deposited := req.initAmount0,
      token1Deposited := req.initAmount1,
      lpTokensOwned := lpOwned)
  }

  /** The whole of `initialize` on values: the new pool ledger and the
      creator's record, or the error that aborts the transaction. */
  function InitializeSpec(ctx: InitializeContext, req: InitializeRequest): Result<(PoolLedger, UserPoolLiquidityRecord)>
  {
    if !KeyLess(ctx.token0Mint, ctx.token1Mint) then Err(ConstraintRaw)
    else
      var supported0 :- ctx.token0Supported;
      if !supported0 then Err(NotSupportMint)
      else
        var supported1 :- ctx.token1Supported;
        if !supported1 then Err(NotSupportMint)
        else if ctx.disableCreatePool then Err(NotApproved)
        else
          var openTime :- EffectiveOpenTime(req.openTime, ctx.now, ctx.maxOpenTime);
          var validated := ctx.validateSupply(ctx.vaultAmounts.0, ctx.vaultAmounts.1);
          if validated.Err? then Err(validated.error)
          else
            LiquidityFitsU64(ctx.vaultAmounts.0, ctx.vaultAmounts.1);
            var liquidity := ISqrt(ctx.vaultAmounts.0 * ctx.vaultAmounts.1);
            var ledger :- ctx.poolInitialize(PoolInitArgs(
              ctx.vaultAmounts.0, ctx.vaultAmounts.1, liquidity, openTime, req.maxTradeFeeRate, req.volatilityFactor));
            if liquidity < ctx.lockLpAmount then Err(MathOverflow)
            else Ok((ledger, CreatorRecord(ctx, req, liquidity - ctx.lockLpAmount)))
  }

  // ---------------------------------------------------------------------
  // The instruction on the creator's record

  /** The body of the instruction, writing the creator's record in place. On
      an error it may leave the record half written; `Initialize` puts it
      back. */
  method ExecuteInitialize(user: UserPoolLiquidity, ctx: InitializeContext, req: InitializeRequest) returns (r: Result<PoolLedger>)
    modifies user
    ensures var spec := InitializeSpec(ctx, req);
      && (spec.Ok? ==> r == Ok(spec.value.0) && user.Snapshot() == spec.value.1)
      && (spec.Err? ==> r == Err(spec.error))
  {
    if !KeyLess(ctx.token0Mint, ctx.token1Mint) {
      return Err(ConstraintRaw);
    }
    var supported0 :- ctx.token0Supported;
    if !supported0 {
      return Err(NotSupportMint);
    }
    var supported1 :- ctx.token1Supported;
    if !supported1 {
      return Err(NotSupportMint);
    }
    if ctx.disableCreatePool {
      return Err(NotApproved);
    }
    var openTime := req.openTime;
    if openTime <= ctx.now {
      if ctx.now + 1 >= U64_LIMIT {
        return Err(ArithmeticPanic);
      }
      openTime := ctx.now + 1;
    }
    if ctx.now + ctx.maxOpenTime >= U64_LIMIT {
      return Err(ArithmeticPanic);
    }
    if openTime > ctx.now + ctx.maxOpenTime {
      return Err(InvalidOpenTime);
    }
    var (vault0, vault1) := ctx.vaultAmounts;
    var validated := ctx.validateSupply(vault0, vault1);
    if validated.Err? {
      return Err(validated.error);
    }
    LiquidityFitsU64(vault0, vault1);
    var liquidity: U64 := ISqrt(vault0 * vault1);
    var ledger :- ctx.poolInitialize(PoolInitArgs(vault0, vault1, liquidity, openTime, req.maxTradeFeeRate, req.volatilityFactor));
    user.Initialize(ctx.creator, ctx.poolState, None, ctx.now);
    user.token0Deposited := req.initAmount0;
    user.token1Deposited := req.initAmount1;
    if liquidity < ctx.lockLpAmount {
      return Err(MathOverflow);
    }
    user.lpTokensOwned := liquidity - ctx.lockLpAmount;
    r := Ok(ledger);
  }

  /** `initialize` as one transaction: on success it yields the new ledger
      and the creator's record holds `CreatorRecord`; on an error the record
      is as it was. */
  method Initialize(user: UserPoolLiquidity, ctx: InitializeContext, req: InitializeRequest) returns (r: Result<PoolLedger>)
    modifies user
    ensures var spec := InitializeSpec(ctx, req);
      && (spec.Ok? ==> r == Ok(spec.value.0) && user.Snapshot() == spec.value.1)
      && (spec.Err? ==> r == Err(spec.error) && user.Snapshot() == old(user.Snapshot()))
  {
    var saved := user.Snapshot();
    r := ExecuteInitialize(user, ctx, req);
    if r.Err? {
      user.Restore(saved);
    }
  }

  // ---------------------------------------------------------------------
  // Properties of pool creation

  /** A pool can only be created with its mints in ascending key order. */
  lemma InitializeOrdersMints(ctx: InitializeContext, req: InitializeRequest)
    requires InitializeSpec(ctx, req).Ok?
    ensures KeyLess(ctx.token0Mint, ctx.token1Mint)
  {
  }

  /** A mint that is not supported stops the creation of a correctly
      ordered pair. */
  lemma InitializeRejectsUnsupportedMint(ctx: InitializeContext, req: InitializeRequest)
    requires KeyLess(ctx.token0Mint, ctx.token1Mint)
    requires ctx.token0Supported == Ok(false) || (ctx.token0Supported == Ok(true) && ctx.token1Supported == Ok(false))
    ensures InitializeSpec(ctx, req) == Err(NotSupportMint)
  {
  }

  /** A configuration that disables pool creation refuses it once the mints
      pass their checks. */
  lemma InitializeRespectsDisable(ctx: InitializeContext, req: InitializeRequest)
    requires KeyLess(ctx.token0Mint, ctx.token1Mint)
    requires ctx.token0Supported == Ok(true) && ctx.token1Supported == Ok(true)
    requires ctx.disableCreatePool
    ensures InitializeSpec(ctx, req) == Err(NotApproved)
  {
  }

  /** For one pair of mints at most one of the two orders can create a pool:
      in particular a pool of a mint with itself cannot be created, and the
      same pair cannot be created twice with the roles swapped. */
  lemma OneOrderingPerPair(ctx: InitializeContext, req: InitializeRequest, req': InitializeRequest)
    ensures !(InitializeSpec(ctx, req).Ok? && InitializeSpec(ctx.(token0Mint := ctx.token1Mint, token1Mint := ctx.token0Mint), req').Ok?)
  {
    KeyLessAsymmetric(ctx.token0Mint, ctx.token1Mint);
  }

  /** With two different mints exactly one order passes the ordering check. */
  lemma DistinctMintsHaveAnOrder(ctx: InitializeContext)
    requires ctx.token0Mint != ctx.token1Mint
    ensures KeyLess(ctx.token0Mint, ctx.token1Mint) != KeyLess(ctx.token1Mint, ctx.token0Mint)
  {
    KeyLessTotal(ctx.token0Mint, ctx.token1Mint);
    KeyLessAsymmetric(ctx.token0Mint, ctx.token1Mint);
  }

  /** A created pool opens strictly after the creation time and within the
      configured window; a requested open time in the future is kept, any
      other becomes the next second. A window of zero makes creation
      impossible. */
  lemma InitializeOpenTime(ctx: InitializeContext, req: InitializeRequest)
    requires InitializeSpec(ctx, req).Ok?
    ensures EffectiveOpenTime(req.openTime, ctx.now, ctx.maxOpenTime).Ok?
    ensures var t := EffectiveOpenTime(req.openTime, ctx.now, ctx.maxOpenTime).value;
      && ctx.now < t <= ctx.now + ctx.maxOpenTime
      && (ctx.now < req.openTime ==> t == req.openTime)
      && (req.openTime <= ctx.now ==> t == ctx.now + 1)
    ensures 0 < ctx.maxOpenTime
  {
  }

  /** The pool is initialised with the vault balances read back after the
      transfers, the clamped open time, and as liquidity the integer square
      root of the product of those balances. */
  lemma InitializeHandsOverLiquidity(ctx: InitializeContext, req: InitializeRequest)
    requires InitializeSpec(ctx, req).Ok?
    ensures EffectiveOpenTime(req.openTime, ctx.now, ctx.maxOpenTime).Ok?
    ensures var (v0, v1) := ctx.vaultAmounts;
      var liquidity := ISqrt(v0 * v1);
      && liquidity < U64_LIMIT
      && liquidity * liquidity <= v0 * v1 < (liquidity + 1) * (liquidity + 1)
      && ctx.validateSupply(v0, v1).Ok?
      && ctx.poolInitialize(PoolInitArgs(v0, v1, liquidity,
           EffectiveOpenTime(req.openTime, ctx.now, ctx.maxOpenTime).value,
           req.maxTradeFeeRate, req.volatilityFactor)) == Ok(InitializeSpec(ctx, req).value.0)
  {
    LiquidityFitsU64(ctx.vaultAmounts.0, ctx.vaultAmounts.1);
  }

  /** The creator's record: linked to the creator and the pool, with no
      partner, the requested initial amounts as deposited, nothing
      withdrawn, the creation time as first investment, and the liquidity
      less the locked LP as owned. Creation fails when the liquidity does not
      cover the locked LP. */
  lemma InitializeCreatorRecord(ctx: InitializeContext, req: InitializeRequest)
    requires InitializeSpec(ctx, req).Ok?
    ensures var v := InitializeSpec(ctx, req).value.1;
      var liquidity := ISqrt(ctx.vaultAmounts.0 * ctx.vaultAmounts.1);
      && v.user == ctx.creator && v.poolState == ctx.poolState && v.partner == None
      && v.token0Deposited == req.initAmount0 && v.token1Deposited == req.initAmount1
      && v.token0Withdrawn == 0 && v.token1Withdrawn == 0
      && v.firstInvestmentAt == ctx.now
      && v.lpTokensOwned + ctx.lockLpAmount == liquidity
  {
  }
}
