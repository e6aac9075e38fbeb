/** The deposit instruction (`deposit_to_gamma_pool`): a liquidity provider
    asks for an amount of LP, pays the two tokens that back it (rounded up),
    and the pool, the provider's record and the provider's partner entry are
    credited. */
module DepositInstruction {
  import opened Base
  import opened PoolStates
  import opened UserPoolLiquidities

  /** `RoundDirection` of the curve calculator. */
  datatype RoundDirection = Floor | Ceiling

  /** What `lp_tokens_to_trading_tokens` returns (`TradingTokenResult`). */
  datatype TradingTokenResult = TradingTokenResult(token0Amount: U128, token1Amount: U128)

  /** The collaborators whose code is not part of this model:
      `lp_tokens_to_trading_tokens` (`None` when it fails), the inverse
      transfer-fee queries of the two mints, and `PartnerType::new`. */
  datatype DepositCollaborators = DepositCollaborators(
    pool: PoolQueries,
    lpTokensToTradingTokens: (U128, U128, U128, U128, RoundDirection) -> Option<TradingTokenResult>,
    token0InverseFee: U64 -> Result<U64>,
    token1InverseFee: U64 -> Result<U64>,
    partnerTypeOf: nat -> PartnerType)

  /** The instruction's arguments and the epoch of the clock. */
  datatype DepositRequest = DepositRequest(
    lpTokenAmount: U64,
    maximumToken0Amount: U64,
    maximumToken1Amount: U64,
    epoch: U64)

  /** The amounts the pool is credited and the amounts the provider pays. */
  datatype DepositQuote = DepositQuote(
    token0Amount: U64,
    token1Amount: U64,
    transferToken0Amount: U64,
    transferToken1Amount: U64)

  /** The checks and amounts of a deposit, in the instruction's order: a
      positive LP amount, the deposit status bit, the reserves without
      fees, the backing tokens rounded up (both non-zero), the inverse
      transfer fees, and the slippage bounds. */
  function DepositQuoteOf(l: PoolLedger, c: DepositCollaborators, req: DepositRequest): Result<DepositQuote>
  {
    if req.lpTokenAmount == 0 then Err(RequireGtViolated)
    else if !c.pool.statusEnabled(l.status, Deposit) then Err(NotApproved)
    else
      var reserves :- c.pool.vaultAmountWithoutFee(l);
      match c.lpTokensToTradingTokens(req.lpTokenAmount, l.lpSupply, reserves.0, reserves.1, Ceiling)
      case None => Err(ZeroTradingTokens)
      case Some(results) =>
        if results.token0Amount == 0 || results.token1Amount == 0 then Err(ZeroTradingTokens)
        else if results.token0Amount >= U64_LIMIT then Err(MathOverflow)
        else
          var fee0 :- c.token0InverseFee(results.token0Amount);
          if results.token0Amount + fee0 >= U64_LIMIT then Err(MathOverflow)
          else if results.token1Amount >= U64_LIMIT then Err(MathOverflow)
          else
            var fee1 :- c.token1InverseFee(results.token1Amount);
            if results.token1Amount + fee1 >= U64_LIMIT then Err(MathOverflow)
            else if results.token0Amount + fee0 > req.maximumToken0Amount
              || results.token1Amount + fee1 > req.maximumToken1Amount then Err(ExceededSlippage)
            else Ok(DepositQuote(results.token0Amount, results.token1Amount,
                                 results.token0Amount + fee0, results.token1Amount + fee1))
  }

  /** The first entry of the partner table that belongs to `partner`, as
      `Iterator::find` picks it. */
  function FirstMatch(ps: seq<PartnerInfo>, partner: PartnerType, partnerTypeOf: nat -> PartnerType): (r: Option<nat>)
    ensures r.Some? ==> r.value < |ps| && partnerTypeOf(ps[r.value].partnerId) == partner
    ensures r.Some? ==> forall j :: 0 <= j < r.value ==> partnerTypeOf(ps[j].partnerId) != partner
    ensures r.None? <==> forall j :: 0 <= j < |ps| ==> partnerTypeOf(ps[j].partnerId) != partner
    decreases |ps|
  {
    if |ps| == 0 then None
    else if partnerTypeOf(ps[0].partnerId) == partner then Some(0)
    else match FirstMatch(ps[1..], partner, partnerTypeOf)
      case None => None
      case Some(i) => Some(i + 1)
  }

  /** The partner table after a deposit: a provider affiliated with a partner
      that has an entry adds the new LP to the first such entry; otherwise
      the table is unchanged. */
  function LinkPartner(ps: seq<PartnerInfo>, partner: Option<PartnerType>, lp: U64, partnerTypeOf: nat -> PartnerType): Result<seq<PartnerInfo>>
  {
    if partner.None? then Ok(ps)
    else match FirstMatch(ps, partner.value, partnerTypeOf)
      case None => Ok(ps)
      case Some(i) =>
        if ps[i].lpTokenLinkedWithPartner + lp >= U64_LIMIT then Err(MathOverflow)
        else Ok(ps[i := ps[i].(lpTokenLinkedWithPartner := ps[i].lpTokenLinkedWithPartner + lp)])
  }

  /** The whole deposit on values: the pool's ledger, the provider's record
      and the quote, or the error that aborts the transaction. */
  function DepositSpec(l: PoolLedger, u: UserPoolLiquidityRecord, c: DepositCollaborators, req: DepositRequest): Result<(PoolLedger, UserPoolLiquidityRecord, DepositQuote)>
  {
    var q :- DepositQuoteOf(l, c, req);
    if l.token0VaultAmount + q.token0Amount >= U64_LIMIT
      || l.token1VaultAmount + q.token1Amount >= U64_LIMIT
      || l.lpSupply + req.lpTokenAmount >= U64_LIMIT then Err(MathOverflow)
    else if u.token0Deposited + q.token0Amount >= U128_LIMIT
      || u.token1Deposited + q.token1Amount >= U128_LIMIT
      || u.lpTokensOwned + req.lpTokenAmount >= U128_LIMIT then Err(MathOverflow)
    else
      var partners :- LinkPartner(l.partners, u.partner, req.lpTokenAmount, c.partnerTypeOf);
      Ok((
        l.(token0VaultAmount := l.token0VaultAmount + q.token0Amount,
           token1VaultAmount := l.token1VaultAmount + q.token1Amount,
           lpSupply := l.lpSupply + req.lpTokenAmount,
           recentEpoch := req.epoch,
           partners := partners),
        u.(token0Deposited := u.token0Deposited + q.token0Amount,
           token1Deposited := u.token1Deposited + q.token1Amount,
           lpTokensOwned := u.lpTokensOwned + req.lpTokenAmount),
        q))
  }

  // ---------------------------------------------------------------------
  // The instruction on the accounts

  /** The checks and amounts, read from the pool account. */
  method QuoteDeposit(pool: PoolState, c: DepositCollaborators, req: DepositRequest) returns (r: Result<DepositQuote>)
    ensures r == DepositQuoteOf(pool.Snapshot(), c, req)
  {
    if req.lpTokenAmount == 0 {
      return Err(RequireGtViolated);
    }
    if !c.pool.statusEnabled(pool.status, Deposit) {
      return Err(NotApproved);
    }
    var reserves :- c.pool.vaultAmountWithoutFee(pool.Snapshot());
    var outcome := c.lpTokensToTradingTokens(req.lpTokenAmount, pool.lpSupply, reserves.0, reserves.1, Ceiling);
    if outcome.None? {
      return Err(ZeroTradingTokens);
    }
    var results := outcome.value;
    if results.token0Amount == 0 || results.token1Amount == 0 {
      return Err(ZeroTradingTokens);
    }
    if results.token0Amount >= U64_LIMIT {
      return Err(MathOverflow);
    }
    var token0Amount: U64 := results.token0Amount;
    var fee0 :- c.token0InverseFee(token0Amount);
    if token0Amount + fee0 >= U64_LIMIT {
      return Err(MathOverflow);
    }
    var transfer0: U64 := token0Amount + fee0;
    if results.token1Amount >= U64_LIMIT {
      return Err(MathOverflow);
    }
    var token1Amount: U64 := results.token1Amount;
    var fee1 :- c.token1InverseFee(token1Amount);
    if token1Amount + fee1 >= U64_LIMIT {
      return Err(MathOverflow);
    }
    var transfer1: U64 := token1Amount + fee1;
    if transfer0 > req.maximumToken0Amount || transfer1 > req.maximumToken1Amount {
      return Err(ExceededSlippage);
    }
    r := Ok(DepositQuote(token0Amount, token1Amount, transfer0, transfer1));
  }

  /** The `find` over the partner table, front to back. */
  method FindPartner(ps: seq<PartnerInfo>, partner: PartnerType, partnerTypeOf: nat -> PartnerType) returns (r: Option<nat>)
    ensures r == FirstMatch(ps, partner, partnerTypeOf)
  {
    var i := 0;
    while i < |ps|
      invariant 0 <= i <= |ps|
      invariant forall j :: 0 <= j < i ==> partnerTypeOf(ps[j].partnerId) != partner
    {
      if partnerTypeOf(ps[i].partnerId) == partner {
        return Some(i);
      }
      i := i + 1;
    }
    return None;
  }

  /** The pool's vault amounts and LP supply grow by the deposit. */
  method CreditPool(pool: PoolState, q: DepositQuote, lp: U64) returns (r: Result<()>)
    modifies pool`token0VaultAmount, pool`token1VaultAmount, pool`lpSupply
    ensures old(pool.token0VaultAmount) + q.token0Amount < U64_LIMIT
      && old(pool.token1VaultAmount) + q.token1Amount < U64_LIMIT
      && old(pool.lpSupply) + lp < U64_LIMIT
      <==> r.Ok?
    ensures r.Err? ==> r.error == MathOverflow
    ensures r.Ok? ==>
      && pool.token0VaultAmount == old(pool.token0VaultAmount) + q.token0Amount
      && pool.token1VaultAmount == old(pool.token1VaultAmount) + q.token1Amount
      && pool.lpSupply == old(pool.lpSupply) + lp
    ensures r.Ok? ==> pool.Snapshot() == old(pool.Snapshot()).(
      token0VaultAmount := old(pool.token0VaultAmount) + q.token0Amount,
      token1VaultAmount := old(pool.token1VaultAmount) + q.token1Amount,
      lpSupply := old(pool.lpSupply) + lp)
  {
    if pool.token0VaultAmount + q.token0Amount >= U64_LIMIT {
      return Err(MathOverflow);
    }
    pool.token0VaultAmount := pool.token0VaultAmount + q.token0Amount;
    if pool.token1VaultAmount + q.token1Amount >= U64_LIMIT {
      return Err(MathOverflow);
    }
    pool.token1VaultAmount := pool.token1VaultAmount + q.token1Amount;
    if pool.lpSupply + lp >= U64_LIMIT {
      return Err(MathOverflow);
    }
    pool.lpSupply := pool.lpSupply + lp;
    r := Ok(());
  }

  /** The provider's deposited counters and LP balance grow by the deposit. */
  method CreditUser(user: UserPoolLiquidity, q: DepositQuote, lp: U64) returns (r: Result<()>)
    modifies user`token0Deposited, user`token1Deposited, user`lpTokensOwned
    ensures old(user.token0Deposited) + q.token0Amount < U128_LIMIT
      && old(user.token1Deposited) + q.token1Amount < U128_LIMIT
      && old(user.lpTokensOwned) + lp < U128_LIMIT
      <==> r.Ok?
    ensures r.Err? ==> r.error == MathOverflow
    ensures r.Ok? ==>
      && user.token0Deposited == old(user.token0Deposited) + q.token0Amount
      && user.token1Deposited == old(user.token1Deposited) + q.token1Amount
      && user.lpTokensOwned == old(user.lpTokensOwned) + lp
    ensures r.Ok? ==> user.Snapshot() == old(user.Snapshot()).(
      token0Deposited := old(user.token0Deposited) + q.token0Amount,
      token1Deposited := old(user.token1Deposited) + q.token1Amount,
      lpTokensOwned := old(user.lpTokensOwned) + lp)
  {
    if user.token0Deposited + q.token0Amount >= U128_LIMIT {
      return Err(MathOverflow);
    }
    user.token0Deposited := user.token0Deposited + q.token0Amount;
    if user.token1Deposited + q.token1Amount >= U128_LIMIT {
      return Err(MathOverflow);
    }
    user.token1Deposited := user.token1Deposited + q.token1Amount;
    if user.lpTokensOwned + lp >= U128_LIMIT {
      return Err(MathOverflow);
    }
    user.lpTokensOwned := user.lpTokensOwned + lp;
    r := Ok(());
  }

  /** The partner step: a copy of the table, the `find`, the checked add, and
      the write-back. */
  method LinkPartnerOnPool(pool: PoolState, partner: Option<PartnerType>, lp: U64, partnerTypeOf: nat -> PartnerType) returns (r: Result<()>)
    modifies pool.partners
    ensures LinkPartner(old(pool.partners[..]), partner, lp, partnerTypeOf).Ok? ==>
      r.Ok? && pool.partners[..] == LinkPartner(old(pool.partners[..]), partner, lp, partnerTypeOf).value
    ensures LinkPartner(old(pool.partners[..]), partner, lp, partnerTypeOf).Err? ==> r == Err(MathOverflow)
  {
    if partner.None? {
      return Ok(());
    }
    var partners := pool.partners[..];
    var found := FindPartner(partners, partner.value, partnerTypeOf);
    if found.Some? {
      var i := found.value;
      if partners[i].lpTokenLinkedWithPartner + lp >= U64_LIMIT {
        return Err(MathOverflow);
      }
      partners := partners[i := partners[i].(lpTokenLinkedWithPartner := partners[i].lpTokenLinkedWithPartner + lp)];
    }
    pool.WritePartners(partners);
    r := Ok(());
  }

  /** The body of the instruction. On an error it may leave the accounts
      half written; `DepositToGammaPool` puts them back. */
  method ExecuteDeposit(pool: PoolState, user: UserPoolLiquidity, c: DepositCollaborators, req: DepositRequest) returns (r: Result<DepositQuote>)
    modifies pool, pool.partners, user
    ensures var spec := DepositSpec(old(pool.Snapshot()), old(user.Snapshot()), c, req);
      && (spec.Ok? ==> r == Ok(spec.value.2) && pool.Snapshot() == spec.value.0 && user.Snapshot() == spec.value.1)
      && (spec.Err? ==> r == Err(spec.error))
  {
    ghost var l := pool.Snapshot();
    ghost var u := user.Snapshot();
    var q :- QuoteDeposit(pool, c, req);
    var credited := CreditPool(pool, q, req.lpTokenAmount);
    if credited.Err? {
      return Err(credited.error);
    }
    credited := CreditUser(user, q, req.lpTokenAmount);
    if credited.Err? {
      return Err(credited.error);
    }
    pool.recentEpoch := req.epoch;
    credited := LinkPartnerOnPool(pool, user.partner, req.lpTokenAmount, c.partnerTypeOf);
    if credited.Err? {
      return Err(credited.error);
    }
    assert pool.Snapshot() == l.(
      token0VaultAmount := l.token0VaultAmount + q.token0Amount,
      token1VaultAmount := l.token1VaultAmount + q.token1Amount,
      lpSupply := l.lpSupply + req.lpTokenAmount,
      recentEpoch := req.epoch,
      partners := pool.partners[..]);
    r := Ok(q);
  }

  /** `deposit_to_gamma_pool` as one transaction: on success the pool and the
      provider's record hold what `DepositSpec` describes; on an error both
      accounts are as they were. */
  method DepositToGammaPool(pool: PoolState, user: UserPoolLiquidity, c: DepositCollaborators, req: DepositRequest) returns (r: Result<DepositQuote>)
    modifies pool, pool.partners, user
    ensures var spec := DepositSpec(old(pool.Snapshot()), old(user.Snapshot()), c, req);
      && (spec.Ok? ==> r == Ok(spec.value.2) && pool.Snapshot() == spec.value.0 && user.Snapshot() == spec.value.1)
      && (spec.Err? ==> r == Err(spec.error) && pool.Snapshot() == old(pool.Snapshot()) && user.Snapshot() == old(user.Snapshot()))
  {
    var savedPool := pool.Snapshot();
    var savedUser := user.Snapshot();
    r := ExecuteDeposit(pool, user, c, req);
    if r.Err? {
      pool.Restore(savedPool);
      user.Restore(savedUser);
    }
  }

  // ---------------------------------------------------------------------
  // Properties of the deposit

  /** A deposit of no LP is refused. */
  lemma DepositZeroRejected(l: PoolLedger, u: UserPoolLiquidityRecord, c: DepositCollaborators, req: DepositRequest)
    requires req.lpTokenAmount == 0
    ensures DepositSpec(l, u, c, req) == Err(RequireGtViolated)
  {
  }

  /** A pool whose deposit bit is off refuses deposits. */
  lemma DepositRequiresApproval(l: PoolLedger, u: UserPoolLiquidityRecord, c: DepositCollaborators, req: DepositRequest)
    requires req.lpTokenAmount > 0 && !c.pool.statusEnabled(l.status, Deposit)
    ensures DepositSpec(l, u, c, req) == Err(NotApproved)
  {
  }

  /** A deposit the curve cannot back with both tokens (no answer, or a zero
      amount of either token) is refused with ZeroTradingTokens. */
  lemma DepositNeedsTradingTokens(l: PoolLedger, u: UserPoolLiquidityRecord, c: DepositCollaborators, req: DepositRequest)
    requires req.lpTokenAmount > 0 && c.pool.statusEnabled(l.status, Deposit)
    requires c.pool.vaultAmountWithoutFee(l).Ok?
    requires var reserves := c.pool.vaultAmountWithoutFee(l).value;
      var answer := c.lpTokensToTradingTokens(req.lpTokenAmount, l.lpSupply, reserves.0, reserves.1, Ceiling);
      answer.None? || answer.value.token0Amount == 0 || answer.value.token1Amount == 0
    ensures DepositSpec(l, u, c, req) == Err(ZeroTradingTokens)
  {
  }

  /** What a successful deposit pays: the curve's rounded-up backing for the
      requested LP, both amounts positive, each grossed up by its mint's
      inverse transfer fee and within the provider's maximum. */
  lemma DepositWithinMaximum(l: PoolLedger, u: UserPoolLiquidityRecord, c: DepositCollaborators, req: DepositRequest)
    requires DepositSpec(l, u, c, req).Ok?
    ensures c.pool.vaultAmountWithoutFee(l).Ok?
    ensures var q := DepositSpec(l, u, c, req).value.2;
      var reserves := c.pool.vaultAmountWithoutFee(l).value;
      && c.lpTokensToTradingTokens(req.lpTokenAmount, l.lpSupply, reserves.0, reserves.1, Ceiling)
           == Some(TradingTokenResult(q.token0Amount, q.token1Amount))
      && 0 < q.token0Amount && 0 < q.token1Amount
      && c.token0InverseFee(q.token0Amount).Ok? && c.token1InverseFee(q.token1Amount).Ok?
      && q.transferToken0Amount == q.token0Amount + c.token0InverseFee(q.token0Amount).value
      && q.transferToken1Amount == q.token1Amount + c.token1InverseFee(q.token1Amount).value
      && q.transferToken0Amount <= req.maximumToken0Amount
      && q.transferToken1Amount <= req.maximumToken1Amount
  {
  }

  /** The other half of the slippage bound: a deposit whose amounts pass
      every check with no maximum at all, but whose transfer of either token
      exceeds the provider's maximum, is refused with ExceededSlippage. */
  lemma DepositSlippageRejected(l: PoolLedger, u: UserPoolLiquidityRecord, c: DepositCollaborators, req: DepositRequest)
    requires DepositQuoteOf(l, c, req.(maximumToken0Amount := U64_LIMIT - 1, maximumToken1Amount := U64_LIMIT - 1)).Ok?
    requires var q := DepositQuoteOf(l, c, req.(maximumToken0Amount := U64_LIMIT - 1, maximumToken1Amount := U64_LIMIT - 1)).value;
      q.transferToken0Amount > req.maximumToken0Amount || q.transferToken1Amount > req.maximumToken1Amount
    ensures DepositSpec(l, u, c, req) == Err(ExceededSlippage)
  {
  }

  /** The LP minted to the pool's supply is exactly the LP credited to the
      provider, and the tokens the vaults are credited are exactly the tokens
      the provider's record counts as deposited; apart from those, the epoch
      and the partner table, nothing of the ledger or of the record changes. */
  lemma DepositBalancesShares(l: PoolLedger, u: UserPoolLiquidityRecord, c: DepositCollaborators, req: DepositRequest)
    requires DepositSpec(l, u, c, req).Ok?
    ensures var (n, v, q) := DepositSpec(l, u, c, req).value;
      && n.lpSupply - l.lpSupply == v.lpTokensOwned - u.lpTokensOwned == req.lpTokenAmount
      && n.token0VaultAmount - l.token0VaultAmount == v.token0Deposited - u.token0Deposited == q.token0Amount
      && n.token1VaultAmount - l.token1VaultAmount == v.token1Deposited - u.token1Deposited == q.token1Amount
      && v.token0Withdrawn == u.token0Withdrawn && v.token1Withdrawn == u.token1Withdrawn
      && v.user == u.user && v.poolState == u.poolState && v.partner == u.partner
      && v.firstInvestmentAt == u.firstInvestmentAt
      && n.protocolFeesToken0 == l.protocolFeesToken0 && n.protocolFeesToken1 == l.protocolFeesToken1
      && n.fundFeesToken0 == l.fundFeesToken0 && n.fundFeesToken1 == l.fundFeesToken1
      && n.recentEpoch == req.epoch
      && n == l.(lpSupply := n.lpSupply, token0VaultAmount := n.token0VaultAmount,
                 token1VaultAmount := n.token1VaultAmount, recentEpoch := n.recentEpoch, partners := n.partners)
      && v == u.(lpTokensOwned := v.lpTokensOwned, token0Deposited := v.token0Deposited,
                 token1Deposited := v.token1Deposited)
  {
  }

  /** The partner table after a successful deposit: without an affiliation
      or without a matching entry it is unchanged; otherwise exactly the
      first matching entry gains the deposited LP. */
  lemma DepositLinksPartner(l: PoolLedger, u: UserPoolLiquidityRecord, c: DepositCollaborators, req: DepositRequest)
    requires DepositSpec(l, u, c, req).Ok?
    ensures var n := DepositSpec(l, u, c, req).value.0;
      && |n.partners| == |l.partners|
      && (u.partner.None? ==> n.partners == l.partners)
      && (u.partner.Some? ==> forall j :: 0 <= j < |l.partners| ==>
            if FirstMatch(l.partners, u.partner.value, c.partnerTypeOf) == Some(j)
            then n.partners[j] == l.partners[j].(lpTokenLinkedWithPartner := l.partners[j].lpTokenLinkedWithPartner + req.lpTokenAmount)
            else n.partners[j] == l.partners[j])
  {
  }
}
