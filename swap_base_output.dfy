/** The output-fixed swap (`swap_base_output`): the trader names the net
    amount to receive, the curve solves for the input, and the pool ledger
    is settled for one trade direction. */
module SwapInstruction {
  import opened Base
  import opened PoolStates

  datatype TradeDirection = ZeroForOne | OneForZero

  /** What `CurveCalculator::swap_base_output` returns (`SwapResult`). */
  datatype SwapResult = SwapResult(
    newSwapSourceAmount: U128,
    newSwapDestinationAmount: U128,
    sourceAmountSwapped: U128,
    destinationAmountSwapped: U128,
    dynamicFee: U128,
    protocolFee: U128,
    fundFee: U128,
    dynamicFeeRate: U64)

  /** What `get_referral_amount` returns for one fee: the rebate and the fee
      that remains after it. */
  datatype ReferralSplit = ReferralSplit(referralAmount: U64, amountAfterReferral: U64)

  /** The collaborators whose code is not part of this model.
      - `referralInfo`: the outcome of `extract_referral_info`; when a
        referral is present it is the `get_referral_amount` of that referral;
      - `curve`: `CurveCalculator::swap_base_output` applied to the gross
        output, the input and output reserves, the pool, and whether a
        registered segmenter signed (`None` for its error);
      - the transfer-fee queries of the input and output mints. */
  datatype SwapCollaborators = SwapCollaborators(
    pool: PoolQueries,
    referralInfo: Result<Option<U64 -> Result<ReferralSplit>>>,
    curve: (U128, U128, U128, PoolLedger, bool) -> Option<SwapResult>,
    inputInverseFee: U64 -> Result<U64>,
    outputInverseFee: U64 -> Result<U64>,
    inputTransferFee: U64 -> Result<U64>)

  /** The instruction's arguments, the vaults it names, the clock, and
      whether a registered segmenter signed the transaction. */
  datatype SwapRequest = SwapRequest(
    inputVault: Pubkey,
    outputVault: Pubkey,
    maxAmountIn: U64,
    amountOutLessFee: U64,
    blockTimestamp: U64,
    epoch: U64,
    invokedBySignedSegmenter: bool)

  /** The amounts the referral rebate acts on, and the rebate if one is paid. */
  datatype Settlement = Settlement(
    inputTransferAmount: U64,
    sourceAmountSwapped: U64,
    protocolFee: U64,
    fundFee: U64,
    referralAmount: Option<U64>)

  /** Everything the swap computes before it writes the ledger. */
  datatype SwapQuote = SwapQuote(
    direction: TradeDirection,
    reserveIn: U64,
    reserveOut: U64,
    curve: SwapResult,
    constantBefore: U128,
    constantAfter: U128,
    outputTransferAmount: U64,
    outputTransferFee: U64,
    inputTransferFee: U64,
    dynamicFee: U64,
    settlement: Settlement)

  /** The token movements the swap hands to the token program. */
  datatype SwapReceipt = SwapReceipt(
    inputTransferAmount: U64,
    outputTransferAmount: U64,
    referralAmount: Option<U64>)

  /** The fixed-point scale of a partner's share of the pool. */
  const DECIMAL_NUMBER: nat := 100000

  // ---------------------------------------------------------------------
  // Direction

  function SourceVault(l: PoolLedger, d: TradeDirection): Pubkey
  {
    if d == ZeroForOne then l.token0Vault else l.token1Vault
  }

  function DestinationVault(l: PoolLedger, d: TradeDirection): Pubkey
  {
    if d == ZeroForOne then l.token1Vault else l.token0Vault
  }

  /** The direction whose source and destination vaults are the ones the
      trader named; any other pair of vaults is rejected. */
  function ResolveDirection(inputVault: Pubkey, outputVault: Pubkey, l: PoolLedger): (r: Result<TradeDirection>)
    ensures r.Ok? ==> inputVault == SourceVault(l, r.value) && outputVault == DestinationVault(l, r.value)
    ensures r.Err? <==> forall d: TradeDirection :: !(inputVault == SourceVault(l, d) && outputVault == DestinationVault(l, d))
    ensures r.Err? ==> r.error == InvalidVault
  {
    if inputVault == l.token0Vault && outputVault == l.token1Vault then Ok(ZeroForOne)
    else if inputVault == l.token1Vault && outputVault == l.token0Vault then Ok(OneForZero)
    else Err(InvalidVault)
  }

  /** The reserves as (input side, output side). */
  function Oriented(d: TradeDirection, reserves: (U64, U64)): (U64, U64)
  {
    if d == ZeroForOne then reserves else (reserves.1, reserves.0)
  }

  lemma ProductFitsU128(a: U64, b: U64)
    ensures a * b < U128_LIMIT
  {
    MulLeRight(a, U64_LIMIT - 1, b);
    MulLeRight(b, U64_LIMIT - 1, U64_LIMIT - 1);
    assert (U64_LIMIT - 1) * b == b * (U64_LIMIT - 1);
  }

  // ---------------------------------------------------------------------
  // Referral rebate

  /** The rebate is paid only when it is non-zero and the input mint's
      transfer fee on it would not swallow it. */
  predicate RebateApplies(amount: U64, fee: U64)
  {
    amount != 0 && fee < amount
  }

  /** The rebate a referral takes out of the protocol and fund fees: the
      rebates of the two splits, added with overflow checking. */
  function ReferralTotal(split: U64 -> Result<ReferralSplit>, protocolFee: U64, fundFee: U64): (r: Result<U64>)
    ensures r.Ok? ==>
      && split(protocolFee).Ok? && split(fundFee).Ok?
      && r.value == split(protocolFee).value.referralAmount + split(fundFee).value.referralAmount
    ensures (&& split(protocolFee).Ok? && split(fundFee).Ok?
             && split(protocolFee).value.referralAmount + split(fundFee).value.referralAmount < U64_LIMIT)
            ==> r == Ok(split(protocolFee).value.referralAmount + split(fundFee).value.referralAmount)
    ensures split(protocolFee).Err? ==> r == Err(split(protocolFee).error)
    ensures split(protocolFee).Ok? && split(fundFee).Err? ==> r == Err(split(fundFee).error)
    ensures split(protocolFee).Ok? && split(fundFee).Ok? && r.Err? ==> r.error == MathOverflow
  {
    var fromProtocol :- split(protocolFee);
    var fromFund :- split(fundFee);
    if fromProtocol.referralAmount + fromFund.referralAmount >= U64_LIMIT then Err(MathOverflow)
    else Ok(fromProtocol.referralAmount + fromFund.referralAmount)
  }

  /** The referral carve-out, all or nothing: without a referral, or when the
      rebate does not apply, nothing changes; when it applies, the payer's
      transfer and the amount credited to the pool both drop by exactly the
      rebate, and the protocol and fund fees become what remains after it. */
  function ApplyReferral(s: Settlement, referral: Option<U64 -> Result<ReferralSplit>>, transferFee: U64 -> Result<U64>): (r: Result<Settlement>)
    requires s.referralAmount.None?
    ensures referral.None? ==> r == Ok(s)
    ensures r.Ok? && r.value.referralAmount.None? ==> r.value == s
    ensures r.Ok? && referral.Some? ==>
      && ReferralTotal(referral.value, s.protocolFee, s.fundFee).Ok?
      && transferFee(ReferralTotal(referral.value, s.protocolFee, s.fundFee).value).Ok?
      && (r.value.referralAmount.Some? <==>
            RebateApplies(ReferralTotal(referral.value, s.protocolFee, s.fundFee).value,
                          transferFee(ReferralTotal(referral.value, s.protocolFee, s.fundFee).value).value))
    ensures r.Ok? && r.value.referralAmount.Some? ==>
      && referral.Some?
      && ReferralTotal(referral.value, s.protocolFee, s.fundFee) == Ok(r.value.referralAmount.value)
      && r.value.inputTransferAmount + r.value.referralAmount.value == s.inputTransferAmount
      && r.value.sourceAmountSwapped + r.value.referralAmount.value == s.sourceAmountSwapped
      && referral.value(s.protocolFee).Ok? && r.value.protocolFee == referral.value(s.protocolFee).value.amountAfterReferral
      && referral.value(s.fundFee).Ok? && r.value.fundFee == referral.value(s.fundFee).value.amountAfterReferral
    ensures (&& r.Err? && referral.Some?
             && ReferralTotal(referral.value, s.protocolFee, s.fundFee).Ok?
             && transferFee(ReferralTotal(referral.value, s.protocolFee, s.fundFee).value).Ok?)
            ==> r.error == MathError
    ensures (&& referral.Some? && ReferralTotal(referral.value, s.protocolFee, s.fundFee).Ok?
             && transferFee(ReferralTotal(referral.value, s.protocolFee, s.fundFee).value).Ok?)
            ==> (r.Err? <==>
                 (&& RebateApplies(ReferralTotal(referral.value, s.protocolFee, s.fundFee).value,
                                   transferFee(ReferralTotal(referral.value, s.protocolFee, s.fundFee).value).value)
                  && (|| s.inputTransferAmount < ReferralTotal(referral.value, s.protocolFee, s.fundFee).value
                      || s.sourceAmountSwapped < ReferralTotal(referral.value, s.protocolFee, s.fundFee).value)))
  {
    match referral
    case None => Ok(s)
    case Some(split) =>
      var amount :- ReferralTotal(split, s.protocolFee, s.fundFee);
      var fee :- transferFee(amount);
      if !RebateApplies(amount, fee) then Ok(s)
      else if s.inputTransferAmount < amount || s.sourceAmountSwapped < amount then Err(MathError)
      else Ok(Settlement(
        s.inputTransferAmount - amount,
        s.sourceAmountSwapped - amount,
        split(s.protocolFee).value.amountAfterReferral,
        split(s.fundFee).value.amountAfterReferral,
        Some(amount)))
  }

  // ---------------------------------------------------------------------
  // Partner fee metrics

  /** A partner's share of the protocol fee: its linked LP scaled by
      DECIMAL_NUMBER over the LP supply, times the fee, scaled back. Every
      checked step that fails, including the division by an empty supply,
      reports MathOverflow. */
  function PartnerFee(linked: U64, protocolFee: U64, lpSupply: U64): (r: Result<U64>)
    ensures lpSupply == 0 ==> r == Err(MathOverflow)
    ensures r.Err? ==> r.error == MathOverflow
    ensures r.Ok? <==>
      && lpSupply > 0
      && linked * DECIMAL_NUMBER < U64_LIMIT
      && protocolFee * TvlShare(linked, lpSupply) < U64_LIMIT
    ensures r.Ok? ==> r.value == FeeShare(protocolFee, TvlShare(linked, lpSupply))
  {
    if linked * DECIMAL_NUMBER >= U64_LIMIT || lpSupply == 0 then Err(MathOverflow)
    else
      var tvlShare := TvlShare(linked, lpSupply);
      if protocolFee * tvlShare >= U64_LIMIT then Err(MathOverflow)
      else Ok(FeeShare(protocolFee, tvlShare))
  }

  /** The partner's share of the LP supply in units of 1/DECIMAL_NUMBER,
      rounded down. */
  function TvlShare(linked: U64, lpSupply: U64): (t: nat)
    requires lpSupply > 0
    ensures t * lpSupply <= linked * DECIMAL_NUMBER < (t + 1) * lpSupply
  {
    linked * DECIMAL_NUMBER / lpSupply
  }

  /** The fee times a share in units of 1/DECIMAL_NUMBER, rounded down. */
  function FeeShare(protocolFee: U64, t: nat): (v: nat)
    ensures v <= protocolFee * t
    ensures v * DECIMAL_NUMBER <= protocolFee * t < (v + 1) * DECIMAL_NUMBER
  {
    protocolFee * t / DECIMAL_NUMBER
  }

  lemma MulLeRight(a: nat, b: nat, c: nat)
    requires a <= b
    ensures a * c <= b * c
  {
  }

  lemma CancelRight(x: nat, y: nat, d: nat)
    requires d > 0 && x * d <= y * d
    ensures x <= y
  {
    if x > y {
      MulLeRight(y + 1, x, d);
    }
  }

  /** Two floor divisions in a row never round up. */
  lemma ScaledBound(v: nat, t: nat, fee: nat, linked: nat, supply: nat, scale: nat)
    requires scale > 0
    requires t * supply <= linked * scale
    requires v * scale <= fee * t
    ensures v * supply <= fee * linked
  {
    var a := v * scale;
    var b := fee * t;
    MulLeRight(a, b, supply);
    assert v * supply * scale == a * supply;
    assert b * supply == fee * (t * supply);
    MulLeRight(t * supply, linked * scale, fee);
    assert (t * supply) * fee == fee * (t * supply);
    assert (linked * scale) * fee == fee * linked * scale;
    CancelRight(v * supply, fee * linked, scale);
  }

  /** A partner is credited at most its pro-rata share of the protocol fee
      (rounding only ever lowers it), so a partner whose linked LP does not
      exceed the supply is never credited more than the whole fee. */
  lemma PartnerFeeProRata(linked: U64, protocolFee: U64, lpSupply: U64)
    requires PartnerFee(linked, protocolFee, lpSupply).Ok?
    ensures PartnerFee(linked, protocolFee, lpSupply).value * lpSupply <= protocolFee * linked
    ensures linked <= lpSupply ==> PartnerFee(linked, protocolFee, lpSupply).value <= protocolFee
  {
    var t := TvlShare(linked, lpSupply);
    var v := FeeShare(protocolFee, t);
    assert PartnerFee(linked, protocolFee, lpSupply).value == v;
    ScaledBound(v, t, protocolFee, linked, lpSupply, DECIMAL_NUMBER);
    if linked <= lpSupply {
      MulLeRight(linked, lpSupply, protocolFee);
      assert protocolFee * linked <= protocolFee * lpSupply;
      CancelRight(v, protocolFee, lpSupply);
    }
  }

  /** The partner accumulator that a trade in direction `d` feeds. */
  function Accumulated(p: PartnerInfo, d: TradeDirection): U64
  {
    if d == ZeroForOne then p.cumulativeFeeTotalTimesTvlShareToken0
    else p.cumulativeFeeTotalTimesTvlShareToken1
  }

  function Opposite(d: TradeDirection): TradeDirection
  {
    if d == ZeroForOne then OneForZero else ZeroForOne
  }

  /** One partner's metrics after a trade: the accumulator of the input
      token grows by the partner's fee, the other accumulator, the partner id
      and the linked LP stay as they were. */
  function CreditPartner(p: PartnerInfo, d: TradeDirection, protocolFee: U64, lpSupply: U64): (r: Result<PartnerInfo>)
    ensures r.Err? ==> r.error == MathOverflow
    ensures r.Ok? ==>
      && PartnerFee(p.lpTokenLinkedWithPartner, protocolFee, lpSupply).Ok?
      && Accumulated(r.value, d) == Accumulated(p, d) + PartnerFee(p.lpTokenLinkedWithPartner, protocolFee, lpSupply).value
      && Accumulated(r.value, Opposite(d)) == Accumulated(p, Opposite(d))
      && r.value.partnerId == p.partnerId
      && r.value.lpTokenLinkedWithPartner == p.lpTokenLinkedWithPartner
    ensures r.Ok? <==>
      && PartnerFee(p.lpTokenLinkedWithPartner, protocolFee, lpSupply).Ok?
      && Accumulated(p, d) + PartnerFee(p.lpTokenLinkedWithPartner, protocolFee, lpSupply).value < U64_LIMIT
  {
    var fee :- PartnerFee(p.lpTokenLinkedWithPartner, protocolFee, lpSupply);
    match d
    case ZeroForOne =>
      if p.cumulativeFeeTotalTimesTvlShareToken0 + fee >= U64_LIMIT then Err(MathOverflow)
      else Ok(p.(cumulativeFeeTotalTimesTvlShareToken0 := p.cumulativeFeeTotalTimesTvlShareToken0 + fee))
    case OneForZero =>
      if p.cumulativeFeeTotalTimesTvlShareToken1 + fee >= U64_LIMIT then Err(MathOverflow)
      else Ok(p.(cumulativeFeeTotalTimesTvlShareToken1 := p.cumulativeFeeTotalTimesTvlShareToken1 + fee))
  }

  /** The whole partner table after a trade: it succeeds exactly when every
      partner can be credited, and then every entry is credited. */
  function CreditPartners(ps: seq<PartnerInfo>, d: TradeDirection, protocolFee: U64, lpSupply: U64): (r: Result<seq<PartnerInfo>>)
    ensures r.Err? ==> r.error == MathOverflow
    ensures r.Err? <==> exists i :: 0 <= i < |ps| && CreditPartner(ps[i], d, protocolFee, lpSupply).Err?
    ensures r.Ok? ==> |r.value| == |ps| && forall i :: 0 <= i < |ps| ==> CreditPartner(ps[i], d, protocolFee, lpSupply) == Ok(r.value[i])
    decreases |ps|
  {
    if |ps| == 0 then Ok([])
    else
      var init := ps[..|ps| - 1];
      var credited :- CreditPartners(init, d, protocolFee, lpSupply);
      var last :- CreditPartner(ps[|ps| - 1], d, protocolFee, lpSupply);
      Ok(credited + [last])
  }

  /** Crediting one more entry of the table extends the credited prefix. */
  lemma CreditPartnersStep(table: seq<PartnerInfo>, i: nat, d: TradeDirection, protocolFee: U64, lpSupply: U64,
                           done: seq<PartnerInfo>, credited: PartnerInfo)
    requires i < |table|
    requires CreditPartners(table[..i], d, protocolFee, lpSupply) == Ok(done)
    requires CreditPartner(table[i], d, protocolFee, lpSupply) == Ok(credited)
    ensures CreditPartners(table[..i + 1], d, protocolFee, lpSupply) == Ok(done + [credited])
  {
    assert table[..i + 1][..i] == table[..i];
  }

  /** With an empty LP supply a non-empty partner table cannot be credited. */
  lemma EmptySupplyFailsPartners(ps: seq<PartnerInfo>, d: TradeDirection, protocolFee: U64)
    requires |ps| > 0
    ensures CreditPartners(ps, d, protocolFee, 0) == Err(MathOverflow)
  {
    assert CreditPartner(ps[0], d, protocolFee, 0).Err?;
  }

  // ---------------------------------------------------------------------
  // The quote: guards, direction, curve, slippage and referral

  /** What the swap knows once the request has passed its first checks:
      the referral, the direction, the gross output and the oriented
      reserves. */
  datatype Preflight = Preflight(
    referral: Option<U64 -> Result<ReferralSplit>>,
    direction: TradeDirection,
    actualAmountOut: U64,
    outputTransferFee: U64,
    reserveIn: U64,
    reserveOut: U64,
    constantBefore: U128)

  /** The first checks of `swap_base_output`, in the instruction's order:
      a positive output, the referral accounts, the swap status bit and the
      open time, the vault pair, the output mint's inverse transfer fee, and
      the reserves without fees with their product (whose checked
      multiplication cannot fail). */
  function PreflightOf(l: PoolLedger, c: SwapCollaborators, req: SwapRequest): Result<Preflight>
  {
    if req.amountOutLessFee == 0 then Err(RequireGtViolated)
    else
      var referral :- c.referralInfo;
      if !c.pool.statusEnabled(l.status, Swap) || req.blockTimestamp < l.openTime then Err(NotApproved)
      else
        var direction :- ResolveDirection(req.inputVault, req.outputVault, l);
        var outTransferFee :- c.outputInverseFee(req.amountOutLessFee);
        if req.amountOutLessFee + outTransferFee >= U64_LIMIT then Err(MathOverflow)
        else
          var reserves :- c.pool.vaultAmountWithoutFee(l);
          var oriented := Oriented(direction, reserves);
          ProductFitsU128(oriented.0, oriented.1);
          Ok(Preflight(referral, direction, req.amountOutLessFee + outTransferFee, outTransferFee,
                       oriented.0, oriented.1, oriented.0 * oriented.1))
  }

  /** The curve's answer for the gross output with the constant after the
      trade, rejected when the curve fails or when that constant does not
      fit a `u128`. */
  function CurveStep(l: PoolLedger, c: SwapCollaborators, req: SwapRequest, pf: Preflight): (r: Result<(SwapResult, U128)>)
    ensures c.curve(pf.actualAmountOut, pf.reserveIn, pf.reserveOut, l, req.invokedBySignedSegmenter).None?
            ==> r == Err(ZeroTradingTokens)
    ensures c.curve(pf.actualAmountOut, pf.reserveIn, pf.reserveOut, l, req.invokedBySignedSegmenter).Some? && r.Err?
            ==> r.error == MathOverflow
    ensures r.Ok? ==>
      && c.curve(pf.actualAmountOut, pf.reserveIn, pf.reserveOut, l, req.invokedBySignedSegmenter) == Some(r.value.0)
      && r.value.0.dynamicFee <= r.value.0.newSwapSourceAmount
      && r.value.1 == (r.value.0.newSwapSourceAmount - r.value.0.dynamicFee) * r.value.0.newSwapDestinationAmount
      && r.value.1 < U128_LIMIT
    ensures var answer := c.curve(pf.actualAmountOut, pf.reserveIn, pf.reserveOut, l, req.invokedBySignedSegmenter);
      (&& answer.Some? && answer.value.dynamicFee <= answer.value.newSwapSourceAmount
       && (answer.value.newSwapSourceAmount - answer.value.dynamicFee) * answer.value.newSwapDestinationAmount < U128_LIMIT)
      ==> r.Ok?
  {
    match c.curve(pf.actualAmountOut, pf.reserveIn, pf.reserveOut, l, req.invokedBySignedSegmenter)
    case None => Err(ZeroTradingTokens)
    case Some(res) =>
      if res.newSwapSourceAmount < res.dynamicFee then Err(MathOverflow)
      else if (res.newSwapSourceAmount - res.dynamicFee) * res.newSwapDestinationAmount >= U128_LIMIT then Err(MathOverflow)
      else Ok((res, (res.newSwapSourceAmount - res.dynamicFee) * res.newSwapDestinationAmount))
  }

  /** The input side of a priced trade: the input token's transfer fee and
      the settlement before any referral, after the slippage and exact-output
      checks. */
  function Charge(c: SwapCollaborators, req: SwapRequest, pf: Preflight, res: SwapResult): Result<(U64, Settlement)>
  {
    if res.sourceAmountSwapped >= U64_LIMIT then Err(MathOverflow)
    else if res.sourceAmountSwapped == 0 then Err(RequireGtViolated)
    else
      var inTransferFee :- c.inputInverseFee(res.sourceAmountSwapped);
      if res.sourceAmountSwapped + inTransferFee >= U64_LIMIT then Err(MathOverflow)
      else if req.maxAmountIn < res.sourceAmountSwapped + inTransferFee then Err(ExceededSlippage)
      else if res.destinationAmountSwapped >= U64_LIMIT then Err(MathOverflow)
      else if res.destinationAmountSwapped != pf.actualAmountOut then Err(RequireEqViolated)
      else if res.protocolFee >= U64_LIMIT || res.fundFee >= U64_LIMIT || res.dynamicFee >= U64_LIMIT then Err(MathOverflow)
      else Ok((inTransferFee, Settlement(res.sourceAmountSwapped + inTransferFee, res.sourceAmountSwapped, res.protocolFee, res.fundFee, None)))
  }

  /** The curve step and the amounts that follow from it. */
  function Price(l: PoolLedger, c: SwapCollaborators, req: SwapRequest, pf: Preflight): Result<SwapQuote>
  {
    var step :- CurveStep(l, c, req, pf);
    var charged :- Charge(c, req, pf, step.0);
    var settlement :- ApplyReferral(charged.1, pf.referral, c.inputTransferFee);
    Ok(SwapQuote(
      pf.direction, pf.reserveIn, pf.reserveOut, step.0, pf.constantBefore, step.1,
      pf.actualAmountOut, pf.outputTransferFee, charged.0, step.0.dynamicFee, settlement))
  }

  /** Everything `swap_base_output` checks and computes before it touches
      the ledger. */
  function Quote(l: PoolLedger, c: SwapCollaborators, req: SwapRequest): Result<SwapQuote>
  {
    var pf :- PreflightOf(l, c, req);
    Price(l, c, req, pf)
  }

  // ---------------------------------------------------------------------
  // Ledger settlement

  /** The fee accumulators of the input token after a trade: protocol and
      fund fees and the dynamic trade fee, each with overflow checking. */
  function AccrueFees(l: PoolLedger, q: SwapQuote): Result<PoolLedger>
  {
    var s := q.settlement;
    match q.direction
    case ZeroForOne =>
      if l.protocolFeesToken0 + s.protocolFee >= U64_LIMIT then Err(MathOverflow)
      else if l.fundFeesToken0 + s.fundFee >= U64_LIMIT then Err(MathOverflow)
      else if l.cumulativeTradeFeesToken0 + q.dynamicFee >= U128_LIMIT then Err(MathOverflow)
      else Ok(l.(
        protocolFeesToken0 := l.protocolFeesToken0 + s.protocolFee,
        fundFeesToken0 := l.fundFeesToken0 + s.fundFee,
        cumulativeTradeFeesToken0 := l.cumulativeTradeFeesToken0 + q.dynamicFee))
    case OneForZero =>
      if l.protocolFeesToken1 + s.protocolFee >= U64_LIMIT then Err(MathOverflow)
      else if l.fundFeesToken1 + s.fundFee >= U64_LIMIT then Err(MathOverflow)
      else if l.cumulativeTradeFeesToken1 + q.dynamicFee >= U128_LIMIT then Err(MathOverflow)
      else Ok(l.(
        protocolFeesToken1 := l.protocolFeesToken1 + s.protocolFee,
        fundFeesToken1 := l.fundFeesToken1 + s.fundFee,
        cumulativeTradeFeesToken1 := l.cumulativeTradeFeesToken1 + q.dynamicFee))
  }

  /** The volume counters and vault amounts after a trade: both volumes
      grow by the amounts transferred, the input vault gains what was
      swapped less the protocol and fund fees, and the output vault loses
      the gross output. */
  function MoveReserves(l: PoolLedger, q: SwapQuote): Result<PoolLedger>
  {
    var s := q.settlement;
    match q.direction
    case ZeroForOne =>
      if l.cumulativeVolumeToken0 + s.inputTransferAmount >= U128_LIMIT then Err(MathOverflow)
      else if l.cumulativeVolumeToken1 + q.outputTransferAmount >= U128_LIMIT then Err(MathOverflow)
      else if l.token0VaultAmount + s.sourceAmountSwapped >= U64_LIMIT then Err(MathOverflow)
      else if l.token0VaultAmount + s.sourceAmountSwapped < s.fundFee + s.protocolFee then Err(MathOverflow)
      else if l.token1VaultAmount < q.outputTransferAmount then Err(MathOverflow)
      else Ok(l.(
        cumulativeVolumeToken0 := l.cumulativeVolumeToken0 + s.inputTransferAmount,
        cumulativeVolumeToken1 := l.cumulativeVolumeToken1 + q.outputTransferAmount,
        token0VaultAmount := l.token0VaultAmount + s.sourceAmountSwapped - s.fundFee - s.protocolFee,
        token1VaultAmount := l.token1VaultAmount - q.outputTransferAmount))
    case OneForZero =>
      if l.cumulativeVolumeToken1 + s.inputTransferAmount >= U128_LIMIT then Err(MathOverflow)
      else if l.cumulativeVolumeToken0 + q.outputTransferAmount >= U128_LIMIT then Err(MathOverflow)
      else if l.token1VaultAmount + s.sourceAmountSwapped >= U64_LIMIT then Err(MathOverflow)
      else if l.token1VaultAmount + s.sourceAmountSwapped < s.fundFee + s.protocolFee then Err(MathOverflow)
      else if l.token0VaultAmount < q.outputTransferAmount then Err(MathOverflow)
      else Ok(l.(
        cumulativeVolumeToken1 := l.cumulativeVolumeToken1 + s.inputTransferAmount,
        cumulativeVolumeToken0 := l.cumulativeVolumeToken0 + q.outputTransferAmount,
        token1VaultAmount := l.token1VaultAmount + s.sourceAmountSwapped - s.fundFee - s.protocolFee,
        token0VaultAmount := l.token0VaultAmount - q.outputTransferAmount))
  }

  /** The ledger after one trade is settled for its direction. */
  function Settle(l: PoolLedger, q: SwapQuote): Result<PoolLedger>
  {
    var accrued :- AccrueFees(l, q);
    MoveReserves(accrued, q)
  }

  /** The whole swap on ledger values: the quote, the partner metrics, the
      settlement, the constant-product check, and the new fee rate and
      epoch. An error anywhere is the outcome of the whole swap. */
  function SwapSpec(l: PoolLedger, c: SwapCollaborators, req: SwapRequest): Result<(PoolLedger, SwapReceipt)>
  {
    var q :- Quote(l, c, req);
    var partners :- CreditPartners(l.partners, q.direction, q.settlement.protocolFee, l.lpSupply);
    var settled :- Settle(l.(partners := partners), q);
    if q.constantAfter < q.constantBefore then Err(RequireGteViolated)
    else Ok((
      settled.(latestDynamicFeeRate := q.curve.dynamicFeeRate, recentEpoch := req.epoch),
      SwapReceipt(q.settlement.inputTransferAmount, q.outputTransferAmount, q.settlement.referralAmount)))
  }

  // ---------------------------------------------------------------------
  // The instruction on the pool account

  /** The first checks, read from the pool account. */
  method CheckPreflight(pool: PoolState, c: SwapCollaborators, req: SwapRequest) returns (r: Result<Preflight>)
    ensures r == PreflightOf(pool.Snapshot(), c, req)
  {
    if req.amountOutLessFee == 0 {
      return Err(RequireGtViolated);
    }
    var referral :- c.referralInfo;
    if !c.pool.statusEnabled(pool.status, Swap) || req.blockTimestamp < pool.openTime {
      return Err(NotApproved);
    }
    var zeroForOne := req.inputVault == pool.token0Vault && req.outputVault == pool.token1Vault;
    var oneForZero := req.inputVault == pool.token1Vault && req.outputVault == pool.token0Vault;
    if !zeroForOne && !oneForZero {
      return Err(InvalidVault);
    }
    var outTransferFee :- c.outputInverseFee(req.amountOutLessFee);
    if req.amountOutLessFee + outTransferFee >= U64_LIMIT {
      return Err(MathOverflow);
    }
    var actualAmountOut: U64 := req.amountOutLessFee + outTransferFee;
    var reserves :- c.pool.vaultAmountWithoutFee(pool.Snapshot());
    if zeroForOne {
      ProductFitsU128(reserves.0, reserves.1);
      var constantBefore: U128 := reserves.0 as int * reserves.1;
      r := Ok(Preflight(referral, ZeroForOne, actualAmountOut, outTransferFee, reserves.0, reserves.1, constantBefore));
    } else {
      ProductFitsU128(reserves.1, reserves.0);
      var constantBefore: U128 := reserves.1 as int * reserves.0;
      r := Ok(Preflight(referral, OneForZero, actualAmountOut, outTransferFee, reserves.1, reserves.0, constantBefore));
    }
  }

  /** The referral carve-out on the running amounts. */
  method CarveOutReferral(s: Settlement, referral: Option<U64 -> Result<ReferralSplit>>, transferFee: U64 -> Result<U64>) returns (r: Result<Settlement>)
    requires s.referralAmount.None?
    ensures r == ApplyReferral(s, referral, transferFee)
  {
    if referral.None? {
      return Ok(s);
    }
    var protocolFee, fundFee := s.protocolFee, s.fundFee;
    var inputTransferAmount, sourceAmountSwapped := s.inputTransferAmount, s.sourceAmountSwapped;
    var fromProtocol :- referral.value(protocolFee);
    var fromFund :- referral.value(fundFee);
    if fromProtocol.referralAmount + fromFund.referralAmount >= U64_LIMIT {
      return Err(MathOverflow);
    }
    var amount: U64 := fromProtocol.referralAmount + fromFund.referralAmount;
    var fee :- transferFee(amount);
    if amount != 0 && fee < amount {
      protocolFee := fromProtocol.amountAfterReferral;
      fundFee := fromFund.amountAfterReferral;
      if inputTransferAmount < amount {
        return Err(MathError);
      }
      inputTransferAmount := inputTransferAmount - amount;
      if sourceAmountSwapped < amount {
        return Err(MathError);
      }
      sourceAmountSwapped := sourceAmountSwapped - amount;
      return Ok(Settlement(inputTransferAmount, sourceAmountSwapped, protocolFee, fundFee, Some(amount)));
    }
    r := Ok(s);
  }

  /** The curve call and the constant after the trade. */
  method RunCurve(pool: PoolState, c: SwapCollaborators, req: SwapRequest, pf: Preflight) returns (r: Result<(SwapResult, U128)>)
    ensures r == CurveStep(pool.Snapshot(), c, req, pf)
  {
    var outcome := c.curve(pf.actualAmountOut, pf.reserveIn, pf.reserveOut, pool.Snapshot(), req.invokedBySignedSegmenter);
    if outcome.None? {
      return Err(ZeroTradingTokens);
    }
    var res := outcome.value;
    if res.newSwapSourceAmount < res.dynamicFee {
      return Err(MathOverflow);
    }
    if (res.newSwapSourceAmount - res.dynamicFee) * res.newSwapDestinationAmount >= U128_LIMIT {
      return Err(MathOverflow);
    }
    var constantAfter: U128 := (res.newSwapSourceAmount - res.dynamicFee) * res.newSwapDestinationAmount;
    r := Ok((res, constantAfter));
  }

  /** The input-side checks of a priced trade. */
  method ChargeSwap(c: SwapCollaborators, req: SwapRequest, pf: Preflight, res: SwapResult) returns (r: Result<(U64, Settlement)>)
    ensures r == Charge(c, req, pf, res)
  {
    if res.sourceAmountSwapped >= U64_LIMIT {
      return Err(MathOverflow);
    }
    if res.sourceAmountSwapped == 0 {
      return Err(RequireGtViolated);
    }
    var inTransferFee :- c.inputInverseFee(res.sourceAmountSwapped);
    if res.sourceAmountSwapped + inTransferFee >= U64_LIMIT {
      return Err(MathOverflow);
    }
    var inputTransferAmount: U64 := res.sourceAmountSwapped + inTransferFee;
    if req.maxAmountIn < inputTransferAmount {
      return Err(ExceededSlippage);
    }
    if res.destinationAmountSwapped >= U64_LIMIT {
      return Err(MathOverflow);
    }
    if res.destinationAmountSwapped != pf.actualAmountOut {
      return Err(RequireEqViolated);
    }
    if res.protocolFee >= U64_LIMIT || res.fundFee >= U64_LIMIT || res.dynamicFee >= U64_LIMIT {
      return Err(MathOverflow);
    }
    r := Ok((inTransferFee, Settlement(inputTransferAmount, res.sourceAmountSwapped, res.protocolFee, res.fundFee, None)));
  }

  /** The curve step and the amounts that follow from it. */
  method PriceSwap(pool: PoolState, c: SwapCollaborators, req: SwapRequest, pf: Preflight) returns (r: Result<SwapQuote>)
    ensures r == Price(pool.Snapshot(), c, req, pf)
  {
    var step :- RunCurve(pool, c, req, pf);
    var (res, constantAfter) := step;
    var charged :- ChargeSwap(c, req, pf, res);
    var settlement :- CarveOutReferral(charged.1, pf.referral, c.inputTransferFee);
    r := Ok(SwapQuote(
      pf.direction, pf.reserveIn, pf.reserveOut, res, pf.constantBefore, constantAfter,
      pf.actualAmountOut, pf.outputTransferFee, charged.0, res.dynamicFee, settlement));
  }

  /** The checks and amounts of the swap, computed from the pool account
      without writing it. */
  method QuoteSwap(pool: PoolState, c: SwapCollaborators, req: SwapRequest) returns (r: Result<SwapQuote>)
    ensures r == Quote(pool.Snapshot(), c, req)
  {
    var pf :- CheckPreflight(pool, c, req);
    r := PriceSwap(pool, c, req, pf);
  }

  /** One turn of the partner loop: the partner's share of the protocol
      fee, added to the accumulator of the input token. */
  method CreditOne(p: PartnerInfo, d: TradeDirection, protocolFee: U64, lpSupply: U64) returns (r: Result<PartnerInfo>)
    ensures r == CreditPartner(p, d, protocolFee, lpSupply)
  {
    if p.lpTokenLinkedWithPartner * DECIMAL_NUMBER >= U64_LIMIT || lpSupply == 0 {
      return Err(MathOverflow);
    }
    var tvlShare := TvlShare(p.lpTokenLinkedWithPartner, lpSupply);
    if protocolFee * tvlShare >= U64_LIMIT {
      return Err(MathOverflow);
    }
    var partnerFee := FeeShare(protocolFee, tvlShare);
    if d == ZeroForOne {
      if p.cumulativeFeeTotalTimesTvlShareToken0 + partnerFee >= U64_LIMIT {
        return Err(MathOverflow);
      }
      r := Ok(p.(cumulativeFeeTotalTimesTvlShareToken0 := p.cumulativeFeeTotalTimesTvlShareToken0 + partnerFee));
    } else {
      if p.cumulativeFeeTotalTimesTvlShareToken1 + partnerFee >= U64_LIMIT {
        return Err(MathOverflow);
      }
      r := Ok(p.(cumulativeFeeTotalTimesTvlShareToken1 := p.cumulativeFeeTotalTimesTvlShareToken1 + partnerFee));
    }
  }

  /** The partner loop: each entry of a copy of the table is credited in
      turn, and the first entry that cannot be ends the instruction. */
  method CreditPartnerTable(pool: PoolState, d: TradeDirection, protocolFee: U64) returns (r: Result<seq<PartnerInfo>>)
    ensures r == CreditPartners(pool.partners[..], d, protocolFee, pool.lpSupply)
  {
    var lpSupply := pool.lpSupply;
    var table := pool.partners[..];
    var partners := table;
    var i := 0;
    while i < |partners|
      invariant 0 <= i <= |partners| == |table|
      invariant partners[i..] == table[i..]
      invariant CreditPartners(table[..i], d, protocolFee, lpSupply) == Ok(partners[..i])
    {
      assert partners[i] == table[i] by {
        assert partners[i..][0] == table[i..][0];
      }
      var credited :- CreditOne(partners[i], d, protocolFee, lpSupply);
      CreditPartnersStep(table, i, d, protocolFee, lpSupply, partners[..i], credited);
      partners := partners[i := credited];
      assert partners[..i + 1] == partners[..i] + [credited];
      i := i + 1;
    }
    assert table[..i] == table && partners[..i] == partners;
    r := Ok(partners);
  }

  /** The fee accumulators of the input token, field by field. */
  method AccrueFeesOnPool(pool: PoolState, q: SwapQuote) returns (r: Result<()>)
    modifies pool`protocolFeesToken0, pool`protocolFeesToken1, pool`fundFeesToken0, pool`fundFeesToken1
    modifies pool`cumulativeTradeFeesToken0, pool`cumulativeTradeFeesToken1
    ensures AccrueFees(old(pool.Snapshot()), q).Ok? ==> r.Ok? && pool.Snapshot() == AccrueFees(old(pool.Snapshot()), q).value
    ensures AccrueFees(old(pool.Snapshot()), q).Err? ==> r == Err(MathOverflow)
  {
    var s := q.settlement;
    if q.direction == ZeroForOne {
      if pool.protocolFeesToken0 + s.protocolFee >= U64_LIMIT {
        return Err(MathOverflow);
      }
      pool.protocolFeesToken0 := pool.protocolFeesToken0 + s.protocolFee;
      if pool.fundFeesToken0 + s.fundFee >= U64_LIMIT {
        return Err(MathOverflow);
      }
      pool.fundFeesToken0 := pool.fundFeesToken0 + s.fundFee;
      if pool.cumulativeTradeFeesToken0 + q.dynamicFee >= U128_LIMIT {
        return Err(MathOverflow);
      }
      pool.cumulativeTradeFeesToken0 := pool.cumulativeTradeFeesToken0 + q.dynamicFee;
    } else {
      if pool.protocolFeesToken1 + s.protocolFee >= U64_LIMIT {
        return Err(MathOverflow);
      }
      pool.protocolFeesToken1 := pool.protocolFeesToken1 + s.protocolFee;
      if pool.fundFeesToken1 + s.fundFee >= U64_LIMIT {
        return Err(MathOverflow);
      }
      pool.fundFeesToken1 := pool.fundFeesToken1 + s.fundFee;
      if pool.cumulativeTradeFeesToken1 + q.dynamicFee >= U128_LIMIT {
        return Err(MathOverflow);
      }
      pool.cumulativeTradeFeesToken1 := pool.cumulativeTradeFeesToken1 + q.dynamicFee;
    }
    r := Ok(());
  }

  /** The volume counters and the vault amounts, field by field. */
  method MoveReservesOnPool(pool: PoolState, q: SwapQuote) returns (r: Result<()>)
    modifies pool`cumulativeVolumeToken0, pool`cumulativeVolumeToken1
    modifies pool`token0VaultAmount, pool`token1VaultAmount
    ensures MoveReserves(old(pool.Snapshot()), q).Ok? ==> r.Ok? && pool.Snapshot() == MoveReserves(old(pool.Snapshot()), q).value
    ensures MoveReserves(old(pool.Snapshot()), q).Err? ==> r == Err(MathOverflow)
  {
    var s := q.settlement;
    if q.direction == ZeroForOne {
      if pool.cumulativeVolumeToken0 + s.inputTransferAmount >= U128_LIMIT {
        return Err(MathOverflow);
      }
      pool.cumulativeVolumeToken0 := pool.cumulativeVolumeToken0 + s.inputTransferAmount;
      if pool.cumulativeVolumeToken1 + q.outputTransferAmount >= U128_LIMIT {
        return Err(MathOverflow);
      }
      pool.cumulativeVolumeToken1 := pool.cumulativeVolumeToken1 + q.outputTransferAmount;
      if pool.token0VaultAmount + s.sourceAmountSwapped >= U64_LIMIT
        || pool.token0VaultAmount + s.sourceAmountSwapped < s.fundFee
        || pool.token0VaultAmount + s.sourceAmountSwapped - s.fundFee < s.protocolFee {
        return Err(MathOverflow);
      }
      pool.token0VaultAmount := pool.token0VaultAmount + s.sourceAmountSwapped - s.fundFee - s.protocolFee;
      if pool.token1VaultAmount < q.outputTransferAmount {
        return Err(MathOverflow);
      }
      pool.token1VaultAmount := pool.token1VaultAmount - q.outputTransferAmount;
    } else {
      if pool.cumulativeVolumeToken1 + s.inputTransferAmount >= U128_LIMIT {
        return Err(MathOverflow);
      }
      pool.cumulativeVolumeToken1 := pool.cumulativeVolumeToken1 + s.inputTransferAmount;
      if pool.cumulativeVolumeToken0 + q.outputTransferAmount >= U128_LIMIT {
        return Err(MathOverflow);
      }
      pool.cumulativeVolumeToken0 := pool.cumulativeVolumeToken0 + q.outputTransferAmount;
      if pool.token1VaultAmount + s.sourceAmountSwapped >= U64_LIMIT
        || pool.token1VaultAmount + s.sourceAmountSwapped < s.fundFee
        || pool.token1VaultAmount + s.sourceAmountSwapped - s.fundFee < s.protocolFee {
        return Err(MathOverflow);
      }
      pool.token1VaultAmount := pool.token1VaultAmount + s.sourceAmountSwapped - s.fundFee - s.protocolFee;
      if pool.token0VaultAmount < q.outputTransferAmount {
        return Err(MathOverflow);
      }
      pool.token0VaultAmount := pool.token0VaultAmount - q.outputTransferAmount;
    }
    r := Ok(());
  }

  /** The body of the instruction: the quote, the partner loop, the
      write-back of the table, the ledger, the fee rate, the constant-product
      check and the epoch. On an error it may leave the account half
      written; `SwapBaseOutput` puts it back. */
  method ExecuteSwap(pool: PoolState, c: SwapCollaborators, req: SwapRequest) returns (r: Result<SwapReceipt>)
    modifies pool, pool.partners
    ensures SwapSpec(old(pool.Snapshot()), c, req).Ok? ==>
      r.Ok? && (pool.Snapshot(), r.value) == SwapSpec(old(pool.Snapshot()), c, req).value
    ensures SwapSpec(old(pool.Snapshot()), c, req).Err? ==>
      r == Err(SwapSpec(old(pool.Snapshot()), c, req).error)
  {
    ghost var l := pool.Snapshot();
    var q :- QuoteSwap(pool, c, req);
    var partners :- CreditPartnerTable(pool, q.direction, q.settlement.protocolFee);
    pool.WritePartners(partners);
    assert pool.Snapshot() == l.(partners := partners);
    var accrued := AccrueFeesOnPool(pool, q);
    if accrued.Err? {
      return Err(accrued.error);
    }
    var moved := MoveReservesOnPool(pool, q);
    if moved.Err? {
      return Err(moved.error);
    }
    pool.latestDynamicFeeRate := q.curve.dynamicFeeRate;
    if q.constantAfter < q.constantBefore {
      return Err(RequireGteViolated);
    }
    pool.recentEpoch := req.epoch;
    r := Ok(SwapReceipt(q.settlement.inputTransferAmount, q.outputTransferAmount, q.settlement.referralAmount));
  }

  /** `swap_base_output` as one transaction: when it succeeds the pool holds
      exactly the ledger `SwapSpec` describes and the receipt names the
      transfers; when it fails the error is the one `SwapSpec` names and the
      pool account is as it was. */
  method SwapBaseOutput(pool: PoolState, c: SwapCollaborators, req: SwapRequest) returns (r: Result<SwapReceipt>)
    modifies pool, pool.partners
    ensures SwapSpec(old(pool.Snapshot()), c, req).Ok? ==>
      r == Ok(SwapSpec(old(pool.Snapshot()), c, req).value.1)
      && pool.Snapshot() == SwapSpec(old(pool.Snapshot()), c, req).value.0
    ensures SwapSpec(old(pool.Snapshot()), c, req).Err? ==>
      r == Err(SwapSpec(old(pool.Snapshot()), c, req).error)
      && pool.Snapshot() == old(pool.Snapshot())
  {
    var saved := pool.Snapshot();
    r := ExecuteSwap(pool, c, req);
    if r.Err? {
      pool.Restore(saved);
    }
  }

  // ---------------------------------------------------------------------
  // Properties of the swap

  /** A request for no output is refused before anything else is looked at. */
  lemma ZeroOutputRejected(l: PoolLedger, c: SwapCollaborators, req: SwapRequest)
    requires req.amountOutLessFee == 0
    ensures SwapSpec(l, c, req) == Err(RequireGtViolated)
  {
  }

  /** A pool whose swap bit is off, or that has not opened yet, refuses the
      swap. */
  lemma SwapRequiresApproval(l: PoolLedger, c: SwapCollaborators, req: SwapRequest)
    requires req.amountOutLessFee > 0 && c.referralInfo.Ok?
    requires !c.pool.statusEnabled(l.status, Swap) || req.blockTimestamp < l.openTime
    ensures SwapSpec(l, c, req) == Err(NotApproved)
  {
  }

  /** Any pair of vaults other than the pool's two vaults, in one order or
      the other, is refused: a foreign vault on either side, or the same
      pool vault twice. */
  lemma SwapRejectsForeignVaults(l: PoolLedger, c: SwapCollaborators, req: SwapRequest)
    requires req.amountOutLessFee > 0 && c.referralInfo.Ok?
    requires c.pool.statusEnabled(l.status, Swap) && l.openTime <= req.blockTimestamp
    requires !(req.inputVault == l.token0Vault && req.outputVault == l.token1Vault)
    requires !(req.inputVault == l.token1Vault && req.outputVault == l.token0Vault)
    ensures SwapSpec(l, c, req) == Err(InvalidVault)
  {
    assert ResolveDirection(req.inputVault, req.outputVault, l) == Err(InvalidVault);
  }

  /** A swap that succeeds was allowed by the status bit and the open time,
      moved tokens between the pool's own vaults in a resolved direction, and
      priced against the reserves of that direction. */
  lemma SwapMatchesVaults(l: PoolLedger, c: SwapCollaborators, req: SwapRequest)
    requires SwapSpec(l, c, req).Ok?
    ensures Quote(l, c, req).Ok?
    ensures c.pool.statusEnabled(l.status, Swap) && l.openTime <= req.blockTimestamp
    ensures var q := Quote(l, c, req).value;
      && req.inputVault == SourceVault(l, q.direction)
      && req.outputVault == DestinationVault(l, q.direction)
      && c.pool.vaultAmountWithoutFee(l).Ok?
      && (q.reserveIn, q.reserveOut) == Oriented(q.direction, c.pool.vaultAmountWithoutFee(l).value)
  {
  }

  /** The trader receives exactly the gross output the curve was asked for:
      the requested net amount plus the output mint's inverse transfer fee. */
  lemma SwapPaysExactOutput(l: PoolLedger, c: SwapCollaborators, req: SwapRequest)
    requires SwapSpec(l, c, req).Ok?
    ensures Quote(l, c, req).Ok? && c.outputInverseFee(req.amountOutLessFee).Ok?
    ensures var receipt := SwapSpec(l, c, req).value.1;
      && receipt.outputTransferAmount == req.amountOutLessFee + c.outputInverseFee(req.amountOutLessFee).value
      && Quote(l, c, req).value.curve.destinationAmountSwapped == receipt.outputTransferAmount
  {
  }

  /** The trader never pays more than `max_amount_in`: the input the curve
      asks for, grossed up by the input mint's inverse transfer fee, is
      within the bound, is positive, and a referral rebate only lowers what
      is taken from the trader. */
  lemma SwapWithinMaxIn(l: PoolLedger, c: SwapCollaborators, req: SwapRequest)
    requires SwapSpec(l, c, req).Ok?
    ensures Quote(l, c, req).Ok?
    ensures var q := Quote(l, c, req).value;
      var receipt := SwapSpec(l, c, req).value.1;
      && 0 < q.curve.sourceAmountSwapped
      && q.curve.sourceAmountSwapped + q.inputTransferFee <= req.maxAmountIn
      && receipt.inputTransferAmount <= q.curve.sourceAmountSwapped + q.inputTransferFee
      && (receipt.referralAmount.None? ==> receipt.inputTransferAmount == q.curve.sourceAmountSwapped + q.inputTransferFee)
      && (receipt.referralAmount.Some? ==>
            receipt.inputTransferAmount + receipt.referralAmount.value == q.curve.sourceAmountSwapped + q.inputTransferFee)
  {
    var q := Quote(l, c, req).value;
    var pf := PreflightOf(l, c, req).value;
    var base := Settlement(q.curve.sourceAmountSwapped + q.inputTransferFee, q.curve.sourceAmountSwapped,
      q.curve.protocolFee, q.curve.fundFee, None);
    assert ApplyReferral(base, pf.referral, c.inputTransferFee) == Ok(q.settlement);
  }

  /** The other half of the slippage bound: a trade that reaches the bound
      (the checks before the curve, the curve, a positive `u64` source and a
      `u64` gross input) and whose gross input exceeds `max_amount_in` is
      refused with ExceededSlippage, whatever the checks after the bound
      would have said. */
  lemma SwapSlippageRejected(l: PoolLedger, c: SwapCollaborators, req: SwapRequest)
    requires PreflightOf(l, c, req).Ok?
    requires CurveStep(l, c, req, PreflightOf(l, c, req).value).Ok?
    requires 0 < CurveStep(l, c, req, PreflightOf(l, c, req).value).value.0.sourceAmountSwapped < U64_LIMIT
    requires c.inputInverseFee(CurveStep(l, c, req, PreflightOf(l, c, req).value).value.0.sourceAmountSwapped).Ok?
    requires CurveStep(l, c, req, PreflightOf(l, c, req).value).value.0.sourceAmountSwapped
             + c.inputInverseFee(CurveStep(l, c, req, PreflightOf(l, c, req).value).value.0.sourceAmountSwapped).value
             < U64_LIMIT
    requires req.maxAmountIn
             < CurveStep(l, c, req, PreflightOf(l, c, req).value).value.0.sourceAmountSwapped
               + c.inputInverseFee(CurveStep(l, c, req, PreflightOf(l, c, req).value).value.0.sourceAmountSwapped).value
    ensures SwapSpec(l, c, req) == Err(ExceededSlippage)
  {
  }

  /** A swap that succeeds never lowers the pool's constant product: the new
      reserves, with the dynamic fee taken out of the input side, multiply to
      at least the product of the reserves before the trade. */
  lemma SwapKeepsConstantProduct(l: PoolLedger, c: SwapCollaborators, req: SwapRequest)
    requires SwapSpec(l, c, req).Ok?
    ensures Quote(l, c, req).Ok?
    ensures var q := Quote(l, c, req).value;
      && q.curve.dynamicFee <= q.curve.newSwapSourceAmount
      && (q.curve.newSwapSourceAmount - q.curve.dynamicFee) * q.curve.newSwapDestinationAmount >= q.reserveIn * q.reserveOut
  {
  }

  /** The ledger after a trade from token 0 to token 1: token-0 fees and
      volume grow, the token-0 vault gains the swapped input less the fees
      set aside, the token-1 vault pays out the gross output; token-1 fees,
      the LP supply, the vault keys and the open time stay. */
  lemma SwapLedgerZeroForOne(l: PoolLedger, c: SwapCollaborators, req: SwapRequest)
    requires SwapSpec(l, c, req).Ok? && Quote(l, c, req).Ok? && Quote(l, c, req).value.direction == ZeroForOne
    ensures var q := Quote(l, c, req).value;
      var s := q.settlement;
      var n := SwapSpec(l, c, req).value.0;
      && n.protocolFeesToken0 == l.protocolFeesToken0 + s.protocolFee
      && n.fundFeesToken0 == l.fundFeesToken0 + s.fundFee
      && n.cumulativeTradeFeesToken0 == l.cumulativeTradeFeesToken0 + q.dynamicFee
      && n.cumulativeVolumeToken0 == l.cumulativeVolumeToken0 + s.inputTransferAmount
      && n.cumulativeVolumeToken1 == l.cumulativeVolumeToken1 + q.outputTransferAmount
      && n.token0VaultAmount + s.fundFee + s.protocolFee == l.token0VaultAmount + s.sourceAmountSwapped
      && n.token1VaultAmount + q.outputTransferAmount == l.token1VaultAmount
      && n.protocolFeesToken1 == l.protocolFeesToken1 && n.fundFeesToken1 == l.fundFeesToken1
      && n.cumulativeTradeFeesToken1 == l.cumulativeTradeFeesToken1
      && n.lpSupply == l.lpSupply && n.openTime == l.openTime && n.status == l.status
      && n.token0Vault == l.token0Vault && n.token1Vault == l.token1Vault
      && n.latestDynamicFeeRate == q.curve.dynamicFeeRate && n.recentEpoch == req.epoch
  {
  }

  /** The mirror image for a trade from token 1 to token 0. */
  lemma SwapLedgerOneForZero(l: PoolLedger, c: SwapCollaborators, req: SwapRequest)
    requires SwapSpec(l, c, req).Ok? && Quote(l, c, req).Ok? && Quote(l, c, req).value.direction == OneForZero
    ensures var q := Quote(l, c, req).value;
      var s := q.settlement;
      var n := SwapSpec(l, c, req).value.0;
      && n.protocolFeesToken1 == l.protocolFeesToken1 + s.protocolFee
      && n.fundFeesToken1 == l.fundFeesToken1 + s.fundFee
      && n.cumulativeTradeFeesToken1 == l.cumulativeTradeFeesToken1 + q.dynamicFee
      && n.cumulativeVolumeToken1 == l.cumulativeVolumeToken1 + s.inputTransferAmount
      && n.cumulativeVolumeToken0 == l.cumulativeVolumeToken0 + q.outputTransferAmount
      && n.token1VaultAmount + s.fundFee + s.protocolFee == l.token1VaultAmount + s.sourceAmountSwapped
      && n.token0VaultAmount + q.outputTransferAmount == l.token0VaultAmount
      && n.protocolFeesToken0 == l.protocolFeesToken0 && n.fundFeesToken0 == l.fundFeesToken0
      && n.cumulativeTradeFeesToken0 == l.cumulativeTradeFeesToken0
      && n.lpSupply == l.lpSupply && n.openTime == l.openTime && n.status == l.status
      && n.token0Vault == l.token0Vault && n.token1Vault == l.token1Vault
      && n.latestDynamicFeeRate == q.curve.dynamicFeeRate && n.recentEpoch == req.epoch
  {
  }

  /** Every partner entry is credited its share of the (post-referral)
      protocol fee for the input token; no funds move for partners. */
  lemma SwapCreditsPartners(l: PoolLedger, c: SwapCollaborators, req: SwapRequest)
    requires SwapSpec(l, c, req).Ok?
    ensures Quote(l, c, req).Ok?
    ensures var q := Quote(l, c, req).value;
      var n := SwapSpec(l, c, req).value.0;
      && |n.partners| == |l.partners|
      && forall i :: 0 <= i < |l.partners| ==>
           CreditPartner(l.partners[i], q.direction, q.settlement.protocolFee, l.lpSupply) == Ok(n.partners[i])
  {
  }

  /** A pool with partner entries and no LP supply cannot be swapped against:
      the partner share divides by the supply. */
  lemma SwapNeedsSupplyWithPartners(l: PoolLedger, c: SwapCollaborators, req: SwapRequest)
    requires |l.partners| > 0 && l.lpSupply == 0
    ensures SwapSpec(l, c, req).Err?
    ensures Quote(l, c, req).Ok? ==> SwapSpec(l, c, req) == Err(MathOverflow)
  {
    if Quote(l, c, req).Ok? {
      EmptySupplyFailsPartners(l.partners, Quote(l, c, req).value.direction, Quote(l, c, req).value.settlement.protocolFee);
    }
  }
}
