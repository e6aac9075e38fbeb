/** A liquidity provider's per-pool record (`UserPoolLiquidity`). */
module UserPoolLiquidities {
  import opened Base
  import opened PoolStates

  /** `UserPoolLiquidity::LEN`: the 8-byte account discriminator, two keys,
      five u128 counters, and 32 bytes for the partner tag, the first
      investment time and the padding. */
  const LEN: nat := 8 + 32 * 2 + 16 * 5 + 32

  const PADDING_LEN: nat := 15

  /** The value of a `UserPoolLiquidity` account at one instant. */
  datatype UserPoolLiquidityRecord = UserPoolLiquidityRecord(
    user: Pubkey,
    poolState: Pubkey,
    token0Deposited: U128,
    token1Deposited: U128,
    token0Withdrawn: U128,
    token1Withdrawn: U128,
    lpTokensOwned: U128,
    partner: Option<PartnerType>,
    firstInvestmentAt: U64,
    padding: seq<Byte>)

  /** The record `UserPoolLiquidity::initialize` leaves behind. */
  function InitialRecord(user: Pubkey, poolState: Pubkey, partner: Option<PartnerType>, currentTime: U64): UserPoolLiquidityRecord
  {
    UserPoolLiquidityRecord(user, poolState, 0, 0, 0, 0, 0, partner, currentTime, seq(PADDING_LEN, _ => 0))
  }

  /** The account space reserved for the record is 184 bytes. */
  lemma LenIs184()
    ensures LEN == 184
  {
  }

  /** The `UserPoolLiquidity` account, updated in place by `initialize`
      and by the deposit instruction. */
  class UserPoolLiquidity {
    var user: Pubkey
    var poolState: Pubkey
    var token0Deposited: U128
    var token1Deposited: U128
    var token0Withdrawn: U128
    var token1Withdrawn: U128
    var lpTokensOwned: U128
    var partner: Option<PartnerType>
    var firstInvestmentAt: U64
    var padding: seq<Byte>

    /** Loads an account holding the record `r`. */
    constructor (r: UserPoolLiquidityRecord)
      ensures Snapshot() == r
    {
      user, poolState := r.user, r.poolState;
      token0Deposited, token1Deposited := r.token0Deposited, r.token1Deposited;
      token0Withdrawn, token1Withdrawn := r.token0Withdrawn, r.token1Withdrawn;
      lpTokensOwned, partner := r.lpTokensOwned, r.partner;
      firstInvestmentAt, padding := r.firstInvestmentAt, r.padding;
    }

    /** The account's current value. */
    function Snapshot(): UserPoolLiquidityRecord
      reads this
    {
      UserPoolLiquidityRecord(
        user, poolState, token0Deposited, token1Deposited, token0Withdrawn,
        token1Withdrawn, lpTokensOwned, partner, firstInvestmentAt, padding)
    }

    /** Puts back a saved value, as the runtime does when a transaction
        fails. */
    method Restore(r: UserPoolLiquidityRecord)
      modifies this
      ensures Snapshot() == r
    {
      user, poolState := r.user, r.poolState;
      token0Deposited, token1Deposited := r.token0Deposited, r.token1Deposited;
      token0Withdrawn, token1Withdrawn := r.token0Withdrawn, r.token1Withdrawn;
      lpTokensOwned, partner := r.lpTokensOwned, r.partner;
      firstInvestmentAt, padding := r.firstInvestmentAt, r.padding;
    }

    /** `UserPoolLiquidity::initialize`: every field is written, so the
        result depends on the arguments only and not on what the account
        held before; calling it twice leaves the same record as once. */
    method Initialize(user: Pubkey, poolState: Pubkey, partner: Option<PartnerType>, currentTime: U64)
      modifies this
      ensures this.user == user && this.poolState == poolState && this.partner == partner
      ensures token0Deposited == 0 && token1Deposited == 0
      ensures token0Withdrawn == 0 && token1Withdrawn == 0
      ensures lpTokensOwned == 0
      ensures firstInvestmentAt == currentTime
      ensures |padding| == PADDING_LEN && forall i :: 0 <= i < |padding| ==> padding[i] == 0
      ensures Snapshot() == InitialRecord(user, poolState, partner, currentTime)
    {
      this.user := user;
      this.poolState := poolState;
      token0Deposited := 0;
      token1Deposited := 0;
      token0Withdrawn := 0;
      token1Withdrawn := 0;
      lpTokensOwned := 0;
      this.partner := partner;
      firstInvestmentAt := currentTime;
      padding := seq(PADDING_LEN, _ => 0);
    }
  }
}
