/** The pool ledger (`PoolState`): the mutable record that every
    instruction of the pool reads and updates. */
module PoolStates {
  import opened Base

  /** The operations that the pool's status byte can switch off
      (`PoolStatusBitIndex`). */
  datatype PoolStatusBit = Deposit | Withdraw | Swap

  /** The partner a liquidity provider is affiliated with. Only its equality
      is used; `PartnerType::new` maps a stored partner id to it. */
  datatype PartnerType = PartnerType(tag: nat)

  /** One entry of the pool's fixed-size partner table (`PartnerInfo`):
      metrics only, never moves funds. */
  datatype PartnerInfo = PartnerInfo(
    partnerId: nat,
    lpTokenLinkedWithPartner: U64,
    cumulativeFeeTotalTimesTvlShareToken0: U64,
    cumulativeFeeTotalTimesTvlShareToken1: U64)

  /** The value of a `PoolState` account at one instant. */
  datatype PoolLedger = PoolLedger(
    token0Vault: Pubkey,
    token1Vault: Pubkey,
    token0VaultAmount: U64,
    token1VaultAmount: U64,
    lpSupply: U64,
    protocolFeesToken0: U64,
    protocolFeesToken1: U64,
    fundFeesToken0: U64,
    fundFeesToken1: U64,
    cumulativeTradeFeesToken0: U128,
    cumulativeTradeFeesToken1: U128,
    cumulativeVolumeToken0: U128,
    cumulativeVolumeToken1: U128,
    partners: seq<PartnerInfo>,
    status: Byte,
    openTime: U64,
    latestDynamicFeeRate: U64,
    recentEpoch: U64)

  /** The `PoolState` methods whose code is not part of this model, as
      functions of the ledger they read: `get_status_by_bit` and
      `vault_amount_without_fee`. */
  datatype PoolQueries = PoolQueries(
    statusEnabled: (Byte, PoolStatusBit) -> bool,
    vaultAmountWithoutFee: PoolLedger -> Result<(U64, U64)>)

  /** The `PoolState` account, updated in place by the instructions. The
      partner table is embedded in the account, so its array never changes
      identity or length. */
  class PoolState {
    var token0Vault: Pubkey
    var token1Vault: Pubkey
    var token0VaultAmount: U64
    var token1VaultAmount: U64
    var lpSupply: U64
    var protocolFeesToken0: U64
    var protocolFeesToken1: U64
    var fundFeesToken0: U64
    var fundFeesToken1: U64
    var cumulativeTradeFeesToken0: U128
    var cumulativeTradeFeesToken1: U128
    var cumulativeVolumeToken0: U128
    var cumulativeVolumeToken1: U128
    const partners: array<PartnerInfo>
    var status: Byte
    var openTime: U64
    var latestDynamicFeeRate: U64
    var recentEpoch: U64

    /** Loads an account holding the ledger `l`. */
    constructor (l: PoolLedger)
      ensures Snapshot() == l
      ensures fresh(partners)
    {
      token0Vault, token1Vault := l.token0Vault, l.token1Vault;
      token0VaultAmount, token1VaultAmount := l.token0VaultAmount, l.token1VaultAmount;
      lpSupply := l.lpSupply;
      protocolFeesToken0, protocolFeesToken1 := l.protocolFeesToken0, l.protocolFeesToken1;
      fundFeesToken0, fundFeesToken1 := l.fundFeesToken0, l.fundFeesToken1;
      cumulativeTradeFeesToken0 := l.cumulativeTradeFeesToken0;
      cumulativeTradeFeesToken1 := l.cumulativeTradeFeesToken1;
      cumulativeVolumeToken0 := l.cumulativeVolumeToken0;
      cumulativeVolumeToken1 := l.cumulativeVolumeToken1;
      partners := new PartnerInfo[|l.partners|](i requires 0 <= i < |l.partners| => l.partners[i]);
      status, openTime := l.status, l.openTime;
      latestDynamicFeeRate, recentEpoch := l.latestDynamicFeeRate, l.recentEpoch;
      new;
      assert partners[..] == l.partners;
    }

    /** The account's current value. */
    function Snapshot(): PoolLedger
      reads this, partners
    {
      PoolLedger(
        token0Vault, token1Vault, token0VaultAmount, token1VaultAmount, lpSupply,
        protocolFeesToken0, protocolFeesToken1, fundFeesToken0, fundFeesToken1,
        cumulativeTradeFeesToken0, cumulativeTradeFeesToken1,
        cumulativeVolumeToken0, cumulativeVolumeToken1,
        partners[..], status, openTime, latestDynamicFeeRate, recentEpoch)
    }

    /** Puts back a saved value: what the runtime does with an account when
        the transaction that wrote it fails. */
    method Restore(l: PoolLedger)
      requires |l.partners| == partners.Length
      modifies this, partners
      ensures Snapshot() == l
    {
      WritePartners(l.partners);
      RestoreReserves(l);
      RestoreFees(l);
      RestoreCounters(l);
    }

    method RestoreReserves(l: PoolLedger)
      modifies this`token0Vault, this`token1Vault, this`token0VaultAmount, this`token1VaultAmount, this`lpSupply, this`status
      ensures token0Vault == l.token0Vault && token1Vault == l.token1Vault
      ensures token0VaultAmount == l.token0VaultAmount && token1VaultAmount == l.token1VaultAmount
      ensures lpSupply == l.lpSupply && status == l.status
    {
      token0Vault, token1Vault, token0VaultAmount, token1VaultAmount, lpSupply, status :=
        l.token0Vault, l.token1Vault, l.token0VaultAmount, l.token1VaultAmount, l.lpSupply, l.status;
    }

    method RestoreFees(l: PoolLedger)
      modifies this`protocolFeesToken0, this`protocolFeesToken1, this`fundFeesToken0, this`fundFeesToken1
      modifies this`cumulativeTradeFeesToken0, this`cumulativeTradeFeesToken1
      ensures protocolFeesToken0 == l.protocolFeesToken0 && protocolFeesToken1 == l.protocolFeesToken1
      ensures fundFeesToken0 == l.fundFeesToken0 && fundFeesToken1 == l.fundFeesToken1
      ensures cumulativeTradeFeesToken0 == l.cumulativeTradeFeesToken0
      ensures cumulativeTradeFeesToken1 == l.cumulativeTradeFeesToken1
    {
      protocolFeesToken0, protocolFeesToken1, fundFeesToken0, fundFeesToken1 :=
        l.protocolFeesToken0, l.protocolFeesToken1, l.fundFeesToken0, l.fundFeesToken1;
      cumulativeTradeFeesToken0, cumulativeTradeFeesToken1 :=
        l.cumulativeTradeFeesToken0, l.cumulativeTradeFeesToken1;
    }

    method RestoreCounters(l: PoolLedger)
      modifies this`cumulativeVolumeToken0, this`cumulativeVolumeToken1, this`openTime
      modifies this`latestDynamicFeeRate, this`recentEpoch
      ensures cumulativeVolumeToken0 == l.cumulativeVolumeToken0
      ensures cumulativeVolumeToken1 == l.cumulativeVolumeToken1
      ensures openTime == l.openTime
      ensures latestDynamicFeeRate == l.latestDynamicFeeRate && recentEpoch == l.recentEpoch
    {
      cumulativeVolumeToken0, cumulativeVolumeToken1, openTime, latestDynamicFeeRate, recentEpoch :=
        l.cumulativeVolumeToken0, l.cumulativeVolumeToken1, l.openTime, l.latestDynamicFeeRate, l.recentEpoch;
    }

    /** Overwrites the whole partner table. */
    method WritePartners(ps: seq<PartnerInfo>)
      requires |ps| == partners.Length
      modifies partners
      ensures partners[..] == ps
    {
      forall i | 0 <= i < partners.Length {
        partners[i] := ps[i];
      }
    }
  }
}
