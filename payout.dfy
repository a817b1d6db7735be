/** The payout calculator of faucet.py (`pay_address`, line 56):
    `min(int(balance * k), koin_payout)`. The configured factor k is a rational
    kNum / kDen here, so `int(...)` is exact truncation of that fraction. */
module Payout {
  import opened PyInt

  /** The amount one accepted request is paid, in minor units of the token. */
  function PayoutAmount(balance: int, kNum: nat, kDen: nat, cap: int): (amount: int)
    requires kDen > 0
    ensures amount <= cap
    // what the custodial balance affords at rate k, and not a whole unit less
    ensures balance >= 0 ==> amount * kDen <= balance * kNum
    ensures balance >= 0 ==> amount == cap || balance * kNum < (amount + 1) * kDen
    ensures balance >= 0 && cap >= 0 ==> amount >= 0
    ensures balance >= 0 && kNum <= kDen ==> amount <= balance
  {
    var share := Trunc(balance * kNum, kDen);
    ShareWithinBalance(balance, kNum, kDen, share);
    if share < cap then share else cap
  }

  /** The truncated share of a non-negative balance brackets balance * k, and is
      at most the balance itself when k <= 1. */
  lemma ShareWithinBalance(balance: int, kNum: nat, kDen: nat, q: int)
    requires kDen > 0
    requires q == Trunc(balance * kNum, kDen)
    ensures balance >= 0 ==> 0 <= q * kDen <= balance * kNum < q * kDen + kDen
    ensures balance >= 0 && kNum <= kDen ==> q <= balance
  {
  }

  /** The payout is the largest amount within the cap that balance * k affords:
      no amount a with a <= cap and a <= balance * k exceeds it. */
  lemma PayoutIsLargestAffordable(balance: int, kNum: nat, kDen: nat, cap: int, a: int)
    requires kDen > 0 && balance >= 0
    requires a <= cap && a * kDen <= balance * kNum
    ensures a <= PayoutAmount(balance, kNum, kDen, cap)
  {
  }

  /** The configuration faucet.py starts from: a balance of 10000000000 minor
      units (1000 KOIN) and k = 0.00001 give 100000 units, unless the cap is lower. */
  lemma StartingPayout(cap: int)
    ensures PayoutAmount(10000000000, 1, 100000, cap) == if cap < 100000 then cap else 100000
  {
  }

  /** 1000000 units at k = 0.00001 with a cap of 100 pay out 10 units. */
  lemma SmallBalancePayout()
    ensures PayoutAmount(1000000, 1, 100000, 100) == 10
  {
  }
}
