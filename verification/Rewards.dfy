/** Products and quotients of naturals behind names, so that each proof below can use just the facts
    it needs about them. */
module Products {
  function Mul(a: nat, b: nat): nat { a * b }

  /** Division rounding down, as on the source's unsigned words. */
  function Div(x: nat, d: nat): nat
    requires d > 0
  {
    x / d
  }

  lemma MulLe(a: nat, b: nat, c: nat, d: nat)
    requires a <= b && c <= d
    ensures Mul(a, c) <= Mul(b, d)
  {
    assert a * c <= b * c && b * c <= b * d;
  }

  lemma MulAssoc(a: nat, b: nat, c: nat)
    ensures Mul(Mul(a, b), c) == Mul(a, Mul(b, c))
  {
  }

  lemma MulAdd(a: nat, b: nat, c: nat)
    ensures Mul(a + b, c) == Mul(a, c) + Mul(b, c) && Mul(c, a + b) == Mul(c, a) + Mul(c, b)
  {
  }

  lemma MulPos(a: nat, b: nat)
    requires a > 0 && b > 0
    ensures Mul(a, b) > 0 && Mul(1, b) == b && Mul(a, 1) == a
  {
    assert a * b >= 1 * b;
  }

  lemma DivSpec(x: nat, d: nat)
    requires d > 0
    ensures Mul(Div(x, d), d) <= x < Mul(Div(x, d), d) + d
  {
  }

  lemma DivUnique(x: nat, d: nat, q: nat)
    requires d > 0 && Mul(q, d) <= x < Mul(q, d) + d
    ensures Div(x, d) == q
  {
    hide Mul, Div;
    var k := Div(x, d);
    DivSpec(x, d);
    MulPos(1, d);
    MulAdd(k, 1, d);
    MulAdd(q, 1, d);
    if k < q {
      MulLe(k + 1, q, d, d);
    } else if k > q {
      MulLe(q + 1, k, d, d);
    }
  }

  lemma DivBound(x: nat, d: nat, b: nat)
    requires d > 0 && x < Mul(b + 1, d)
    ensures Div(x, d) <= b
  {
    hide Mul, Div;
    DivSpec(x, d);
    if Div(x, d) > b {
      MulLe(b + 1, Div(x, d), d, d);
    }
  }

  lemma DivShrinks(x: nat, d: nat)
    requires d > 0
    ensures Div(x, d) <= x
  {
    hide Mul, Div;
    DivSpec(x, d);
    if Div(x, d) > 0 {
      MulLe(Div(x, d), Div(x, d), 1, d);
      MulPos(Div(x, d), 1);
    }
  }

  lemma DivAdds(x: nat, y: nat, d: nat)
    requires d > 0
    ensures Div(x, d) + Div(y, d) <= Div(x + y, d) <= Div(x, d) + Div(y, d) + 1
  {
    hide Mul, Div;
    var p, q := Div(x, d), Div(y, d);
    DivSpec(x, d);
    DivSpec(y, d);
    MulAdd(p, q, d);
    MulAdd(p + q, 1, d);
    MulPos(1, d);
    if x + y < Mul(p + q + 1, d) {
      DivUnique(x + y, d, p + q);
    } else {
      DivUnique(x + y, d, p + q + 1);
    }
  }
}

/** The reward formulas of an epoch. */
module Rewards {
  import opened Words
  import opened Products

  const CONSTANT_ISSUANCE_EPOCH := 3650

  /** The issuance rate reduction factors, 0.85^(n/365) scaled by 10000; only their range matters here. */
  type RateTable = t: seq<u64> | |t| == CONSTANT_ISSUANCE_EPOCH && forall i | 0 <= i < |t| :: t[i] <= 10000
    witness seq(CONSTANT_ISSUANCE_EPOCH, _ => 0)

  /** The `as u64` cast of the source: it keeps the low 64 bits. */
  function Truncate(x: u128): u64 { x % (U64_MAX + 1) }

  lemma TruncateExact(x: u128)
    requires x <= U64_MAX
    ensures Truncate(x) == x
  {
  }

  /** Issued grays as a fraction (numerator, denominator). */
  function Issuance(table: RateTable, epoch: u64, power: u64): (r: (u128, u128))
    ensures 4371 * r.0 <= Mul(power, r.1)
    ensures r.0 <= U64_MAX * 8_350_000
    ensures 365_000 <= r.1 <= 36_500_000_000
  {
    if epoch >= CONSTANT_ISSUANCE_EPOCH then (power * 15, 365_000)
    else
      MulLe(power, power, 835 * table[epoch], 8_350_000);
      (Mul(power, 835 * table[epoch]), 36_500_000_000)
  }

  /** Reward of a whole pool for an epoch.  Every `u128` step is in range (its type says so) and the
      result is far below the pool's power. */
  function PoolReward(table: RateTable, epoch: u64, power: u64, proposed: u32, expected: u32): (r: u64)
    ensures 4371 * r <= power
  {
    hide Mul, Div, Truncate;
    if expected == 0 then 0
    else
      var (num, den) := Issuance(table, epoch, power);
      if proposed > expected then
        RewardBound(num, den, power);
        TruncateExact(Div(num, den));
        Truncate(Div(num, den))
      else
        ScaledRewardBound(num, den, power, proposed, expected);
        ScaledFits(num, den, proposed, expected);
        var scaled: u128 := Mul(num, proposed);
        var over: u128 := Mul(den, expected);
        TruncateExact(Div(scaled, over));
        Truncate(Div(scaled, over))
  }

  lemma ScaledFits(num: nat, den: nat, proposed: u32, expected: u32)
    requires num <= U64_MAX * 8_350_000 && den <= 36_500_000_000
    ensures Mul(num, proposed) <= U128_MAX && Mul(den, expected) <= U128_MAX
  {
    MulLe(num, U64_MAX * 8_350_000, proposed, U32_MAX);
    MulLe(den, 36_500_000_000, expected, U32_MAX);
  }

  lemma RewardBound(num: nat, den: nat, power: u64)
    requires den > 0 && 4371 * num <= Mul(power, den)
    ensures Div(num, den) <= num && Div(num, den) <= U64_MAX && 4371 * Div(num, den) <= power
  {
    hide Mul, Div;
    var q := Div(num, den);
    DivSpec(num, den);
    DivShrinks(num, den);
    MulTimes(4371, q, den);
    if 4371 * q > power {
      MulLe(power + 1, 4371 * q, den, den);
      MulAdd(power, 1, den);
      MulPos(1, den);
    }
  }

  lemma MulTimes(k: nat, a: nat, b: nat)
    ensures Mul(k * a, b) == k * Mul(a, b)
  {
  }

  lemma ScaledRewardBound(num: nat, den: nat, power: u64, proposed: nat, expected: nat)
    requires den > 0 && 4371 * num <= Mul(power, den) && proposed <= expected && expected > 0
    ensures Mul(den, expected) > 0
    ensures var q := Div(Mul(num, proposed), Mul(den, expected));
      q <= Mul(num, proposed) && q <= U64_MAX && 4371 * q <= power
  {
    hide Mul, Div;
    MulPos(den, expected);
    MulLe(num, num, proposed, expected);
    MulLe(4371 * num, Mul(power, den), expected, expected);
    MulTimes(4371, num, expected);
    MulAssoc(power, den, expected);
    RewardBound(Mul(num, proposed), Mul(den, expected), power);
  }

  /** The documented formula: issuance scaled by min(proposed / expected, 1), rounded down once. */
  lemma PoolRewardFormula(table: RateTable, epoch: u64, power: u64, proposed: u32, expected: u32)
    requires expected > 0
    ensures var (num, den) := Issuance(table, epoch, power);
      && Mul(den, expected) > 0
      && PoolReward(table, epoch, power, proposed, expected)
        == Div(Mul(num, Min(proposed, expected)), Mul(den, expected))
  {
    hide Mul, Div, Truncate, Issuance;
    var (num, den) := Issuance(table, epoch, power);
    ScaledRewardBound(num, den, power, Min(proposed, expected), expected);
    ScaledFits(num, den, Min(proposed, expected), expected);
    if proposed > expected {
      RewardBound(num, den, power);
      TruncateExact(Div(num, den));
      DivCancel(num, den, expected);
    } else {
      TruncateExact(Div(Mul(num, proposed), Mul(den, expected)));
    }
  }

  lemma DivCancel(num: nat, den: nat, k: nat)
    requires den > 0 && k > 0
    ensures Mul(den, k) > 0 && Div(Mul(num, k), Mul(den, k)) == Div(num, den)
  {
    hide Mul, Div;
    var q := Div(num, den);
    DivSpec(num, den);
    MulPos(den, k);
    MulLe(Mul(q, den), num, k, k);
    MulAssoc(q, den, k);
    MulLe(num + 1, Mul(q, den) + den, k, k);
    MulAdd(num, 1, k);
    MulPos(1, k);
    MulAdd(Mul(q, den), den, k);
    DivUnique(Mul(num, k), Mul(den, k), q);
  }

  /** A stake's share of the pool reward before commission. */
  function Share(reward: nat, stake: nat, total: nat): nat
    requires total > 0
  {
    Div(Mul(reward, stake), total)
  }

  function Commission(reward: nat, rate: nat, stake: nat, total: nat): nat
    requires total > 0
  {
    Div(Mul(Mul(rate, reward), stake), 100 * total)
  }

  lemma GrossFits(reward: u64, stake: u64)
    ensures Mul(reward, stake) <= U128_MAX
  {
    MulLe(reward, U64_MAX, stake, U64_MAX);
  }

  /** (what the stake gets, commission for the operator).  The requirement is that no `u128` product
      overflows, which the source meets for every reward that PoolReward returns. */
  function StakeReward(reward: u64, rate: u8, stake: u64, total: u64): (u64, u64)
    requires Mul(Mul(rate, reward), stake) <= U128_MAX
  {
    hide Mul, Div, Truncate;
    if total == 0 then (0, 0)
    else
      GrossFits(reward, stake);
      DivShrinks(Mul(reward, stake), total);
      DivShrinks(Mul(Mul(rate, reward), stake), 100 * total);
      var share: u128 := Div(Mul(reward, stake), total);
      var commission: u128 := Div(Mul(Mul(rate, reward), stake), 100 * total);
      (Truncate(Max(share - commission, 0)), Truncate(commission))
  }

  /** Any reward PoolReward can return is small enough for StakeReward's products. */
  lemma ProductsFit(reward: u64, rate: u8, stake: u64)
    requires 4371 * reward <= U64_MAX
    ensures Mul(Mul(rate, reward), stake) <= U128_MAX
  {
    MulLe(rate, 255, reward, reward);
    MulLe(Mul(rate, reward), U64_MAX, stake, U64_MAX);
  }

  /** With a percentage as commission rate, reward and commission add up to exactly the share. */
  lemma StakeRewardSplits(reward: u64, rate: u8, stake: u64, total: u64)
    requires Mul(Mul(rate, reward), stake) <= U128_MAX
    requires rate <= 100 && 0 < total && stake <= total
    ensures var (r, c) := StakeReward(reward, rate, stake, total);
      && r + c == Share(reward, stake, total) <= reward
      && c == Commission(reward, rate, stake, total)
  {
    hide Mul, Div, Truncate;
    GrossFits(reward, stake);
    ShareBound(reward, stake, total);
    CommissionBound(reward, rate, stake, total);
    var share, commission := Share(reward, stake, total), Commission(reward, rate, stake, total);
    TruncateExact(share - commission);
    TruncateExact(commission);
  }

  /** The stake may be the whole total, although the source's comment asks for less: the only stake of a
      pool then gets all of the reward but the commission. */
  lemma {:induction false} SoleStake(reward: u64, rate: u8, total: u64)
    requires Mul(Mul(rate, reward), total) <= U128_MAX && rate <= 100 && 0 < total
    ensures var (r, c) := StakeReward(reward, rate, total, total); r + c == reward
  {
    hide StakeReward, Share;
    StakeRewardSplits(reward, rate, total, total);
    ShareAll(reward, total);
  }

  lemma {:induction false} SoleStakeExample()
    ensures Mul(Mul(10, 1_000), 7) <= U128_MAX && StakeReward(1_000, 10, 7, 7) == (900, 100)
  {
    assert Div(7_000, 7) == 1_000 && Div(70_000, 700) == 100;
  }

  lemma ShareBound(reward: nat, stake: nat, total: nat)
    requires 0 < total && stake <= total
    ensures Share(reward, stake, total) <= reward
  {
    hide Mul, Div;
    MulLe(reward, reward, stake, total);
    MulAdd(reward, 1, total);
    MulPos(1, total);
    DivBound(Mul(reward, stake), total, reward);
  }

  lemma CommissionBound(reward: nat, rate: nat, stake: nat, total: nat)
    requires 0 < total && rate <= 100
    ensures Commission(reward, rate, stake, total) <= Share(reward, stake, total)
  {
    hide Mul, Div;
    var gross := Mul(reward, stake);
    var q := Div(gross, total);
    MulAssoc(rate, reward, stake);
    MulLe(rate, 100, gross, gross);
    Hundred(gross, q, total);
    DivSpec(gross, total);
    DivBound(Mul(rate, gross), 100 * total, q);
  }

  lemma Hundred(gross: nat, q: nat, total: nat)
    ensures Mul(100, gross) == 100 * gross
    ensures Mul(q + 1, 100 * total) == 100 * (Mul(q, total) + total)
  {
  }

  /** Rounding loses at most one gray per additional stake. */
  lemma ShareAdds(reward: nat, a: nat, b: nat, total: nat)
    requires total > 0
    ensures Share(reward, a, total) + Share(reward, b, total)
         <= Share(reward, a + b, total)
         <= Share(reward, a, total) + Share(reward, b, total) + 1
  {
    hide Mul, Div;
    MulAdd(a, b, reward);
    DivAdds(Mul(reward, a), Mul(reward, b), total);
  }

  lemma ShareAll(reward: nat, total: nat)
    requires total > 0
    ensures Share(reward, total, total) == reward && Share(reward, 0, total) == 0
  {
    DivUnique(Mul(reward, total), total, reward);
    DivUnique(0, total, 0);
  }
}
