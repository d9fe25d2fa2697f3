/** The reward that a staker would be paid now (core/cometa.py). */
module Rewards {

  const REWARD_PER_TOKEN_SCALE: nat := 1_000_000_000_000_000_000

  datatype Pool = Pool(lastUpdateBlock: nat, endBlock: nat, totalStaked: nat, rewardPerBlock: nat, rewardPerTokenStored: nat)
  {
    /** Rewards accrue until the end block; the count is negative for a pool that was updated after it. */
    function BlocksPassed(currentBlock: nat): int {
      (if currentBlock < endBlock then currentBlock else endBlock) - lastUpdateBlock
    }

    /** Both divisions round down, also below zero; the divisors are positive. */
    function PerToken(currentBlock: nat): int
      requires totalStaked > 0
    {
      BlocksPassed(currentBlock) * rewardPerBlock * REWARD_PER_TOKEN_SCALE / totalStaked
    }
  }

  function RecalculateReward(pool: Pool, currentBlock: nat, staked: nat, reward: nat, paid: int): int {
    if pool.lastUpdateBlock >= currentBlock || pool.totalStaked == 0 || staked == 0 then reward
    else reward + staked * (pool.rewardPerTokenStored + pool.PerToken(currentBlock) - paid) / REWARD_PER_TOKEN_SCALE
  }

  datatype Staker = Staker(staked: nat, reward: nat)

  /** What a staker gains who was settled when the pool was last updated. */
  function Accrued(pool: Pool, currentBlock: nat, s: Staker): int {
    RecalculateReward(pool, currentBlock, s.staked, s.reward, pool.rewardPerTokenStored) - s.reward
  }

  function TotalAccrued(pool: Pool, currentBlock: nat, stakers: seq<Staker>): int {
    if stakers == [] then 0 else Accrued(pool, currentBlock, stakers[0]) + TotalAccrued(pool, currentBlock, stakers[1..])
  }

  function TotalStake(stakers: seq<Staker>): nat {
    if stakers == [] then 0 else stakers[0].staked + TotalStake(stakers[1..])
  }

  /** What the pool gives out from its last update to this block. */
  function Released(pool: Pool, currentBlock: nat): int {
    if pool.lastUpdateBlock >= currentBlock then 0 else pool.BlocksPassed(currentBlock) * pool.rewardPerBlock
  }

  function Times(a: int, b: int): int {
    a * b
  }

  lemma Distribute(a: int, b: int, q: int)
    ensures Times(a + b, q) == Times(a, q) + Times(b, q)
  {
  }

  /** Rounding down loses less than one unit. */
  lemma Rounds(a: int, b: int)
    requires b > 0
    ensures a - b < Times(a / b, b) <= a
  {
  }

  lemma AccruedBounds(pool: Pool, currentBlock: nat, s: Staker)
    requires pool.lastUpdateBlock < currentBlock && pool.totalStaked > 0
    ensures var q := pool.PerToken(currentBlock);
            Times(s.staked, q) - REWARD_PER_TOKEN_SCALE
            < Times(Accrued(pool, currentBlock, s), REWARD_PER_TOKEN_SCALE)
            <= Times(s.staked, q)
  {
    var q := pool.PerToken(currentBlock);
    assert s.staked != 0 ==> Accrued(pool, currentBlock, s) == Times(s.staked, q) / REWARD_PER_TOKEN_SCALE by {
      assert pool.rewardPerTokenStored + q - pool.rewardPerTokenStored == q;
    }
    Rounds(Times(s.staked, q), REWARD_PER_TOKEN_SCALE);
  }

  lemma {:induction false} TotalBounds(pool: Pool, currentBlock: nat, stakers: seq<Staker>)
    requires pool.lastUpdateBlock < currentBlock && pool.totalStaked > 0
    ensures var q := pool.PerToken(currentBlock);
            Times(TotalStake(stakers), q) - |stakers| * REWARD_PER_TOKEN_SCALE
            <= Times(TotalAccrued(pool, currentBlock, stakers), REWARD_PER_TOKEN_SCALE)
            <= Times(TotalStake(stakers), q)
  {
    if stakers != [] {
      AccruedBounds(pool, currentBlock, stakers[0]);
      TotalBounds(pool, currentBlock, stakers[1..]);
      hide Times;
      Distribute(stakers[0].staked, TotalStake(stakers[1..]), pool.PerToken(currentBlock));
      Distribute(Accrued(pool, currentBlock, stakers[0]), TotalAccrued(pool, currentBlock, stakers[1..]), REWARD_PER_TOKEN_SCALE);
    }
  }

  lemma PerTokenBounds(pool: Pool, currentBlock: nat)
    requires pool.lastUpdateBlock < currentBlock && pool.totalStaked > 0
    ensures var released := Times(Released(pool, currentBlock), REWARD_PER_TOKEN_SCALE);
            released - pool.totalStaked < Times(pool.totalStaked, pool.PerToken(currentBlock)) <= released
  {
    Rounds(Times(Released(pool, currentBlock), REWARD_PER_TOKEN_SCALE), pool.totalStaked);
    Commutes(pool.totalStaked, pool.PerToken(currentBlock));
  }

  lemma Commutes(a: int, b: int)
    ensures Times(a, b) == Times(b, a)
  {
  }

  lemma TimesOrder(a: int, b: int, q: int)
    requires a <= b && q >= 0
    ensures Times(a, q) <= Times(b, q)
  {
  }

  lemma Cancel(a: int, b: int, q: int)
    requires q > 0 && Times(a, q) <= Times(b, q)
    ensures a <= b
  {
    if a > b {
      TimesOrder(b + 1, a, q);
    }
  }

  lemma PerTokenNotNegative(pool: Pool, currentBlock: nat)
    requires pool.totalStaked > 0 && pool.lastUpdateBlock < currentBlock && pool.lastUpdateBlock <= pool.endBlock
    ensures pool.PerToken(currentBlock) >= 0
  {
    TimesOrder(0, pool.BlocksPassed(currentBlock), pool.rewardPerBlock);
    TimesOrder(0, pool.BlocksPassed(currentBlock) * pool.rewardPerBlock, REWARD_PER_TOKEN_SCALE);
  }

  /** All stakers together never gain more than the pool gives out. */
  lemma NeverOverDistributed(pool: Pool, currentBlock: nat, stakers: seq<Staker>)
    requires pool.lastUpdateBlock <= pool.endBlock && TotalStake(stakers) <= pool.totalStaked
    ensures TotalAccrued(pool, currentBlock, stakers) <= Released(pool, currentBlock)
  {
    if pool.lastUpdateBlock >= currentBlock || pool.totalStaked == 0 {
      NothingAccrues(pool, currentBlock, stakers);
    } else {
      var q := pool.PerToken(currentBlock);
      TotalBounds(pool, currentBlock, stakers);
      PerTokenBounds(pool, currentBlock);
      PerTokenNotNegative(pool, currentBlock);
      hide Times;
      TimesOrder(TotalStake(stakers), pool.totalStaked, q);
      Cancel(TotalAccrued(pool, currentBlock, stakers), Released(pool, currentBlock), REWARD_PER_TOKEN_SCALE);
    }
  }

  lemma {:induction false} NothingAccrues(pool: Pool, currentBlock: nat, stakers: seq<Staker>)
    requires pool.lastUpdateBlock >= currentBlock || pool.totalStaked == 0
    ensures TotalAccrued(pool, currentBlock, stakers) == 0
    ensures pool.lastUpdateBlock <= pool.endBlock ==> Released(pool, currentBlock) >= 0
  {
    if stakers != [] {
      NothingAccrues(pool, currentBlock, stakers[1..]);
    }
    if pool.lastUpdateBlock <= pool.endBlock && pool.lastUpdateBlock < currentBlock {
      TimesOrder(0, pool.BlocksPassed(currentBlock), pool.rewardPerBlock);
    }
  }

  /** When the stakes make up the total, what is lost to rounding is less than one unit each plus total / 10^18. */
  lemma ShortfallIsSmall(pool: Pool, currentBlock: nat, stakers: seq<Staker>)
    requires pool.lastUpdateBlock < currentBlock && TotalStake(stakers) == pool.totalStaked > 0
    ensures (Released(pool, currentBlock) - TotalAccrued(pool, currentBlock, stakers)) * REWARD_PER_TOKEN_SCALE
            < |stakers| * REWARD_PER_TOKEN_SCALE + pool.totalStaked
  {
    TotalBounds(pool, currentBlock, stakers);
    PerTokenBounds(pool, currentBlock);
    Distribute(Released(pool, currentBlock), -TotalAccrued(pool, currentBlock, stakers), REWARD_PER_TOKEN_SCALE);
  }

  /** Splitting a stake never earns more than keeping it together. */
  lemma SplittingNeverPays(pool: Pool, currentBlock: nat, a: Staker, b: Staker, reward: nat)
    requires pool.lastUpdateBlock <= pool.endBlock
    ensures Accrued(pool, currentBlock, a) + Accrued(pool, currentBlock, b)
            <= Accrued(pool, currentBlock, Staker(a.staked + b.staked, reward))
  {
    if pool.lastUpdateBlock < currentBlock && pool.totalStaked > 0 {
      var q := pool.PerToken(currentBlock);
      var whole := Staker(a.staked + b.staked, reward);
      AccruedBounds(pool, currentBlock, a);
      AccruedBounds(pool, currentBlock, b);
      AccruedBounds(pool, currentBlock, whole);
      hide Times;
      Distribute(a.staked, b.staked, q);
      Distribute(Accrued(pool, currentBlock, a), Accrued(pool, currentBlock, b), REWARD_PER_TOKEN_SCALE);
      Below(Accrued(pool, currentBlock, a) + Accrued(pool, currentBlock, b), Accrued(pool, currentBlock, whole),
            REWARD_PER_TOKEN_SCALE, Times(whole.staked, q));
    }
  }

  /** A floor is the largest multiple below. */
  lemma Below(a: int, f: int, q: int, x: int)
    requires q > 0 && Times(a, q) <= x && x - q < Times(f, q)
    ensures a <= f
  {
    if a > f {
      TimesOrder(f + 1, a, q);
      Distribute(f, 1, q);
    }
  }

  /**
   * A staker who was settled with the pool loses reward exactly when the pool was last updated after its end:
   * the count of blocks is then negative, and nothing stops it from being taken back.
   */
  lemma LosesExactlyAfterTheEnd(pool: Pool, currentBlock: nat, s: Staker)
    requires pool.lastUpdateBlock < currentBlock && pool.totalStaked > 0 && s.staked > 0
    ensures Accrued(pool, currentBlock, s) < 0 <==> pool.endBlock < pool.lastUpdateBlock && pool.rewardPerBlock > 0
  {
    var q := pool.PerToken(currentBlock);
    AccruedBounds(pool, currentBlock, s);
    if pool.endBlock < pool.lastUpdateBlock && pool.rewardPerBlock > 0 {
      PerTokenNegative(pool, currentBlock);
      TimesOrder(1, s.staked, -q);
      if Accrued(pool, currentBlock, s) >= 0 {
        TimesOrder(0, Accrued(pool, currentBlock, s), REWARD_PER_TOKEN_SCALE);
      }
      assert Times(s.staked, q) == -Times(s.staked, -q);
    } else {
      if pool.lastUpdateBlock <= pool.endBlock {
        PerTokenNotNegative(pool, currentBlock);
      }
      assert q >= 0;
      TimesOrder(0, s.staked, q);
      Below(0, Accrued(pool, currentBlock, s), REWARD_PER_TOKEN_SCALE, Times(s.staked, q));
    }
  }

  lemma PerTokenNegative(pool: Pool, currentBlock: nat)
    requires pool.endBlock < pool.lastUpdateBlock < currentBlock && pool.rewardPerBlock > 0 && pool.totalStaked > 0
    ensures pool.PerToken(currentBlock) < 0
  {
    PerTokenBounds(pool, currentBlock);
    var blocks := pool.BlocksPassed(currentBlock);
    TimesOrder(blocks, -1, pool.rewardPerBlock);
    TimesOrder(blocks * pool.rewardPerBlock, -1, REWARD_PER_TOKEN_SCALE);
    if pool.PerToken(currentBlock) >= 0 {
      TimesOrder(0, pool.totalStaked, pool.PerToken(currentBlock));
    }
  }

  /** The loss is real: a pool that was updated ten blocks after its end takes ten blocks back. */
  lemma LossExample()
    ensures RecalculateReward(Pool(110, 100, 1, 5, 0), 120, 1, 70, 0) == 20
  {
  }
}
