/** The coins that blocks create: the reward of each block, and their sum in closed form. */
module Supply {
  import opened Base

  const STEP_BLOCKS: nat := 10_0000
  const REWARDS: seq<nat> := [1, 1, 2, 3, 5, 8] + (Ten(8) + Ten(5) + Ten(3) + Ten(2) + Ten(1) + Ten(1))

  function Ten(v: nat): (s: seq<nat>)
    ensures |s| == 10
  {
    [v, v, v, v, v, v, v, v, v, v]
  }

  /** Coins of one block: `list` holds the reward of each step of a hundred thousand blocks, and after
      its end the reward stays at one. */
  function RewardIn(list: seq<nat>, height: nat): nat {
    var step := height / STEP_BLOCKS;
    if step >= |list| then 1 else list[step]
  }

  /** The rewards of blocks 1 to `height`; genesis creates none. */
  function RewardSum(list: seq<nat>, height: nat): nat {
    if height == 0 then 0 else RewardSum(list, height - 1) + RewardIn(list, height)
  }

  /** The rewards of the first `n` blocks with genesis counted in. */
  function Counted(list: seq<nat>, n: nat): nat {
    if n == 0 then 0 else Counted(list, n - 1) + RewardIn(list, n - 1)
  }

  lemma {:induction false} CountedIs(list: seq<nat>, height: nat)
    requires list != [] && list[0] == 1
    ensures Counted(list, height + 1) == RewardSum(list, height) + 1
  {
    if height > 0 {
      CountedIs(list, height - 1);
    } else {
      assert Counted(list, 0) == 0;
    }
  }

  lemma StepOf(list: seq<nat>, i: nat, start: nat, m: nat)
    requires i < |list| && start == i * STEP_BLOCKS && m < STEP_BLOCKS
    ensures RewardIn(list, start + m) == list[i]
  {
    assert (start + m) / STEP_BLOCKS == i;
  }

  /** Within one step the sum grows evenly. */
  lemma {:induction false} CountedWithin(list: seq<nat>, i: nat, start: nat, m: nat)
    requires i < |list| && start == i * STEP_BLOCKS && m <= STEP_BLOCKS
    ensures Counted(list, start + m) == Counted(list, start) + m * list[i]
  {
    if m > 0 {
      CountedWithin(list, i, start, m - 1);
      StepOf(list, i, start, m - 1);
      OneMoreBlock(m, list[i]);
    }
  }

  lemma OneMoreBlock(m: nat, x: nat)
    requires m > 0
    ensures (m - 1) * x + x == m * x
  {
  }

  lemma {:induction false} CountedBeyond(list: seq<nat>, end: nat, n: nat)
    requires |list| * STEP_BLOCKS <= end <= n
    ensures Counted(list, n) == Counted(list, end) + n - end
    decreases n
  {
    if n > end {
      CountedBeyond(list, end, n - 1);
      assert (n - 1) / STEP_BLOCKS >= |list|;
    }
  }

  /** The table from step `i` on, for `n` more blocks: whole steps at their reward, then the rest of the
      blocks at the reward of the step they end in. Blocks beyond the table are not counted. */
  function TableSum(list: seq<nat>, i: nat, n: nat): nat
    requires i <= |list|
    decreases |list| - i
  {
    if i == |list| then 0
    else if n < STEP_BLOCKS then n * list[i]
    else STEP_BLOCKS * list[i] + TableSum(list, i + 1, n - STEP_BLOCKS)
  }

  /** The closed form of the supply: a sum over at most `|list|` steps, genesis not counted. */
  function Cumulative(list: seq<nat>, height: nat): int {
    TableSum(list, 0, height + 1) - 1
  }

  /** Inside the table the sum over steps is the sum over blocks. */
  lemma {:induction false} TableIsSum(list: seq<nat>, i: nat, start: nat, n: nat)
    requires i <= |list| && start == i * STEP_BLOCKS && start + n <= |list| * STEP_BLOCKS
    ensures Counted(list, start) + TableSum(list, i, n) == Counted(list, start + n)
    decreases |list| - i
  {
    if i < |list| {
      if n < STEP_BLOCKS {
        CountedWithin(list, i, start, n);
      } else {
        CountedWithin(list, i, start, STEP_BLOCKS);
        TableIsSum(list, i + 1, start + STEP_BLOCKS, n - STEP_BLOCKS);
      }
    }
  }

  /** Beyond the table it stands still. */
  lemma {:induction false} TableStops(list: seq<nat>, i: nat, start: nat, n: nat, whole: nat)
    requires i <= |list| && start == i * STEP_BLOCKS && start + whole == |list| * STEP_BLOCKS && whole <= n
    ensures TableSum(list, i, n) == TableSum(list, i, whole)
    decreases |list| - i
  {
    if i < |list| {
      TableStops(list, i + 1, start + STEP_BLOCKS, n - STEP_BLOCKS, whole - STEP_BLOCKS);
    }
  }

  /** The closed form is the sum of the rewards of blocks 1 to `height` exactly below the end of the last
      step, height 6,600,000; from there on it lacks one coin for every block. */
  lemma CumulativeExact(list: seq<nat>, end: nat, height: nat)
    requires list != [] && list[0] == 1 && end == |list| * STEP_BLOCKS
    ensures Cumulative(list, height) == RewardSum(list, height) <==> height < end
    ensures height >= end ==> RewardSum(list, height) == Cumulative(list, height) + height + 1 - end
  {
    CountedIs(list, height);
    if height < end {
      TableIsSum(list, 0, 0, height + 1);
    } else {
      TableStops(list, 0, 0, height + 1, end);
      TableIsSum(list, 0, 0, end);
      CountedBeyond(list, end, height + 1);
    }
  }

  lemma RewardsEnd()
    ensures |REWARDS| == 66 && |REWARDS| * STEP_BLOCKS == 660_0000 && REWARDS[0] == 1
  {
  }

  lemma RewardsSteps()
    ensures |REWARDS| == 66
    ensures REWARDS[0] == 1 && REWARDS[1] == 1 && REWARDS[2] == 2 && REWARDS[3] == 3 && REWARDS[4] == 5 &&
      REWARDS[5] == 8
    ensures forall i :: 6 <= i < 66 ==>
      REWARDS[i] == if i < 16 then 8 else if i < 26 then 5 else if i < 36 then 3 else if i < 46 then 2 else 1
  {
    assert forall v, i :: 0 <= i < 10 ==> Ten(v)[i] == v;
  }

  /** The reward of every block of the main network: one coin, with more from height 200,000 on, most of all
      between 500,000 and 1,600,000, and then ever fewer until it is one again from 4,600,000 on. */
  lemma RewardByHeight(height: nat)
    ensures RewardIn(REWARDS, height) ==
      if height < 20_0000 then 1
      else if height < 30_0000 then 2
      else if height < 40_0000 then 3
      else if height < 50_0000 then 5
      else if height < 160_0000 then 8
      else if height < 260_0000 then 5
      else if height < 360_0000 then 3
      else if height < 460_0000 then 2
      else 1
  {
    RewardsSteps();
    var step := height / STEP_BLOCKS;
    assert step * 10_0000 <= height < step * 10_0000 + 10_0000;
  }

  /** Steps of the same reward. */
  lemma {:induction false} EvenSteps(list: seq<nat>, i: nat, j: nat, v: nat, n: nat)
    requires i <= j <= |list| && (j - i) * STEP_BLOCKS <= n && forall k :: i <= k < j ==> list[k] == v
    ensures TableSum(list, i, n) == (j - i) * STEP_BLOCKS * v + TableSum(list, j, n - (j - i) * STEP_BLOCKS)
    decreases j - i
  {
    if i < j {
      EvenSteps(list, i + 1, j, v, n - STEP_BLOCKS);
      assert (j - i) * STEP_BLOCKS * v == STEP_BLOCKS * v + (j - i - 1) * STEP_BLOCKS * v;
    }
  }

  lemma LaterSteps()
    ensures TableSum(REWARDS, 16, 500_0000) == 1200_0000
  {
    RewardsSteps();
    EvenSteps(REWARDS, 16, 26, 5, 500_0000);
    EvenSteps(REWARDS, 26, 36, 3, 400_0000);
    EvenSteps(REWARDS, 36, 46, 2, 300_0000);
    EvenSteps(REWARDS, 46, 66, 1, 200_0000);
  }

  /** All that the table gives out: 22 million coins, genesis counted in. */
  lemma RewardsTotal()
    ensures TableSum(REWARDS, 0, 660_0000) == 2200_0000
  {
    RewardsSteps();
    EvenSteps(REWARDS, 0, 2, 1, 660_0000);
    EvenSteps(REWARDS, 2, 3, 2, 640_0000);
    EvenSteps(REWARDS, 3, 4, 3, 630_0000);
    EvenSteps(REWARDS, 4, 5, 5, 620_0000);
    EvenSteps(REWARDS, 5, 16, 8, 610_0000);
    LaterSteps();
  }

  lemma RewardsSmall()
    ensures forall i :: 0 <= i < |REWARDS| ==> 0 < REWARDS[i] <= 8
  {
    assert forall v, i :: 0 <= i < 10 ==> Ten(v)[i] == v;
  }

  method CumulativeBlockReward(list: seq<nat>, height: nat) returns (total: int)
    ensures total == Cumulative(list, height)
  {
    var cbhei: nat := height + 1;
    total := 0;
    var i := 0;
    while i < |list|
      invariant i <= |list| && total + TableSum(list, i, cbhei) == TableSum(list, 0, height + 1)
    {
      var v := list[i];
      if cbhei < STEP_BLOCKS {
        total := total + cbhei * v;
        break;
      }
      total := total + STEP_BLOCKS * v;
      cbhei := cbhei - STEP_BLOCKS;
      i := i + 1;
    }
    total := total - 1;
  }
}
