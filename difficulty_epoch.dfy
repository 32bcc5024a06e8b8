/** Difficulty-epoch arithmetic of the dashboard. The source computes the
    epoch and the last retarget height in `u64`, and the progress through
    the epoch in `f64`; the latter is modelled here over exact reals. */
module DifficultyEpoch {
  import opened Base

  /** `BLOCKS_PER_DIFFICULTY_PERIOD`: blocks between two retargets. */
  const BLOCKS_PER_DIFFICULTY_PERIOD: nat := 2016

  /** `10.0 * 60.0`: the nominal seconds per block. */
  const TARGET_SECONDS_PER_BLOCK: nat := 600

  /** The epoch, counted from 1, that the block count lies in: epoch `e`
      spans the block counts from `(e - 1) * 2016` to `e * 2016 - 1`. */
  function CurrentDifficultyEpoch(blockCount: u64): (e: u64)
    ensures e >= 1
    ensures (e - 1) * BLOCKS_PER_DIFFICULTY_PERIOD <= blockCount < e * BLOCKS_PER_DIFFICULTY_PERIOD
  {
    blockCount / BLOCKS_PER_DIFFICULTY_PERIOD + 1
  }

  /** The height of the block that opened the current epoch. */
  function HeightOfLastDifficultyAdjustment(blockCount: u64): (h: u64)
    ensures h % BLOCKS_PER_DIFFICULTY_PERIOD == 0
    ensures h <= blockCount && blockCount - h < BLOCKS_PER_DIFFICULTY_PERIOD
  {
    (CurrentDifficultyEpoch(blockCount) - 1) * 2016
  }

  /** `x % 1.0` of `f64` for a non-negative `x`, over exact reals. */
  function FractionalPart(x: real): (f: real)
    requires x >= 0.0
    ensures 0.0 <= f < 1.0
    ensures (x - f).Floor as real == x - f
  {
    x - x.Floor as real
  }

  /** `percent_of_epoch_complete`: the share of the epoch that has passed. */
  function PercentOfEpochComplete(blockCount: u64): (p: real)
    ensures 0.0 <= p < 1.0
    ensures var x := blockCount as real / BLOCKS_PER_DIFFICULTY_PERIOD as real; (x - p).Floor as real == x - p
  {
    FractionalPart(blockCount as real / BLOCKS_PER_DIFFICULTY_PERIOD as real)
  }

  /** `blocks_until_retarget`, from the real-valued formula: it is exactly
      the number of blocks from the block count to the next multiple of
      2016 above it, which lies in (0, 2016]. */
  function BlocksUntilRetarget(blockCount: u64): (n: real)
    ensures n == (CurrentDifficultyEpoch(blockCount) * BLOCKS_PER_DIFFICULTY_PERIOD - blockCount) as real
    ensures 0.0 < n <= BLOCKS_PER_DIFFICULTY_PERIOD as real
  {
    EpochProgress(blockCount);
    (1.0 - PercentOfEpochComplete(blockCount)) * BLOCKS_PER_DIFFICULTY_PERIOD as real
  }

  /** `blocks_since_last_retarget`: exactly the blocks counted since the
      last adjustment height, which is below 2016. */
  function BlocksSinceLastRetarget(blockCount: u64): (n: real)
    ensures n == (blockCount - HeightOfLastDifficultyAdjustment(blockCount)) as real
    ensures n + BlocksUntilRetarget(blockCount) == BLOCKS_PER_DIFFICULTY_PERIOD as real
  {
    BLOCKS_PER_DIFFICULTY_PERIOD as real - BlocksUntilRetarget(blockCount)
  }

  /** `estimated_seconds_until_retarget`: the nominal time for the blocks
      still to come in this epoch, never less than one block's worth. */
  function EstimatedSecondsUntilRetarget(blockCount: u64): (t: real)
    ensures t == (TARGET_SECONDS_PER_BLOCK * (CurrentDifficultyEpoch(blockCount) * BLOCKS_PER_DIFFICULTY_PERIOD - blockCount)) as real
    ensures TARGET_SECONDS_PER_BLOCK as real <= t <= (TARGET_SECONDS_PER_BLOCK * BLOCKS_PER_DIFFICULTY_PERIOD) as real
  {
    10.0 * 60.0 * BlocksUntilRetarget(blockCount)
  }

  /** The ways the average can fail in the source: the `u64` subtraction
      of the timestamps underflows, or the division is by zero blocks. */
  datatype ArithmeticError = TimeUnderflow | DivisionByZero

  /** `average_seconds_per_block_for_current_epoch`: the whole seconds per
      block between the adjustment block and the last block, with the block
      count truncated from the real-valued `blocks_since_last_retarget`. */
  function AverageSecondsPerBlock(blockCount: u64, timeOfLastBlock: u64, timeOfAdjustmentBlock: u64)
    : (r: Result<u64, ArithmeticError>)
    ensures r.Err? <==> timeOfAdjustmentBlock > timeOfLastBlock || blockCount % BLOCKS_PER_DIFFICULTY_PERIOD == 0
    ensures r == Err(TimeUnderflow) <==> timeOfAdjustmentBlock > timeOfLastBlock
    ensures r.Ok? ==>
      var blocks := blockCount % BLOCKS_PER_DIFFICULTY_PERIOD;
      var elapsed := timeOfLastBlock - timeOfAdjustmentBlock;
      r.value * blocks <= elapsed < (r.value + 1) * blocks
  {
    if timeOfAdjustmentBlock > timeOfLastBlock then Err(TimeUnderflow)
    else
      var duration: u64 := timeOfLastBlock - timeOfAdjustmentBlock;
      var blocks := BlocksSinceLastRetarget(blockCount).Floor;
      EpochProgress(blockCount);
      if blocks == 0 then Err(DivisionByZero)
      else Ok(duration / blocks)
  }

  /** The exact-arithmetic reading of src/main.rs:123-129: the fraction of the
      epoch that has passed, times 2016, is the remainder of the block count
      by 2016. */
  lemma EpochProgress(blockCount: u64)
    ensures PercentOfEpochComplete(blockCount) * BLOCKS_PER_DIFFICULTY_PERIOD as real
      == (blockCount % BLOCKS_PER_DIFFICULTY_PERIOD) as real
    ensures blockCount - HeightOfLastDifficultyAdjustment(blockCount) == blockCount % BLOCKS_PER_DIFFICULTY_PERIOD
  {
    var p := BLOCKS_PER_DIFFICULTY_PERIOD;
    var q := blockCount / p;
    var rem := blockCount % p;
    var x := blockCount as real / p as real;
    assert x == q as real + rem as real / p as real;
    assert 0.0 <= rem as real / p as real < 1.0;
    assert x.Floor == q;
  }

  /** The epoch advances by one exactly when the block count reaches a
      multiple of 2016, and otherwise stays. */
  lemma EpochStep(blockCount: u64)
    requires blockCount + 1 < U64_LIMIT
    ensures CurrentDifficultyEpoch(blockCount + 1) == CurrentDifficultyEpoch(blockCount) + 1
      <==> (blockCount + 1) % BLOCKS_PER_DIFFICULTY_PERIOD == 0
    ensures CurrentDifficultyEpoch(blockCount + 1) == CurrentDifficultyEpoch(blockCount)
      <==> (blockCount + 1) % BLOCKS_PER_DIFFICULTY_PERIOD != 0
  {
  }

  /** The last adjustment height is the only multiple of 2016 within the
      2016 blocks up to the block count. */
  lemma LastAdjustmentIsUnique(blockCount: u64, h: nat)
    requires h % BLOCKS_PER_DIFFICULTY_PERIOD == 0
    requires h <= blockCount && blockCount - h < BLOCKS_PER_DIFFICULTY_PERIOD
    ensures h == HeightOfLastDifficultyAdjustment(blockCount)
  {
  }

  /** Within one epoch, the estimate strictly falls as blocks arrive. */
  lemma EstimateFallsWithinEpoch(b1: u64, b2: u64)
    requires b1 < b2
    requires CurrentDifficultyEpoch(b1) == CurrentDifficultyEpoch(b2)
    ensures EstimatedSecondsUntilRetarget(b2) < EstimatedSecondsUntilRetarget(b1)
    ensures EstimatedSecondsUntilRetarget(b1) - EstimatedSecondsUntilRetarget(b2)
      == (TARGET_SECONDS_PER_BLOCK * (b2 - b1)) as real
  {
  }

  /** At the first block count of an epoch no block has passed since the
      retarget, so the average per block is a division by zero. */
  lemma EpochStartHasNoAverage(blockCount: u64, timeOfLastBlock: u64, timeOfAdjustmentBlock: u64)
    requires blockCount % BLOCKS_PER_DIFFICULTY_PERIOD == 0
    requires timeOfAdjustmentBlock <= timeOfLastBlock
    ensures BlocksSinceLastRetarget(blockCount) == 0.0
    ensures BlocksUntilRetarget(blockCount) == BLOCKS_PER_DIFFICULTY_PERIOD as real
    ensures AverageSecondsPerBlock(blockCount, timeOfLastBlock, timeOfAdjustmentBlock) == Err(DivisionByZero)
  {
  }

  /** Block count 700000 lies in epoch 348, whose first block is 699552. */
  lemma Epoch700000()
    ensures CurrentDifficultyEpoch(700000) == 348
    ensures HeightOfLastDifficultyAdjustment(700000) == 699552
    ensures BlocksUntilRetarget(700000) == 1568.0
  {
  }
}
