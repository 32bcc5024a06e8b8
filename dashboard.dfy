/** The `/api/v1/dashboard` route: five node queries combined into one
    snapshot. The node's replies are inputs (the RPC transport is not part of
    this model); every `unwrap()` of the route becomes an `Err` that ends the
    computation, in the order the route unwraps. */
module Dashboard {
  import opened Base
  import opened BlockStats
  import opened DifficultyEpoch

  /** An error reported for one RPC call; its content is opaque here. */
  datatype RpcError = RpcError(message: string)

  /** The node queries the route issues. */
  datatype Query =
    | GetBlockCount
    | GetBlockStats(height: u64)
    | GetChainTxStats
    | GetDifficulty
    | GetNetworkHashPs(nBlocks: u64)

  /** The fields of the chain transaction statistics that the route reads. */
  datatype ChainTxStats = ChainTxStats(txcount: u64, windowTxCount: u64, windowInterval: u64)

  /** What the node answers to each query. Block statistics and the hash
      rate depend on their argument, so they are given for every argument. */
  datatype Node = Node(
    blockCount: Result<u64, RpcError>,
    blockStats: u64 -> Result<StatsResponse, RpcError>,
    chainTxStats: Result<ChainTxStats, RpcError>,
    difficulty: Result<real, RpcError>,
    networkHashPs: u64 -> Result<real, RpcError>)

  /** The points where the route panics. */
  datatype Failure =
    | Upstream(query: Query, reason: RpcError)
    | DataMissing(height: u64, field: StatField)
    | Arithmetic(error: ArithmeticError)

  /** An `f64` quotient over exact reals: finite for a non-zero divisor,
      otherwise the infinity or NaN that `f64` division gives. */
  datatype Quotient = Finite(value: real) | PositiveInfinity | NotANumber

  /** The hash rate is asked for over the last 2016 blocks. */
  const HASH_RATE_WINDOW: u64 := 2016

  /** The hardcoded price and money supply of the route. */
  const PRICE: real := 22122.0
  const TOTAL_MONEY_SUPPLY: real := 70000.1

  /** The route's `Response` record. */
  datatype Snapshot = Snapshot(
    price: real,
    blockCount: u64,
    totalMoneySupply: real,
    timeOfLastBlock: u64,
    totalTransactionsCount: u64,
    tps30Days: Quotient,
    difficulty: real,
    currentDifficultyEpoch: u64,
    blocksUntilRetarget: real,
    averageSecondsPerBlockForCurrentEpoch: u64,
    estimatedSecondsUntilRetarget: real,
    estimatedHashRateForLast2016Blocks: real,
    subsidyInSatsAtCurrentBlockHeight: u64)

  /** `tps_30days`: transactions per second over the node's default window. */
  function TransactionsPerSecond(windowTxCount: u64, windowInterval: u64): (q: Quotient)
    ensures q.Finite? <==> windowInterval > 0
    ensures q.Finite? ==> q.value * windowInterval as real == windowTxCount as real
    ensures q == NotANumber <==> windowInterval == 0 && windowTxCount == 0
  {
    if windowInterval > 0 then Finite(windowTxCount as real / windowInterval as real)
    else if windowTxCount > 0 then PositiveInfinity
    else NotANumber
  }

  /** Unwrapping a node reply: an error fails the route, naming the query. */
  function Fetch<T>(reply: Result<T, RpcError>, query: Query): Result<T, Failure> {
    reply.MapError(e => Upstream(query, e))
  }

  /** The route's computation. The block count is fetched once and is the
      height of both the current-block statistics and the epoch math. */
  function Dashboard(node: Node): (r: Result<Snapshot, Failure>)
    ensures r.Ok? ==> node.blockCount == Ok(r.value.blockCount)
    ensures r.Ok? ==> r.value.currentDifficultyEpoch == CurrentDifficultyEpoch(r.value.blockCount)
    ensures r.Ok? ==> r.value.blockCount % BLOCKS_PER_DIFFICULTY_PERIOD != 0
  {
    var blockCount :- Fetch(node.blockCount, GetBlockCount);
    var epoch := CurrentDifficultyEpoch(blockCount);
    var adjustmentHeight := HeightOfLastDifficultyAdjustment(blockCount);
    var current :- Fetch(node.blockStats(blockCount), GetBlockStats(blockCount));
    var timeOfLastBlock :- StatTime(current).MapError(f => DataMissing(blockCount, f));
    var subsidy :- StatSubsidy(current).MapError(f => DataMissing(blockCount, f));
    var adjustment :- Fetch(node.blockStats(adjustmentHeight), GetBlockStats(adjustmentHeight));
    var timeOfAdjustmentBlock :- StatTime(adjustment).MapError(f => DataMissing(adjustmentHeight, f));
    var hashRate :- Fetch(node.networkHashPs(HASH_RATE_WINDOW), GetNetworkHashPs(HASH_RATE_WINDOW));
    var chain :- Fetch(node.chainTxStats, GetChainTxStats);
    var difficulty :- Fetch(node.difficulty, GetDifficulty);
    var average :- AverageSecondsPerBlock(blockCount, timeOfLastBlock, timeOfAdjustmentBlock).MapError(e => Arithmetic(e));
    Ok(Snapshot(
      PRICE,
      blockCount,
      TOTAL_MONEY_SUPPLY,
      timeOfLastBlock,
      chain.txcount,
      TransactionsPerSecond(chain.windowTxCount, chain.windowInterval),
      difficulty,
      epoch,
      BlocksUntilRetarget(blockCount),
      average,
      EstimatedSecondsUntilRetarget(blockCount),
      hashRate,
      subsidy))
  }

  /** Everything the route needs from the node: every reply received, the
      fields present, the adjustment block not later than the last block,
      and at least one block since the last retarget. */
  predicate Serviceable(node: Node) {
    && node.blockCount.Ok?
    && var b := node.blockCount.value;
    && var h := HeightOfLastDifficultyAdjustment(b);
    && node.blockStats(b).Ok?
    && StatTime(node.blockStats(b).value).Ok?
    && StatSubsidy(node.blockStats(b).value).Ok?
    && node.blockStats(h).Ok?
    && StatTime(node.blockStats(h).value).Ok?
    && node.networkHashPs(HASH_RATE_WINDOW).Ok?
    && node.chainTxStats.Ok?
    && node.difficulty.Ok?
    && StatTime(node.blockStats(h).value).value <= StatTime(node.blockStats(b).value).value
    && b % BLOCKS_PER_DIFFICULTY_PERIOD != 0
  }

  /** No partial snapshot: the route answers exactly when none of its
      queries, field reads or arithmetic steps fails. */
  lemma DashboardSucceedsIff(node: Node)
    ensures Dashboard(node).Ok? <==> Serviceable(node)
  {
  }

  /** What a snapshot holds: the block count as fetched; the last block's
      time and subsidy read from the statistics at that same height; the
      epoch, retarget distance and estimate of that block count; the average
      over the statistics at the last adjustment height; the throughput
      over the chain statistics' window; the other replies passed through. */
  lemma SnapshotMeaning(node: Node)
    requires Dashboard(node).Ok?
    ensures var s := Dashboard(node).value;
      && node.blockCount == Ok(s.blockCount)
      && var b := s.blockCount;
      && var h := HeightOfLastDifficultyAdjustment(b);
      && node.blockStats(b).Ok?
      && StatTime(node.blockStats(b).value) == Ok(s.timeOfLastBlock)
      && StatSubsidy(node.blockStats(b).value) == Ok(s.subsidyInSatsAtCurrentBlockHeight)
      && s.currentDifficultyEpoch == b / BLOCKS_PER_DIFFICULTY_PERIOD + 1
      && s.blocksUntilRetarget == (BLOCKS_PER_DIFFICULTY_PERIOD - b % BLOCKS_PER_DIFFICULTY_PERIOD) as real
      && s.estimatedSecondsUntilRetarget == (TARGET_SECONDS_PER_BLOCK * (BLOCKS_PER_DIFFICULTY_PERIOD - b % BLOCKS_PER_DIFFICULTY_PERIOD)) as real
      && node.blockStats(h).Ok?
      && StatTime(node.blockStats(h).value).Ok?
      && var elapsed := s.timeOfLastBlock - StatTime(node.blockStats(h).value).value;
      && s.averageSecondsPerBlockForCurrentEpoch == elapsed / (b % BLOCKS_PER_DIFFICULTY_PERIOD)
      && node.networkHashPs(HASH_RATE_WINDOW) == Ok(s.estimatedHashRateForLast2016Blocks)
      && node.difficulty == Ok(s.difficulty)
      && node.chainTxStats.Ok? && s.totalTransactionsCount == node.chainTxStats.value.txcount
      && s.tps30Days == TransactionsPerSecond(node.chainTxStats.value.windowTxCount, node.chainTxStats.value.windowInterval)
      && s.price == PRICE && s.totalMoneySupply == TOTAL_MONEY_SUPPLY
  {
  }

  /** The route reads block statistics only at the block count it fetched
      and at that count's last adjustment height: two nodes that agree on
      those replies (and the others) give the same answer. */
  lemma DashboardReadsTwoHeights(n1: Node, n2: Node)
    requires n1.blockCount == n2.blockCount
    requires n1.blockCount.Ok? ==>
      var b := n1.blockCount.value;
      && n1.blockStats(b) == n2.blockStats(b)
      && n1.blockStats(HeightOfLastDifficultyAdjustment(b)) == n2.blockStats(HeightOfLastDifficultyAdjustment(b))
    requires n1.networkHashPs(HASH_RATE_WINDOW) == n2.networkHashPs(HASH_RATE_WINDOW)
    requires n1.chainTxStats == n2.chainTxStats && n1.difficulty == n2.difficulty
    ensures Dashboard(n1) == Dashboard(n2)
  {
  }

  /** A failed block-count query fails the route before anything else. */
  lemma BlockCountFailureFirst(node: Node)
    requires node.blockCount.Err?
    ensures Dashboard(node) == Err(Upstream(GetBlockCount, node.blockCount.error))
  {
  }

  /** A selective current-block response without a timestamp fails the
      route at that field, naming the height it was asked for. */
  lemma MissingTimeFailsAtCurrentHeight(node: Node)
    requires node.blockCount.Ok?
    requires node.blockStats(node.blockCount.value).Ok?
    requires node.blockStats(node.blockCount.value).value.SelectiveStats?
    requires node.blockStats(node.blockCount.value).value.partial.time.None?
    ensures Dashboard(node) == Err(DataMissing(node.blockCount.value, Time))
  {
  }

  /** 5,000,000 transactions over 30 days are about 1.929 per second. */
  lemma ThirtyDayThroughput()
    ensures TransactionsPerSecond(5_000_000, 2_592_000).Finite?
    ensures 1.929 < TransactionsPerSecond(5_000_000, 2_592_000).value < 1.930
  {
  }
}
