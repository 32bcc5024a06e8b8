# bitcoind REST API: dashboard and block-target model

This project models the computational core of a small HTTP service that
forwards requests to a Bitcoin full node over RPC. The service has one
aggregating route, `/api/v1/dashboard`, and one route that has to interpret
its argument, `/api/v1/getblockstats/<param>`. Everything else is transport.

- `Base` (`base.dfy`): the `Result` and `Option` datatypes and Rust's `u64`
  as a subset of `int`. An `Err` marks the point where the source panics
  with `unwrap()`.
- `U64Parse` (`u64_parse.dfy`): Rust's `str::parse::<u64>`. It rejects an
  empty string with `Empty` and a lone sign with `InvalidDigit`, and permits
  one leading `+`. Digits are read left to right, and a bad character is reported before
  an overflow at the same step. It is proved equal to the positional value of
  the digits, and it round-trips with decimal rendering.
- `BlockTarget` (`block_target.dfy`): how the block-stats route classifies
  its path segment. A segment of exactly 256 characters becomes a `Hash`;
  any other segment must parse as a `u64` height.
- `BlockStats` (`block_stats.dfy`): the node's two response shapes, `AllStats`
  and `SelectiveStats`. `StatTime` and `StatSubsidy` read a field, and fail
  when a selective response leaves it out.
- `DifficultyEpoch` (`difficulty_epoch.dfy`): the epoch number, the last
  retarget height, blocks until and since the retarget, the estimate of the
  seconds until the retarget, and the average seconds per block. The last
  can fail on a timestamp underflow or a division by zero.
- `Dashboard` (`dashboard.dfy`): the dashboard route. The node's replies are
  one `Node` value; block statistics and the hash rate are functions of the
  height or window they are asked for. The route's `unwrap()` calls happen in
  source order, and the result is either the whole `Response` record or the
  first failure.

The `f64` expressions of the dashboard are evaluated over exact reals. Over
exact reals, `(b / 2016.0) % 1.0 * 2016` is `b % 2016`. So the model has
`blocks_until_retarget = 2016 - b % 2016` and
`blocks_since_last_retarget = b % 2016`, and these are proved from the
source's formula rather than assumed.

Behaviour the model keeps from the code as written:

- A block hash is recognised by a length of 256 characters, not 64. A real
  64-character hash therefore goes down the height path (see Findings).
- At a block count that is a multiple of 2016, `blocks_until_retarget` is
  2016 and the estimate is `600 * 2016` seconds. The estimate never reaches
  0; its least value is 600, one block before the retarget.
- At such a block count `blocks_since_last_retarget` is 0. The code does not
  guard the division, so the whole dashboard fails there. Under `f64`
  rounding it can also fail one block later (see "## Left out").

## Model

| member | source | states |
|---|---|---|
| `DifficultyEpoch.CurrentDifficultyEpoch` | src/main.rs:69 | the epoch is at least 1, and the block count lies in `[(e-1)*2016, e*2016)` |
| `DifficultyEpoch.HeightOfLastDifficultyAdjustment` | src/main.rs:70 | the last adjustment height is a multiple of 2016, is at most the block count, and is less than 2016 below it |
| `DifficultyEpoch.LastAdjustmentIsUnique` | src/main.rs:69-70 | no other multiple of 2016 lies within the 2016 blocks up to the block count |
| `DifficultyEpoch.EpochStep` | src/main.rs:69 | the epoch goes up by one when the next block count is a multiple of 2016, and stays the same otherwise (both directions) |
| `DifficultyEpoch.FractionalPart` | src/main.rs:124 | `x % 1.0` for `x >= 0` lies in `[0, 1)` and differs from `x` by an integer |
| `DifficultyEpoch.PercentOfEpochComplete` | src/main.rs:123-124 | exact reals: the share of the epoch passed lies in `[0, 1)` and differs from `b / 2016` by a whole number (its value is stated by `EpochProgress`) |
| `DifficultyEpoch.EpochProgress` | src/main.rs:123-124 | exact reals: the fraction of the epoch passed, times 2016, is `b % 2016`, which is also the distance to the last adjustment height |
| `DifficultyEpoch.BlocksUntilRetarget` | src/main.rs:125-127 | the float formula equals the distance from the block count to the next multiple of 2016, within `(0, 2016]` |
| `DifficultyEpoch.BlocksSinceLastRetarget` | src/main.rs:128-129 | the float formula equals the blocks since the last adjustment height, and it plus `blocks_until_retarget` is exactly 2016 |
| `DifficultyEpoch.EstimatedSecondsUntilRetarget` | src/main.rs:135 | the estimate is 600 seconds per remaining block of the epoch, between 600 and `600 * 2016` |
| `DifficultyEpoch.EstimateFallsWithinEpoch` | src/main.rs:135 | within one epoch the estimate strictly falls as the block count rises, by 600 per block |
| `DifficultyEpoch.AverageSecondsPerBlock` | src/main.rs:131-134 | exact reals: fails exactly on a timestamp underflow or when `b % 2016 = 0`, underflow first; otherwise gives the integer quotient of elapsed seconds by blocks since the retarget (stated as bounds) |
| `DifficultyEpoch.EpochStartHasNoAverage` | src/main.rs:123-134 | at a multiple of 2016 no block has passed since the retarget, 2016 are to go, and the average is a division by zero |
| `DifficultyEpoch.Epoch700000` | src/main.rs:69-70 | block count 700000 is in epoch 348, which began at height 699552, with 1568 blocks to go |
| `BlockStats.StatTime` | src/main.rs:85-91 | `AllStats` always yields its `time`; `SelectiveStats` yields the value when present and fails naming `Time` when absent (main.rs:99-105 reads the adjustment block the same way) |
| `BlockStats.StatSubsidy` | src/main.rs:92-98 | `AllStats` always yields its `subsidy`; `SelectiveStats` yields the value when present and fails naming `Subsidy` when absent |
| `BlockStats.ExtractReported` | src/main.rs:85-105 | reading `time` or `subsidy` from the node's report of a block gives the block's value from a full report or from a selection that includes the field, and fails naming the field otherwise |
| `BlockStats.EveryResponseIsAReport` | src/main.rs:85-105 | every response of either shape is such a report, so the rule above covers all responses |
| `U64Parse.Accumulate` | src/main.rs:180 | the digit loop never reports `Empty`, and its result is at least the value already accumulated |
| `U64Parse.AccumulateMeaning` | src/main.rs:180 | the digit loop succeeds exactly on all-digit input whose positional value with the accumulator stays below 2^64, and then returns that value |
| `U64Parse.ParseU64` | src/main.rs:180 | the parse reports `Empty` exactly for the empty string |
| `U64Parse.ParseU64Meaning` | src/main.rs:180 | the parse succeeds exactly on an optional `+` followed by digits of value below 2^64, and yields that value |
| `U64Parse.ParseU64RejectsNonDigit` | src/main.rs:180 | a character that is not a digit, other than a leading `+`, makes the parse fail |
| `U64Parse.ParseDecimalRoundTrip` | src/main.rs:180 | parsing the decimal rendering of any `u64` gives the same number back |
| `BlockTarget.Classify` | src/main.rs:177-181 | the result is a hash exactly when the segment has 256 characters, and the hash is the segment unchanged; the full characterisation is `ClassifyMeaning` |
| `BlockTarget.ClassifyMeaning` | src/main.rs:177-181 | a 256-character segment becomes `Hash` of the same string; any other segment becomes `Height` of its value exactly when it is a `u64` literal, and otherwise fails with the parse error |
| `BlockTarget.ClassifyDecimalHeight` | src/main.rs:177-181 | every height written in decimal is classified as that height |
| `BlockTarget.HexHashNotClassifiedAsHash` | src/main.rs:177-180 | a 64-character hex hash that contains a letter is read as a height and fails |
| `BlockTarget.GenesisHashRejected` | src/main.rs:177-180 | the genesis block's hash is a valid 64-character hex hash, and the route rejects it |
| `BlockTarget.ClassifyIntended` | src/main.rs:177-181 | corrected classification: the result is a hash exactly when the segment has 64 characters, and the hash is the segment unchanged |
| `BlockTarget.ClassifyIntendedSeparates` | src/main.rs:177-178 | with the length corrected to 64, every hex hash is sent as that hash and every decimal height as that height |
| `Dashboard.TransactionsPerSecond` | src/main.rs:118-121 | exact reals: for a non-zero window the rate times the window is the transaction count; for a zero window it is infinity, or NaN when there are also no transactions |
| `Dashboard.ThirtyDayThroughput` | src/main.rs:118-121 | 5,000,000 transactions in 2,592,000 seconds give between 1.929 and 1.930 per second |
| `Dashboard.Dashboard` | src/main.rs:58-157 | a snapshot carries the block count as fetched, its epoch, and a block count that is not a multiple of 2016; success and field values in full are `DashboardSucceedsIff` and `SnapshotMeaning` |
| `Dashboard.DashboardSucceedsIff` | src/main.rs:60-134 | exact reals: there is no partial snapshot: the route answers exactly when every reply arrives, both timestamps and the subsidy are present, the adjustment block is not later than the last block, and `b % 2016 != 0` |
| `Dashboard.SnapshotMeaning` | src/main.rs:61-157 | the snapshot's block count is the fetched one; the time and subsidy come from the statistics at that same height; the epoch, blocks until retarget, estimate and average are the exact closed forms for that count; `tps_30days` is the throughput over the chain statistics' window; the remaining replies and constants pass through |
| `Dashboard.DashboardReadsTwoHeights` | src/main.rs:61-75 | block statistics are read only at the fetched block count and at its last adjustment height; two nodes that agree there and on the other replies give the same result |
| `Dashboard.BlockCountFailureFirst` | src/main.rs:60-61 | a failed block-count query fails the route with that error before anything else |
| `Dashboard.MissingTimeFailsAtCurrentHeight` | src/main.rs:85-91 | a selective current-block response without `time` fails the route at that field and height |

## Left out

- HTTP routing, CORS, logging, the welcome route and server start-up (src/main.rs:49-57, 160-239). These are transport and do no computation.
- The routes `/getblockcount`, `/getchaintxstats` (with and without a block hash) and `/getdifficulty`. Each issues one RPC and returns the reply, so there is nothing to compute.
- `get_client` and the environment variables it reads (src/main.rs:39-45). These are process configuration.
- Every RPC call. The replies are the `Node` input, and an RPC error is an opaque `RpcError` value. Which calls are issued before an earlier unwrap fails has no effect on the result and is not modelled.
- The block-stats route's `println!` and its final stats query after classification. These are I/O; only the classification is modelled.
- Statistics other than `time` and `subsidy`, and chain-transaction fields other than `txcount`, `window_tx_count` and `window_interval`. The dashboard does not read them.
- `difficulty` and the network hash rate are passed through as opaque reals, and `price` and `total_money_supply` are the route's hardcoded constants.
- JSON serialisation of the response record.
- `DifficultyEpoch.BlocksUntilRetarget`: computed over exact reals, not IEEE-754 `f64`. The closed form `2016 - b % 2016` holds for the exact idealisation only; float rounding of `% 1.0` is not modelled.
- `DifficultyEpoch.BlocksSinceLastRetarget`: exact reals too. The truncation `as u64` is `Floor`, which is exact only because the idealised value is an integer.
- `DifficultyEpoch.EstimatedSecondsUntilRetarget`: exact reals, not `f64`.
- `DifficultyEpoch.AverageSecondsPerBlock`: the `u64` subtraction of the timestamps is modelled as failing on underflow, as an overflow-checked (debug) build does. A release build would wrap it modulo 2^64 instead.
- `DifficultyEpoch.AverageSecondsPerBlock`: over IEEE-754 `f64` the route's `blocks_since_last_retarget` often comes out just below the integer `b % 2016` (for example 1135.99999999997 at block count 866000), so `as u64` gives a divisor one too small, and at `b % 2016 = 1` it can give 0, a division-by-zero panic at the second block of an epoch. The model states divisor `b % 2016` and failure only at `b % 2016 = 0`, which hold for the exact idealisation only.
- `Dashboard.DashboardSucceedsIff`: the success condition `b % 2016 != 0` holds for exact reals only; under `f64` the route can also panic where `b % 2016 = 1`, and its average can use a divisor one below `b % 2016`, as described for `AverageSecondsPerBlock`.
- `Dashboard.Node`: block statistics are one function of the height, so when the block count is a multiple of 2016 the current-block and adjustment-block queries (src/main.rs:62-64, 71-75) are the same reply. In the source they are two RPC calls that could disagree; only which failure is reported could change.
- `Dashboard.TransactionsPerSecond`: exact reals, not `f64`. A finite quotient is not rounded.
- `U64Parse.ParseU64`: Rust's short-input fast path is not modelled separately, because it gives the same results as the general digit loop.

## Findings

| source | as written | input that shows it | evidently intended | confidence | as-written member | corrected member |
|---|---|---|---|---|---|---|
| src/main.rs:177 | a segment is taken for a block hash when it has exactly 256 characters | the genesis hash `000000000019d6689c085ae165831e934ff763ae46a2a6c172b3f1b60a8ce26f` has 64 characters, so it is parsed as a height and the parse fails at `d` | 64 characters, the length of a hex block hash (256 is its width in bits) | high; not executed | `BlockTarget.GenesisHashRejected` | `BlockTarget.ClassifyIntendedSeparates` |
