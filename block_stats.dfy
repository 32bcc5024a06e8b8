/** The node's answer to a block-statistics query, and the two fields the
    dashboard reads from it. The crate's response has two shapes: every
    statistic present, or only those the caller selected, each optional.
    Statistics other than `time` and `subsidy` are not part of this model. */
module BlockStats {
  import opened Base

  /** The statistics of one block that the dashboard uses. */
  datatype Stats = Stats(time: u64, subsidy: u64)

  /** The same statistics when the node reports only a selection. */
  datatype PartialStats = PartialStats(time: Option<u64>, subsidy: Option<u64>)

  /** `GetBlockStatsCommandResponse`. */
  datatype StatsResponse = AllStats(stats: Stats) | SelectiveStats(partial: PartialStats)

  /** The statistics a caller can name; an extraction failure names the
      field that was absent. */
  datatype StatField = Time | Subsidy

  /** The timestamp of the block: always there in `AllStats`; in
      `SelectiveStats` there only if selected (where the source unwraps). */
  function StatTime(r: StatsResponse): (t: Result<u64, StatField>)
    ensures r.AllStats? ==> t == Ok(r.stats.time)
    ensures r.SelectiveStats? ==> (t.Ok? <==> r.partial.time.Some?)
    ensures r.SelectiveStats? && t.Ok? ==> Some(t.value) == r.partial.time
    ensures t.Err? ==> t.error == Time
  {
    match r
    case AllStats(stats) => Ok(stats.time)
    case SelectiveStats(partial) =>
      if partial.time.Some? then Ok(partial.time.value) else Err(Time)
  }

  /** The subsidy paid by the block, in satoshis, read the same way. */
  function StatSubsidy(r: StatsResponse): (t: Result<u64, StatField>)
    ensures r.AllStats? ==> t == Ok(r.stats.subsidy)
    ensures r.SelectiveStats? ==> (t.Ok? <==> r.partial.subsidy.Some?)
    ensures r.SelectiveStats? && t.Ok? ==> Some(t.value) == r.partial.subsidy
    ensures t.Err? ==> t.error == Subsidy
  {
    match r
    case AllStats(stats) => Ok(stats.subsidy)
    case SelectiveStats(partial) =>
      if partial.subsidy.Some? then Ok(partial.subsidy.value) else Err(Subsidy)
  }

  /** Reference for what a node sends: a block's true statistics, either in
      full or restricted to the selected fields. */
  function Report(full: Stats, selected: Option<set<StatField>>): StatsResponse {
    match selected
    case None => AllStats(full)
    case Some(fields) =>
      SelectiveStats(PartialStats(
        if Time in fields then Some(full.time) else None,
        if Subsidy in fields then Some(full.subsidy) else None))
  }

  /** Reading a field back from any report of a block gives the block's
      true value when the field was reported, and fails naming that field
      otherwise: the full report never fails, a selection fails exactly on
      the fields it left out. */
  lemma ExtractReported(full: Stats, selected: Option<set<StatField>>)
    ensures StatTime(Report(full, selected)) ==
      if selected.None? || Time in selected.value then Ok(full.time) else Err(Time)
    ensures StatSubsidy(Report(full, selected)) ==
      if selected.None? || Subsidy in selected.value then Ok(full.subsidy) else Err(Subsidy)
  {
  }

  /** Every response is the report of some block for some selection, so the
      lemma above covers all responses: extraction succeeds exactly when the
      field is present, and then returns the value present. */
  lemma EveryResponseIsAReport(r: StatsResponse)
    ensures exists full: Stats, selected: Option<set<StatField>> :: Report(full, selected) == r
  {
    match r
    case AllStats(stats) =>
      assert Report(stats, None) == r;
    case SelectiveStats(partial) =>
      var fields := (if partial.time.Some? then {Time} else {}) + (if partial.subsidy.Some? then {Subsidy} else {});
      var full := Stats(
        if partial.time.Some? then partial.time.value else 0,
        if partial.subsidy.Some? then partial.subsidy.value else 0);
      assert Report(full, Some(fields)) == r;
  }
}
