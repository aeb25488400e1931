/**
 * What a reset does, as the sequence of steps it takes: raise the reset
 * counter, reset the three global statistics, then reset every statistics
 * filter of every proxy data source and then of every pool instance. The
 * resets themselves belong to the statistics objects and filters; the model
 * records which one is reset, and when. A filter is named by its place: its
 * family, the index of its data source in that family, and its index in the
 * data source's filter chain.
 */
module ResetTrace {
  import opened Records

  datatype Family = ProxyFamily | PoolFamily

  datatype GlobalStat = ConnectionStat | StatementStat | ResultSetStat

  datatype ResetStep =
    | RaiseResetCount(count: int)
    | ResetGlobal(stat: GlobalStat)
    | ResetFilter(family: Family, source: int, position: int)

  /** The resets of one filter chain, in chain order. */
  function ChainResets(family: Family, source: int, filters: seq<Filter>): seq<ResetStep>
    decreases |filters|
  {
    if filters == [] then []
    else
      var n := |filters| - 1;
      ChainResets(family, source, filters[..n]) +
        (if filters[n].StatFilter? then [ResetFilter(family, source, n)] else [])
  }

  /** The resets of a family of data sources, in the order the family lists them. */
  function FilterResets(family: Family, sources: seq<DataSourceHandle>): seq<ResetStep>
    decreases |sources|
  {
    if sources == [] then []
    else
      var n := |sources| - 1;
      FilterResets(family, sources[..n]) + ChainResets(family, n, sources[n].filters)
  }

  /** The steps of one reset that brings the counter to `count`. */
  function ResetSteps(count: int, proxies: seq<DataSourceHandle>, pools: seq<DataSourceHandle>): seq<ResetStep> {
    [RaiseResetCount(count), ResetGlobal(ConnectionStat), ResetGlobal(StatementStat), ResetGlobal(ResultSetStat)]
      + FilterResets(ProxyFamily, proxies) + FilterResets(PoolFamily, pools)
  }

  /** How many times the counter was raised in a sequence of steps. */
  function RaiseCount(steps: seq<ResetStep>): nat
    decreases |steps|
  {
    if steps == [] then 0
    else RaiseCount(steps[..|steps| - 1]) + (if steps[|steps| - 1].RaiseResetCount? then 1 else 0)
  }

  /** Filter `position` of data source `source` in `sources` exists and is a statistics filter. */
  ghost predicate IsStatFilterAt(sources: seq<DataSourceHandle>, source: int, position: int) {
    && 0 <= source < |sources|
    && 0 <= position < |sources[source].filters|
    && sources[source].filters[position].StatFilter?
  }

  /** No step occurs twice. */
  ghost predicate Distinct(steps: seq<ResetStep>) {
    forall a, b | 0 <= a < b < |steps| :: steps[a] != steps[b]
  }

  /** A chain's resets are exactly its statistics filters. */
  lemma {:induction false} ChainResetsExact(family: Family, source: int, filters: seq<Filter>, step: ResetStep)
    ensures step in ChainResets(family, source, filters) <==>
      && step.ResetFilter? && step.family == family && step.source == source
      && 0 <= step.position < |filters| && filters[step.position].StatFilter?
    decreases |filters|
  {
    if filters != [] {
      var n := |filters| - 1;
      ChainResetsExact(family, source, filters[..n], step);
    }
  }

  /** A family's resets are exactly the statistics filters of its data sources. */
  lemma {:induction false} FilterResetsExact(family: Family, sources: seq<DataSourceHandle>, step: ResetStep)
    ensures step in FilterResets(family, sources) <==>
      step.ResetFilter? && step.family == family && IsStatFilterAt(sources, step.source, step.position)
    decreases |sources|
  {
    if sources != [] {
      var n := |sources| - 1;
      FilterResetsExact(family, sources[..n], step);
      ChainResetsExact(family, n, sources[n].filters, step);
      if step.ResetFilter? && 0 <= step.source < n {
        assert sources[..n][step.source] == sources[step.source];
      }
    }
  }

  /** A concatenation of two distinct sequences with no common step is distinct. */
  lemma DistinctConcat(a: seq<ResetStep>, b: seq<ResetStep>)
    requires Distinct(a) && Distinct(b)
    requires forall s | s in a :: s !in b
    ensures Distinct(a + b)
  {
    forall x, y | 0 <= x < y < |a + b| ensures (a + b)[x] != (a + b)[y] {
      if x < |a| && y >= |a| {
        assert (a + b)[x] in a && (a + b)[y] == b[y - |a|];
      }
    }
  }

  /** A chain resets each of its statistics-filter positions once. */
  lemma {:induction false} ChainResetsDistinct(family: Family, source: int, filters: seq<Filter>)
    ensures Distinct(ChainResets(family, source, filters))
    decreases |filters|
  {
    if filters != [] {
      var n := |filters| - 1;
      ChainResetsDistinct(family, source, filters[..n]);
      forall s | s in ChainResets(family, source, filters[..n])
        ensures s != ResetFilter(family, source, n)
      {
        ChainResetsExact(family, source, filters[..n], s);
      }
      DistinctConcat(ChainResets(family, source, filters[..n]),
                     if filters[n].StatFilter? then [ResetFilter(family, source, n)] else []);
    }
  }

  /** A family resets each statistics-filter position (data source, place in its chain) once. */
  lemma {:induction false} FilterResetsDistinct(family: Family, sources: seq<DataSourceHandle>)
    ensures Distinct(FilterResets(family, sources))
    decreases |sources|
  {
    if sources != [] {
      var n := |sources| - 1;
      FilterResetsDistinct(family, sources[..n]);
      ChainResetsDistinct(family, n, sources[n].filters);
      forall s | s in FilterResets(family, sources[..n])
        ensures s !in ChainResets(family, n, sources[n].filters)
      {
        FilterResetsExact(family, sources[..n], s);
        ChainResetsExact(family, n, sources[n].filters, s);
      }
      DistinctConcat(FilterResets(family, sources[..n]), ChainResets(family, n, sources[n].filters));
    }
  }

  lemma {:induction false} RaiseCountAppend(a: seq<ResetStep>, b: seq<ResetStep>)
    ensures RaiseCount(a + b) == RaiseCount(a) + RaiseCount(b)
    decreases |b|
  {
    if b == [] {
      assert a + b == a;
    } else {
      var n := |b| - 1;
      RaiseCountAppend(a, b[..n]);
      assert (a + b)[..|a + b| - 1] == a + b[..n];
    }
  }

  /** Steps that never raise the counter raise it zero times. */
  lemma {:induction false} RaiseCountNone(steps: seq<ResetStep>)
    requires forall k | 0 <= k < |steps| :: !steps[k].RaiseResetCount?
    ensures RaiseCount(steps) == 0
    decreases |steps|
  {
    if steps != [] {
      RaiseCountNone(steps[..|steps| - 1]);
    }
  }

  /** A reset raises the counter first, to `count`, and never again; then it
      resets the connection, statement and result-set statistics, in this order. */
  lemma ResetRaisesCountFirst(count: int, proxies: seq<DataSourceHandle>, pools: seq<DataSourceHandle>)
    ensures ResetSteps(count, proxies, pools)[0] == RaiseResetCount(count)
    ensures ResetSteps(count, proxies, pools)[1..4] ==
      [ResetGlobal(ConnectionStat), ResetGlobal(StatementStat), ResetGlobal(ResultSetStat)]
    ensures forall k | 0 < k < |ResetSteps(count, proxies, pools)| :: !ResetSteps(count, proxies, pools)[k].RaiseResetCount?
    ensures RaiseCount(ResetSteps(count, proxies, pools)) == 1
  {
    var steps := ResetSteps(count, proxies, pools);
    var filters := FilterResets(ProxyFamily, proxies) + FilterResets(PoolFamily, pools);
    assert steps == [RaiseResetCount(count), ResetGlobal(ConnectionStat), ResetGlobal(StatementStat), ResetGlobal(ResultSetStat)] + filters;
    forall k | 0 <= k < |filters| ensures filters[k].ResetFilter? {
      if k < |FilterResets(ProxyFamily, proxies)| {
        FilterResetsExact(ProxyFamily, proxies, filters[k]);
      } else {
        assert filters[k] == FilterResets(PoolFamily, pools)[k - |FilterResets(ProxyFamily, proxies)|];
        FilterResetsExact(PoolFamily, pools, filters[k]);
      }
    }
    RaiseCountNone(filters);
    RaiseCountAppend([RaiseResetCount(count), ResetGlobal(ConnectionStat), ResetGlobal(StatementStat), ResetGlobal(ResultSetStat)], filters);
    RaiseCountNone([ResetGlobal(ConnectionStat), ResetGlobal(StatementStat), ResetGlobal(ResultSetStat)]);
    RaiseCountAppend([RaiseResetCount(count)], [ResetGlobal(ConnectionStat), ResetGlobal(StatementStat), ResetGlobal(ResultSetStat)]);
    assert [RaiseResetCount(count)] + [ResetGlobal(ConnectionStat), ResetGlobal(StatementStat), ResetGlobal(ResultSetStat)]
      == [RaiseResetCount(count), ResetGlobal(ConnectionStat), ResetGlobal(StatementStat), ResetGlobal(ResultSetStat)];
  }

  /** A reset resets a filter exactly when it is a statistics filter of a proxy
      data source or of a pool instance; no other filter is touched. */
  lemma ResetTouchesExactlyStatFilters(count: int, proxies: seq<DataSourceHandle>, pools: seq<DataSourceHandle>,
                                       family: Family, source: int, position: int)
    ensures ResetFilter(family, source, position) in ResetSteps(count, proxies, pools) <==>
      IsStatFilterAt(if family == ProxyFamily then proxies else pools, source, position)
  {
    FilterResetsExact(ProxyFamily, proxies, ResetFilter(family, source, position));
    FilterResetsExact(PoolFamily, pools, ResetFilter(family, source, position));
  }

  /** A reset takes no step twice: each statistics-filter position is reset once. */
  lemma ResetTouchesEachOnce(count: int, proxies: seq<DataSourceHandle>, pools: seq<DataSourceHandle>)
    ensures Distinct(ResetSteps(count, proxies, pools))
  {
    var head := [RaiseResetCount(count), ResetGlobal(ConnectionStat), ResetGlobal(StatementStat), ResetGlobal(ResultSetStat)];
    var proxySteps := FilterResets(ProxyFamily, proxies);
    var poolSteps := FilterResets(PoolFamily, pools);
    FilterResetsDistinct(ProxyFamily, proxies);
    FilterResetsDistinct(PoolFamily, pools);
    forall s | s in head ensures s !in proxySteps {
      FilterResetsExact(ProxyFamily, proxies, s);
    }
    DistinctConcat(head, proxySteps);
    forall s | s in head + proxySteps ensures s !in poolSteps {
      FilterResetsExact(PoolFamily, pools, s);
      if s in proxySteps {
        FilterResetsExact(ProxyFamily, proxies, s);
      }
    }
    DistinctConcat(head + proxySteps, poolSteps);
  }

  /** The log a reset leaves: the counter raise and the three global resets
      appended one by one, then the filter resets of each family, is the old
      log followed by the reset's steps; and it raises the counter once. */
  lemma ResetStepsAfter(log: seq<ResetStep>, head: seq<ResetStep>, final: seq<ResetStep>,
                        count: int, proxies: seq<DataSourceHandle>, pools: seq<DataSourceHandle>)
    requires head == log + [RaiseResetCount(count)] + [ResetGlobal(ConnectionStat)]
      + [ResetGlobal(StatementStat)] + [ResetGlobal(ResultSetStat)]
    requires final == head + FilterResets(ProxyFamily, proxies) + FilterResets(PoolFamily, pools)
    ensures final == log + ResetSteps(count, proxies, pools)
    ensures RaiseCount(final) == RaiseCount(log) + 1
  {
    AppendFourThenTwo(log, RaiseResetCount(count), ResetGlobal(ConnectionStat), ResetGlobal(StatementStat),
      ResetGlobal(ResultSetStat), FilterResets(ProxyFamily, proxies), FilterResets(PoolFamily, pools));
    ResetRaisesCountFirst(count, proxies, pools);
    RaiseCountAppend(log, ResetSteps(count, proxies, pools));
  }

  /** One call of reset: the count it brings the counter to, and the data sources it walks. */
  datatype ResetRound = ResetRound(count: int, proxies: seq<DataSourceHandle>, pools: seq<DataSourceHandle>)

  /** The steps of a series of resets, one after the other. */
  function History(rounds: seq<ResetRound>): seq<ResetStep>
    decreases |rounds|
  {
    if rounds == [] then []
    else
      var last := rounds[|rounds| - 1];
      History(rounds[..|rounds| - 1]) + ResetSteps(last.count, last.proxies, last.pools)
  }

  /** A log that was the history of some resets, followed by the steps of one
      more reset, is the history of all of them. */
  lemma HistoryAppend(log: seq<ResetStep>, rounds: seq<ResetRound>, final: seq<ResetStep>, round: ResetRound)
    requires log == History(rounds)
    requires final == log + ResetSteps(round.count, round.proxies, round.pools)
    ensures final == History(rounds + [round])
  {
    assert (rounds + [round])[..|rounds|] == rounds;
  }

  /** The k-th reset (from 0) brings the counter to k + 1. */
  ghost predicate Numbered(rounds: seq<ResetRound>) {
    forall k | 0 <= k < |rounds| :: rounds[k].count == k + 1
  }

  /** A reset that brings the counter one past the number of earlier resets keeps the numbering. */
  lemma NumberedAppend(rounds: seq<ResetRound>, round: ResetRound)
    requires Numbered(rounds)
    requires round.count == |rounds| + 1
    ensures Numbered(rounds + [round])
  {
  }

  /** k resets raise the counter k times, whatever data sources each one walks. */
  lemma {:induction false} HistoryRaiseCount(rounds: seq<ResetRound>)
    ensures RaiseCount(History(rounds)) == |rounds|
    decreases |rounds|
  {
    if rounds != [] {
      var last := rounds[|rounds| - 1];
      HistoryRaiseCount(rounds[..|rounds| - 1]);
      ResetRaisesCountFirst(last.count, last.proxies, last.pools);
      RaiseCountAppend(History(rounds[..|rounds| - 1]), ResetSteps(last.count, last.proxies, last.pools));
    }
  }

  lemma AppendFourThenTwo<T>(log: seq<T>, a: T, b: T, c: T, d: T, x: seq<T>, y: seq<T>)
    ensures log + [a] + [b] + [c] + [d] + x + y == log + ([a, b, c, d] + x + y)
  {
  }
}
