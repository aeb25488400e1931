/**
 * The process-wide statistics manager: the SQL id sequence, the reset counter
 * and the reset fan-out, the registry of data-source statistics, the
 * diagnostic context slot, the cached data-source record type, and the three
 * exports that flatten nested collections into one list of rows.
 *
 * The proxy data sources of the driver and the pool instances are kept by
 * other components; each operation that walks them takes them as arguments,
 * in the order their collections yield them.
 */
module StatManager {
  import opened Wrappers
  import opened Records
  import opened Schema
  import opened MapGather
  import opened SqlExport
  import opened ConnectionExport
  import opened ResetTrace

  /** The value the SQL id seed starts from; ids below it are never issued. */
  const InitialSqlIdSeed: int := 1000

  /** A new diagnostic context, its trace flag taken from the trace manager's setting at creation. */
  function CreateStatContext(traceManagerEnabled: bool): (c: StatContext)
    ensures c.traceEnable == traceManagerEnabled
  {
    StatContext(traceManagerEnabled)
  }

  class JdbcStatManager {
    var sqlIdSeed: int
    var resetCount: int
    var dataSources: map<string, DataSourceStat>
    /** The current execution's context (a thread-local slot in the program). */
    var statContext: Option<StatContext>
    /** The cached data-source record type; None until first built. */
    var compositeType: Option<CompositeType>

    /** Every SQL id issued so far, in order. */
    ghost var issuedIds: seq<int>
    /** Every reset step taken so far, in order. */
    ghost var resetLog: seq<ResetStep>
    /** Every reset performed so far, in order. */
    ghost var resetRounds: seq<ResetRound>

    ghost predicate Valid()
      reads this
    {
      && sqlIdSeed == InitialSqlIdSeed + |issuedIds|
      && (forall k | 0 <= k < |issuedIds| :: issuedIds[k] == InitialSqlIdSeed + 1 + k)
      && resetLog == History(resetRounds)
      && resetCount == |resetRounds|
      && Numbered(resetRounds)
    }

    /** The cache, once filled, holds the data-source record type. */
    ghost predicate CacheValid()
      reads this`compositeType
    {
      compositeType.Some? ==> compositeType.value == DataSourceCompositeType()
    }

    constructor ()
      ensures Valid() && CacheValid()
      ensures sqlIdSeed == InitialSqlIdSeed && resetCount == 0
      ensures dataSources == map[] && statContext == None && compositeType == None
      ensures issuedIds == [] && resetLog == [] && resetRounds == []
    {
      sqlIdSeed := InitialSqlIdSeed;
      resetCount := 0;
      dataSources := map[];
      statContext := None;
      compositeType := None;
      issuedIds := [];
      resetLog := [];
      resetRounds := [];
    }

    /** The registry itself: what callers read, and register into. */
    function GetDataSources(): (m: map<string, DataSourceStat>)
      reads this
      ensures m == dataSources
    {
      dataSources
    }

    /** A caller registering a data source's statistics through the map that
        GetDataSources hands out (last write wins). */
    method PutDataSource(key: string, stat: DataSourceStat)
      modifies this`dataSources
      ensures dataSources == old(dataSources)[key := stat]
      ensures key in GetDataSources() && GetDataSources()[key] == stat
    {
      dataSources := dataSources[key := stat];
    }

    /** The current execution's context, None until one is set. */
    function GetStatContext(): (c: Option<StatContext>)
      reads this
      ensures c == statContext
    {
      statContext
    }

    /** Replaces the context; the next GetStatContext returns it. */
    method SetStatContext(context: Option<StatContext>)
      modifies this`statContext
      ensures GetStatContext() == context
    {
      statContext := context;
    }

    /** Issues the next SQL id: one more than the last, so above the seed and
        above every id issued before. */
    method GenerateSqlId() returns (id: int)
      requires Valid()
      modifies this`sqlIdSeed, this`issuedIds
      ensures Valid()
      ensures id == old(sqlIdSeed) + 1 && sqlIdSeed == id
      ensures id > InitialSqlIdSeed
      ensures forall earlier | earlier in old(issuedIds) :: earlier < id
      ensures issuedIds == old(issuedIds) + [id]
    {
      sqlIdSeed := sqlIdSeed + 1;
      id := sqlIdSeed;
      issuedIds := issuedIds + [id];
    }

    /** The number of resets performed so far. */
    function GetResetCount(): (n: int)
      requires Valid()
      reads this
      ensures n == |resetRounds|
      ensures n == RaiseCount(resetLog)
    {
      HistoryRaiseCount(resetRounds);
      resetCount
    }

    /** Builds the data-source record type on first use and returns the cached one afterwards. */
    method GetDataSourceCompositeType() returns (c: CompositeType)
      requires CacheValid()
      modifies this`compositeType
      ensures CacheValid()
      ensures c == DataSourceCompositeType() && compositeType == Some(c)
      ensures old(compositeType).Some? ==> compositeType == old(compositeType) && c == old(compositeType).value
    {
      if compositeType.Some? {
        return compositeType.value;
      }
      c := DataSourceCompositeType();
      compositeType := Some(c);
    }

    /** The data-source table: one row per proxy data source, then one per pool instance. */
    method GetDataSourceList(proxies: seq<DataSourceHandle>, pools: seq<DataSourceHandle>) returns (rows: seq<Record>)
      requires CacheValid()
      modifies this`compositeType
      ensures CacheValid()
      ensures compositeType == Some(DataSourceCompositeType())
      ensures old(compositeType).Some? ==> compositeType == old(compositeType)
      ensures |rows| == |proxies| + |pools|
      ensures forall i | 0 <= i < |proxies| :: rows[i] == proxies[i].compositeData
      ensures forall i | 0 <= i < |pools| :: rows[|proxies| + i] == pools[i].compositeData
    {
      var rowType := GetDataSourceCompositeType();
      rows := [];
      for i := 0 to |proxies|
        invariant |rows| == i
        invariant forall k | 0 <= k < i :: rows[k] == proxies[k].compositeData
      {
        rows := rows + [proxies[i].compositeData];
      }
      for i := 0 to |pools|
        invariant |rows| == |proxies| + i
        invariant forall k | 0 <= k < |proxies| :: rows[k] == proxies[k].compositeData
        invariant forall k | 0 <= k < i :: rows[|proxies| + k] == pools[k].compositeData
      {
        rows := rows + [pools[i].compositeData];
      }
    }

    /** The SQL table: one row per SQL statistic of every registered data source,
        carrying that data source's URL, in the order the registry yields them. */
    method GetSqlList() returns (rows: seq<Record>)
      ensures multiset(rows) == SqlRows(dataSources)
      ensures |rows| == SqlEntryCount(dataSources)
    {
      rows := [];
      var pending := dataSources;
      while pending != map[]
        invariant multiset(rows) + SqlRows(pending) == SqlRows(dataSources)
        decreases |pending|
      {
        var key :| key in pending;
        GatherPick((), pending, SourceSqlRows, key);
        rows := AppendSqlRows(rows, key, pending[key]);
        RemoveShrinks(pending, key);
        pending := pending - {key};
      }
      SqlRowCount(dataSources);
    }

    /** Appends the rows of one data source's SQL statistics, in the order its map yields them. */
    static method AppendSqlRows(rows: seq<Record>, key: string, source: DataSourceStat) returns (rows': seq<Record>)
      ensures multiset(rows') == multiset(rows) + SourceSqlRows((), key, source)
    {
      rows' := rows;
      var entries := source.sqlStatMap;
      while entries != map[]
        invariant multiset(rows') + Gather(source.url, entries, SqlRowOf) == multiset(rows) + SourceSqlRows((), key, source)
        decreases |entries|
      {
        var sqlKey :| sqlKey in entries;
        GatherPick(source.url, entries, SqlRowOf, sqlKey);
        RemoveShrinks(entries, sqlKey);
        rows' := rows' + [SqlRow(source.url, entries[sqlKey])];
        entries := entries - {sqlKey};
      }
    }

    /** The connection table: the entries of each statistics filter of each
        proxy data source, then of each pool instance. */
    method GetConnectionList(proxies: seq<DataSourceHandle>, pools: seq<DataSourceHandle>) returns (rows: seq<Record>)
      ensures rows == Connections(proxies) + Connections(pools)
    {
      var proxyRows := CollectConnections(proxies);
      var poolRows := CollectConnections(pools);
      rows := proxyRows + poolRows;
    }

    /** The entries of each statistics filter of each data source, in order. */
    static method CollectConnections(sources: seq<DataSourceHandle>) returns (rows: seq<Record>)
      ensures rows == Connections(sources)
    {
      rows := [];
      for i := 0 to |sources|
        invariant rows == Connections(sources[..i])
      {
        var chainRows := CollectChainConnections(sources[i].filters);
        rows := rows + chainRows;
        assert sources[..i + 1][..i] == sources[..i];
      }
      assert sources[..|sources|] == sources;
    }

    /** The entries of each statistics filter of one chain, in order. */
    static method CollectChainConnections(filters: seq<Filter>) returns (rows: seq<Record>)
      ensures rows == ChainConnections(filters)
    {
      rows := [];
      for j := 0 to |filters|
        invariant rows == ChainConnections(filters[..j])
      {
        if filters[j].StatFilter? {
          var connections := filters[j].connections;
          for k := 0 to |connections|
            invariant rows == ChainConnections(filters[..j]) + connections[..k]
          {
            rows := rows + [connections[k]];
          }
          assert connections[..|connections|] == connections;
        }
        assert filters[..j + 1][..j] == filters[..j];
      }
      assert filters[..|filters|] == filters;
    }

    /** Raises the reset counter, resets the three global statistics, then every
        statistics filter of the proxy data sources and of the pool instances. */
    method Reset(proxies: seq<DataSourceHandle>, pools: seq<DataSourceHandle>)
      requires Valid()
      modifies this`resetCount, this`resetLog, this`resetRounds
      ensures Valid()
      ensures GetResetCount() == old(GetResetCount()) + 1
      ensures resetLog == old(resetLog) + ResetSteps(resetCount, proxies, pools)
      ensures resetRounds == old(resetRounds) + [ResetRound(resetCount, proxies, pools)]
    {
      resetCount := resetCount + 1;
      resetLog := resetLog + [RaiseResetCount(resetCount)];
      resetLog := resetLog + [ResetGlobal(ConnectionStat)];
      resetLog := resetLog + [ResetGlobal(StatementStat)];
      resetLog := resetLog + [ResetGlobal(ResultSetStat)];
      ghost var head := resetLog;
      ResetStatFilters(ProxyFamily, proxies);
      ResetStatFilters(PoolFamily, pools);
      ResetStepsAfter(old(resetLog), head, resetLog, resetCount, proxies, pools);
      HistoryAppend(old(resetLog), resetRounds, resetLog, ResetRound(resetCount, proxies, pools));
      NumberedAppend(resetRounds, ResetRound(resetCount, proxies, pools));
      resetRounds := resetRounds + [ResetRound(resetCount, proxies, pools)];
    }

    /** Resets every statistics filter of a family of data sources, in order, and no other filter. */
    method ResetStatFilters(family: Family, sources: seq<DataSourceHandle>)
      modifies this`resetLog
      ensures resetLog == old(resetLog) + FilterResets(family, sources)
    {
      for i := 0 to |sources|
        invariant resetLog == old(resetLog) + FilterResets(family, sources[..i])
      {
        ghost var before := resetLog;
        ResetChainFilters(family, i, sources[i].filters);
        assert sources[..i + 1][..i] == sources[..i];
        assert resetLog == before + ChainResets(family, i, sources[i].filters);
      }
      assert sources[..|sources|] == sources;
    }

    /** Resets the statistics filters of one data source's chain, in chain order. */
    method ResetChainFilters(family: Family, source: int, filters: seq<Filter>)
      modifies this`resetLog
      ensures resetLog == old(resetLog) + ChainResets(family, source, filters)
    {
      for j := 0 to |filters|
        invariant resetLog == old(resetLog) + ChainResets(family, source, filters[..j])
      {
        if filters[j].StatFilter? {
          resetLog := resetLog + [ResetFilter(family, source, j)];
        }
        assert filters[..j + 1][..j] == filters[..j];
      }
      assert filters[..|filters|] == filters;
    }
  }
}
