/**
 * What the SQL table holds: one row per SQL statistic of every registered
 * data source, each row being that statistic's item map with its data
 * source's URL put under "URL". The registry is a hash map, so the rows are
 * described as a multiset: the table is that multiset in some order.
 */
module SqlExport {
  import opened Records
  import opened MapGather

  /** The row of one SQL statistic: its items, with URL set to the owner's URL. */
  function SqlRow(url: string, stat: SqlStat): (r: Record)
    ensures r.Keys == stat.data.Keys + {"URL"}
    ensures r["URL"] == Text(url)
    ensures forall name | name in stat.data && name != "URL" :: r[name] == stat.data[name]
  {
    stat.data["URL" := Text(url)]
  }

  /** The row of one SQL entry, as a multiset. The unused sqlKey fits the
      signature Gather expects. */
  function SqlRowOf(url: string, sqlKey: string, stat: SqlStat): multiset<Record> {
    multiset{SqlRow(url, stat)}
  }

  /** The rows of one data source. The unit context and the unused key fit the
      signature Gather expects. */
  ghost function SourceSqlRows(u: (), key: string, source: DataSourceStat): multiset<Record> {
    Gather(source.url, source.sqlStatMap, SqlRowOf)
  }

  /** The rows of every registered data source. */
  ghost function SqlRows(sources: map<string, DataSourceStat>): multiset<Record> {
    Gather((), sources, SourceSqlRows)
  }

  /** The number of SQL entries of one data source. The unit context and the
      unused key fit the signature Total expects. */
  function SqlMapSize(u: (), key: string, source: DataSourceStat): nat {
    |source.sqlStatMap|
  }

  /** The number of SQL statistics over all registered data sources. */
  ghost function SqlEntryCount(sources: map<string, DataSourceStat>): nat {
    Total((), sources, SqlMapSize)
  }

  /** A row is in the table exactly when it is the row of some SQL statistic
      of some registered data source, carrying that data source's URL. */
  lemma SqlRowsExact(sources: map<string, DataSourceStat>, r: Record)
    ensures r in SqlRows(sources) <==>
      exists key, sqlKey :: key in sources && sqlKey in sources[key].sqlStatMap &&
        r == SqlRow(sources[key].url, sources[key].sqlStatMap[sqlKey])
  {
    GatherHas((), sources, SourceSqlRows, r);
    if r in SqlRows(sources) {
      var key :| key in sources && r in SourceSqlRows((), key, sources[key]);
      GatherHas(sources[key].url, sources[key].sqlStatMap, SqlRowOf, r);
      var sqlKey :| sqlKey in sources[key].sqlStatMap &&
        r in SqlRowOf(sources[key].url, sqlKey, sources[key].sqlStatMap[sqlKey]);
      assert r == SqlRow(sources[key].url, sources[key].sqlStatMap[sqlKey]);
    }
    if exists key, sqlKey :: key in sources && sqlKey in sources[key].sqlStatMap &&
        r == SqlRow(sources[key].url, sources[key].sqlStatMap[sqlKey]) {
      var key, sqlKey :| key in sources && sqlKey in sources[key].sqlStatMap &&
        r == SqlRow(sources[key].url, sources[key].sqlStatMap[sqlKey]);
      GatherHas(sources[key].url, sources[key].sqlStatMap, SqlRowOf, r);
      assert r in SqlRowOf(sources[key].url, sqlKey, sources[key].sqlStatMap[sqlKey]);
      assert r in SourceSqlRows((), key, sources[key]);
    }
  }

  /** Every row of the table has a URL item, and it is the URL of a registered data source. */
  lemma SqlRowsCarryOwnerUrl(sources: map<string, DataSourceStat>, r: Record)
    requires r in SqlRows(sources)
    ensures "URL" in r
    ensures exists key :: key in sources && r["URL"] == Text(sources[key].url)
  {
    SqlRowsExact(sources, r);
  }

  /** The table has as many rows as there are SQL statistics, over all data sources. */
  lemma SqlRowCount(sources: map<string, DataSourceStat>)
    ensures |SqlRows(sources)| == SqlEntryCount(sources)
  {
    forall key | key in sources
      ensures |SourceSqlRows((), key, sources[key])| == SqlMapSize((), key, sources[key])
    {
      GatherSingletons(sources[key].url, sources[key].sqlStatMap, SqlRowOf);
    }
    GatherSize((), sources, SourceSqlRows, SqlMapSize);
  }
}
