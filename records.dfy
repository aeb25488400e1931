/**
 * The collaborators of the statistics manager, as the values it reads from
 * them. Their own behaviour (how a pool computes its row, how a filter counts
 * connections) is not modelled: what the manager gets from them is an input.
 */
module Records {

  /** A value in an exported row. Only the URL the manager adds is inspected. */
  datatype Value = Text(text: string) | Number(number: int) | Null

  /** One exported row: item name to value. */
  type Record = map<string, Value>

  /**
   * A filter in a data source's chain. Only the statistics filter matters to
   * the manager: it holds the entries of the connections it tracks (in the
   * order its connection map yields them) and can be reset. Every other kind
   * of filter is skipped.
   */
  datatype Filter = StatFilter(connections: seq<Record>) | OtherFilter(className: string)

  /**
   * A data source the manager does not own: a proxy data source registered
   * with the driver, or a pool instance. `compositeData` is the row it reports
   * for itself; `filters` is its filter chain (the proxy's configured filters,
   * or the pool's proxy filters).
   */
  datatype DataSourceHandle = DataSourceHandle(compositeData: Record, filters: seq<Filter>)

  /** The statistics of one SQL text; `data` is the item map it reports. */
  datatype SqlStat = SqlStat(data: Record)

  /** The statistics of one registered data source: its URL and its SQL statistics by SQL key. */
  datatype DataSourceStat = DataSourceStat(url: string, sqlStatMap: map<string, SqlStat>)

  /** The per-execution diagnostic context. */
  datatype StatContext = StatContext(traceEnable: bool)
}
