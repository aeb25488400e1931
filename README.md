# JDBC statistics manager

This is a model of Druid's process-wide JDBC statistics manager,
`JdbcStatManager`. The manager:

- hands out SQL ids from a seed that starts at 1000;
- counts resets, and on each reset clears the three global statistics
  (connection, statement and result set) and every `StatFilter` of every proxy
  data source and every pool instance;
- keeps a registry of data-source statistics by key;
- holds a per-thread diagnostic context;
- builds the 56-item record type of the data-source table once and caches it;
- exports three tables: data sources, SQL statistics, and connections.

The manager is one class, `StatManager.JdbcStatManager`. Each field the source
updates is a field of the class:

- `sqlIdSeed` and `resetCount`;
- `dataSources`, a `map`;
- `statContext`, one slot standing for the thread-local;
- `compositeType`, the static cache.

Two ghost fields record history:

- `issuedIds`: every SQL id handed out.
- `resetLog`: every reset step taken (raise the counter, reset a global, reset
  filter *j* of data source *i* of a family).

A third ghost field, `resetRounds`, lists the resets performed. `Valid()` ties
the counters to this history, and says that the k-th reset brings the counter
to k. `CacheValid()` says the cache, once filled, holds
the record type.

The proxy data sources of the driver and the pool instances belong to other
components. Each operation that walks them takes them as `seq<DataSourceHandle>`
arguments, in the order their collections yield them. A handle gives:

- the row the data source reports for itself;
- its filter chain, each filter either a statistics filter with its connection
  entries or some other filter.

The exports are specified by functions of the inputs:

- `Connections` for the connection table, built in order.
- `SqlRows` for the SQL table. It iterates a hash map, so it is specified as a
  multiset with a generic fold over maps (`MapGather.Gather`). A lemma proves
  the fold independent of which entry is taken first.

The reset is specified by `ResetSteps`. The lemmas prove the following:

- the counter is raised first and only once;
- the three globals are reset next, in source order;
- exactly the statistics-filter positions are reset, each position once.

Three points of the code that the model keeps:

- The record type has 56 items, and the first is named `ID` (lines 109-129 of
  `JdbcStatManager.java`).
- The reset counter is raised before any statistic is reset (line 288).
- A reset has no exception handling, so the first exception from a filter ends
  it (lines 286-312).

## Model

| member | source | states |
|---|---|---|
| StatManager.JdbcStatManager.constructor | src/main/java/com/alibaba/druid/stat/JdbcStatManager.java:42-58 | the seed starts at 1000 and the reset count at 0; the registry is empty; no context is set; the cache is empty |
| StatManager.JdbcStatManager.GenerateSqlId | src/main/java/com/alibaba/druid/stat/JdbcStatManager.java:80-82 | the id is the old seed plus one and becomes the new seed; it exceeds 1000 and every id issued before; it is appended to the issued ids, which stay 1001, 1002, … |
| StatManager.JdbcStatManager.GetResetCount | src/main/java/com/alibaba/druid/stat/JdbcStatManager.java:314-317 | the count is the number of resets performed, and the number of counter raises in the reset log |
| StatManager.JdbcStatManager.Reset | src/main/java/com/alibaba/druid/stat/JdbcStatManager.java:286-312 | the count goes up by one; the log gains exactly the steps of one reset over the given proxies and pools; the reset is recorded as a new round |
| StatManager.JdbcStatManager.ResetStatFilters | src/main/java/com/alibaba/druid/stat/JdbcStatManager.java:294-311 | the log gains the resets of every statistics filter of the family, data source by data source, and nothing else |
| StatManager.JdbcStatManager.ResetChainFilters | src/main/java/com/alibaba/druid/stat/JdbcStatManager.java:296-301 | the log gains the resets of the chain's statistics filters, in chain order |
| StatManager.JdbcStatManager.GetDataSourceCompositeType | src/main/java/com/alibaba/druid/stat/JdbcStatManager.java:100-204 | returns the data-source record type and leaves it cached; a filled cache is returned unchanged |
| StatManager.JdbcStatManager.GetDataSourceList | src/main/java/com/alibaba/druid/stat/JdbcStatManager.java:206-227 | builds the record type first; one row per proxy data source, in order, then one per pool instance, each the data source's own row |
| StatManager.JdbcStatManager.GetSqlList | src/main/java/com/alibaba/druid/stat/JdbcStatManager.java:229-247 | the rows are, as a multiset, the SQL rows of all registered data sources; there are as many rows as SQL statistics |
| StatManager.JdbcStatManager.AppendSqlRows | src/main/java/com/alibaba/druid/stat/JdbcStatManager.java:238-243 | adds the rows of one data source's SQL statistics, as a multiset |
| StatManager.JdbcStatManager.GetConnectionList | src/main/java/com/alibaba/druid/stat/JdbcStatManager.java:249-284 | the rows are the connection entries of the proxies' statistics filters, then of the pools' |
| StatManager.JdbcStatManager.CollectConnections | src/main/java/com/alibaba/druid/stat/JdbcStatManager.java:256-268 | the rows are the entries of each data source's chain, data source by data source |
| StatManager.JdbcStatManager.CollectChainConnections | src/main/java/com/alibaba/druid/stat/JdbcStatManager.java:258-267 | the rows are the entries of each statistics filter of the chain, in order; other filters add none |
| StatManager.JdbcStatManager.GetDataSources | src/main/java/com/alibaba/druid/stat/JdbcStatManager.java:60-62 | returns the registry map |
| StatManager.JdbcStatManager.GetStatContext | src/main/java/com/alibaba/druid/stat/JdbcStatManager.java:64-66 | returns the context slot, None until set |
| StatManager.JdbcStatManager.SetStatContext | src/main/java/com/alibaba/druid/stat/JdbcStatManager.java:64-70 | the context read next is the one just set |
| StatManager.JdbcStatManager.PutDataSource | src/main/java/com/alibaba/druid/stat/JdbcStatManager.java:50-62 | a registration through the shared registry map replaces the entry for its key, and the map then holds it |
| StatManager.CreateStatContext | src/main/java/com/alibaba/druid/stat/JdbcStatManager.java:72-78 | a new context's trace flag is the trace manager's flag |
| Schema.DataSourceCompositeType | src/main/java/com/alibaba/druid/stat/JdbcStatManager.java:108-201 | the record type has 56 item names and 56 item types |
| Schema.DataSourceSchemaWellFormed | src/main/java/com/alibaba/druid/stat/JdbcStatManager.java:127-201 | the record type meets the conditions the model checks: it has items; names, descriptions and types are aligned; no name is empty or repeated as written; the descriptions are the names |
| Schema.DataSourceSchemaAligned | src/main/java/com/alibaba/druid/stat/JdbcStatManager.java:108-197 | each of the 56 positions pairs the name with the type the field catalogue gives it |
| Schema.CatalogueAgrees0To7 | src/main/java/com/alibaba/druid/stat/JdbcStatManager.java:129-138 | the names at positions 0-7, with the types at the same positions of the type array, agree with the catalogue |
| Schema.CatalogueAgrees8To15 | src/main/java/com/alibaba/druid/stat/JdbcStatManager.java:139-151 | the names at positions 8-15, with the types at the same positions of the type array, agree with the catalogue |
| Schema.CatalogueAgrees16To23 | src/main/java/com/alibaba/druid/stat/JdbcStatManager.java:152-161 | the names at positions 16-23, with the types at the same positions of the type array, agree with the catalogue |
| Schema.CatalogueAgrees24To31 | src/main/java/com/alibaba/druid/stat/JdbcStatManager.java:162-174 | the names at positions 24-31, with the types at the same positions of the type array, agree with the catalogue |
| Schema.CatalogueAgrees32To39 | src/main/java/com/alibaba/druid/stat/JdbcStatManager.java:175-184 | the names at positions 32-39, with the types at the same positions of the type array, agree with the catalogue |
| Schema.CatalogueAgrees40To47 | src/main/java/com/alibaba/druid/stat/JdbcStatManager.java:185-189 | the names at positions 40-47, with the types at the same positions of the type array, agree with the catalogue |
| Schema.CatalogueAgrees48To55 | src/main/java/com/alibaba/druid/stat/JdbcStatManager.java:190-195 | the names at positions 48-55, with the types at the same positions of the type array, agree with the catalogue |
| Schema.CatalogueFieldPresent | src/main/java/com/alibaba/druid/stat/JdbcStatManager.java:108-201 | a catalogue field at its position is in the record type with the catalogue's type |
| Schema.IdIsLong | src/main/java/com/alibaba/druid/stat/JdbcStatManager.java:109 | the item ID exists and is a long |
| Schema.FilterClassesIsStringArray | src/main/java/com/alibaba/druid/stat/JdbcStatManager.java:110 | the item FilterClasses exists and is an array of strings |
| Schema.CreatedTimeIsDate | src/main/java/com/alibaba/druid/stat/JdbcStatManager.java:110 | the item CreatedTime exists and is a date |
| Schema.ConnectionHistogramIsLongArray | src/main/java/com/alibaba/druid/stat/JdbcStatManager.java:122 | the item ConnectionHistogram exists and is a primitive long array |
| Schema.StatementHistogramIsLongArray | src/main/java/com/alibaba/druid/stat/JdbcStatManager.java:122 | the item StatementHistogram exists and is a primitive long array |
| Schema.DataSourceSchemaEndsWithHistograms | src/main/java/com/alibaba/druid/stat/JdbcStatManager.java:122 | the last two items are the two histograms, both primitive long arrays |
| SqlExport.SqlRow | src/main/java/com/alibaba/druid/stat/JdbcStatManager.java:240-242 | a SQL row has the statistic's items plus URL; URL is the data source's URL; every other item keeps its value |
| SqlExport.SqlRowsExact | src/main/java/com/alibaba/druid/stat/JdbcStatManager.java:237-244 | a row is in the SQL table if and only if it is the row of some SQL statistic of some registered data source, with that data source's URL |
| SqlExport.SqlRowsCarryOwnerUrl | src/main/java/com/alibaba/druid/stat/JdbcStatManager.java:240-242 | every SQL row has a URL item, and it is the URL of a registered data source |
| SqlExport.SqlRowCount | src/main/java/com/alibaba/druid/stat/JdbcStatManager.java:237-244 | the SQL table has one row per SQL statistic over all data sources |
| ConnectionExport.ChainConnectionsIncludes | src/main/java/com/alibaba/druid/stat/JdbcStatManager.java:258-267 | every entry of a statistics filter in the chain is exported |
| ConnectionExport.ChainConnectionsFrom | src/main/java/com/alibaba/druid/stat/JdbcStatManager.java:258-267 | every exported entry of a chain comes from one of its statistics filters |
| ConnectionExport.ChainConnectionsHas | src/main/java/com/alibaba/druid/stat/JdbcStatManager.java:258-267 | an entry is exported for a chain if and only if one of its statistics filters holds it |
| ConnectionExport.ConnectionsIncludes | src/main/java/com/alibaba/druid/stat/JdbcStatManager.java:256-268 | every entry of a statistics filter of a listed data source is exported |
| ConnectionExport.ConnectionsFrom | src/main/java/com/alibaba/druid/stat/JdbcStatManager.java:256-268 | every exported entry comes from a statistics filter of a listed data source |
| ConnectionExport.ConnectionsHas | src/main/java/com/alibaba/druid/stat/JdbcStatManager.java:256-268 | an entry is exported if and only if a statistics filter of a listed data source holds it |
| ConnectionExport.ChainWithoutStatFilter | src/main/java/com/alibaba/druid/stat/JdbcStatManager.java:259 | a chain with no statistics filter contributes no entry |
| ConnectionExport.ConnectionsAppend | src/main/java/com/alibaba/druid/stat/JdbcStatManager.java:256-281 | exporting two lists of data sources one after the other equals exporting their concatenation |
| ConnectionExport.SourceWithoutStatFilterAddsNothing | src/main/java/com/alibaba/druid/stat/JdbcStatManager.java:257-268 | a data source without a statistics filter adds no row and reorders none |
| ResetTrace.ChainResetsExact | src/main/java/com/alibaba/druid/stat/JdbcStatManager.java:296-301 | a chain's resets are exactly its statistics filters, named by position |
| ResetTrace.FilterResetsExact | src/main/java/com/alibaba/druid/stat/JdbcStatManager.java:294-302 | a family's resets are exactly the statistics filters of its data sources |
| ResetTrace.ChainResetsDistinct | src/main/java/com/alibaba/druid/stat/JdbcStatManager.java:296-301 | no position of a chain is reset twice |
| ResetTrace.FilterResetsDistinct | src/main/java/com/alibaba/druid/stat/JdbcStatManager.java:294-302 | no (data source, chain position) pair of a family is reset twice |
| ResetTrace.RaiseCountAppend | src/main/java/com/alibaba/druid/stat/JdbcStatManager.java:288 | the counter raises of two logs add up |
| ResetTrace.RaiseCountNone | src/main/java/com/alibaba/druid/stat/JdbcStatManager.java:288 | a log with no raise step raises the counter zero times |
| ResetTrace.ResetRaisesCountFirst | src/main/java/com/alibaba/druid/stat/JdbcStatManager.java:287-292 | a reset first raises the counter to its new value; it then resets the connection, statement and result-set statistics in that order; it raises the counter exactly once |
| ResetTrace.ResetTouchesExactlyStatFilters | src/main/java/com/alibaba/druid/stat/JdbcStatManager.java:294-311 | a filter is reset if and only if it is a statistics filter of a proxy data source or of a pool instance |
| ResetTrace.ResetTouchesEachOnce | src/main/java/com/alibaba/druid/stat/JdbcStatManager.java:286-312 | a reset takes no step twice: each statistics-filter position is reset once |
| ResetTrace.ResetStepsAfter | src/main/java/com/alibaba/druid/stat/JdbcStatManager.java:287-311 | the log left by the raise, the three global resets and the two families' filter resets is the old log plus one reset's steps; the log gains one counter raise |
| ResetTrace.HistoryAppend | src/main/java/com/alibaba/druid/stat/JdbcStatManager.java:286-312 | one more reset appends its steps to the history |
| ResetTrace.HistoryRaiseCount | src/main/java/com/alibaba/druid/stat/JdbcStatManager.java:286-317 | k resets raise the counter k times, whatever data sources they walk |

## Left out

- JMX open types are modelled as values: `CompositeType`, `TabularType`, `TabularDataSupport` and `CompositeDataSupport`. Their checks are not modelled. These include the duplicate-row rejection of `TabularDataSupport.put` and the validation exceptions the constructors raise. `Schema.WellFormed` states the conditions the model checks: items exist, the arrays are aligned, and names are non-empty and distinct as written. `Schema.DataSourceSchemaWellFormed` proves them. The library also needs a non-empty type name, description and item descriptions, and it trims names before its checks; these are not modelled.
- The record types of the SQL and connection tables are not part of this model: `JdbcSqlStat.getCompositeType` and `JdbcConnectionStat.Entry.getCompositeType`. Rows are item maps.
- The computation of the collaborators' rows is not modelled: `getCompositeData` of proxies, pools and connection entries, and `JdbcSqlStat.getData`. These are inputs. The `URL` put in `getSqlList` is modelled as an update of the row value; possible aliasing with the statistic's own map is not modelled.
- The resets of the global statistics and of the filters belong to those objects. The model records which one is reset and in what order, not what it clears.
- The driver's proxy registry and the pool registry are arguments: `DruidDriver.getProxyDataSources` and `DruidDataSourceStatManager.getDruidDataSourceInstances`. Their iteration order is taken as the argument order.
- The connection map of each statistics filter is a sequence: `StatFilter.getConnections`, a `ConcurrentMap<Long, Entry>` at lines 262 and 275. Its iteration order is taken as the sequence order. The "in order" contracts of `Connections`, `GetConnectionList` and its helpers rest on that.
- Filters are named by their place: family, data source index, and position in the chain. Filter object identity and sharing are not modelled. In the code, a `StatFilter` object that occurs twice in one chain, or in two chains, is reset once per occurrence. The model records one step per position, which matches the calls made, but `Distinct` is about positions, not objects.
- The trace manager's flag is an argument of `CreateStatContext`.
- Concurrency is not modelled: the atomic counters, the concurrent map, the thread-local (modelled as one slot) and the unsynchronised static cache. Every operation runs to completion alone.
- StatManager.JdbcStatManager.GenerateSqlId: ids are unbounded integers; the 64-bit wrap-around of `AtomicLong` is not modelled.
- StatManager.JdbcStatManager.GetResetCount: the count is unbounded; 64-bit wrap-around is not modelled.
- StatManager.JdbcStatManager.Reset: an exception from a collaborator's reset, which would end the reset early, is not modelled.
- StatManager.JdbcStatManager.GetSqlList: the rows are specified as a multiset. The order of the concurrent map is not modelled.
- `getInstance`, `getConnectionstat`, `getStatementStat` and `getResultSetStat` only return fixed objects; they are not modelled.
