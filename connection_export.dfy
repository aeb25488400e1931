/**
 * What the connection table holds: for each data source in turn, and for each
 * filter of its chain in turn, the connection entries of that filter when it
 * is a statistics filter. The functions are defined by extending a prefix by
 * its last element, which is how the export loop builds the table.
 */
module ConnectionExport {
  import opened Records

  /** The entries one filter contributes: its connections if it is a statistics filter, else none. */
  function FilterConnections(f: Filter): seq<Record> {
    if f.StatFilter? then f.connections else []
  }

  /** The entries of one filter chain, in chain order. */
  function ChainConnections(filters: seq<Filter>): seq<Record>
    decreases |filters|
  {
    if filters == [] then []
    else ChainConnections(filters[..|filters| - 1]) + FilterConnections(filters[|filters| - 1])
  }

  /** The entries of a family of data sources, in the order the family lists them. */
  function Connections(sources: seq<DataSourceHandle>): seq<Record>
    decreases |sources|
  {
    if sources == [] then []
    else Connections(sources[..|sources| - 1]) + ChainConnections(sources[|sources| - 1].filters)
  }

  /** Filter j of the chain is a statistics filter holding entry r. */
  ghost predicate ChainHolds(filters: seq<Filter>, j: int, r: Record) {
    0 <= j < |filters| && filters[j].StatFilter? && r in filters[j].connections
  }

  /** Filter j of data source i is a statistics filter holding entry r. */
  ghost predicate SourceHolds(sources: seq<DataSourceHandle>, i: int, j: int, r: Record) {
    0 <= i < |sources| && ChainHolds(sources[i].filters, j, r)
  }

  /** Every entry of a statistics filter of the chain is exported. */
  lemma {:induction false} ChainConnectionsIncludes(filters: seq<Filter>, j: int, r: Record)
    requires ChainHolds(filters, j, r)
    ensures r in ChainConnections(filters)
    decreases |filters|
  {
    var n := |filters| - 1;
    assert ChainConnections(filters) == ChainConnections(filters[..n]) + FilterConnections(filters[n]);
    if j < n {
      assert ChainHolds(filters[..n], j, r);
      ChainConnectionsIncludes(filters[..n], j, r);
    }
  }

  /** Every exported entry of the chain comes from one of its statistics filters. */
  lemma {:induction false} ChainConnectionsFrom(filters: seq<Filter>, r: Record) returns (j: int)
    requires r in ChainConnections(filters)
    ensures ChainHolds(filters, j, r)
    decreases |filters|
  {
    var n := |filters| - 1;
    assert ChainConnections(filters) == ChainConnections(filters[..n]) + FilterConnections(filters[n]);
    if r in ChainConnections(filters[..n]) {
      j := ChainConnectionsFrom(filters[..n], r);
      assert filters[..n][j] == filters[j];
    } else {
      j := n;
    }
  }

  /** An entry is exported for a chain exactly when a statistics filter of the chain holds it. */
  lemma ChainConnectionsHas(filters: seq<Filter>, r: Record)
    ensures r in ChainConnections(filters) <==> exists j :: ChainHolds(filters, j, r)
  {
    if r in ChainConnections(filters) {
      var j := ChainConnectionsFrom(filters, r);
    }
    if exists j :: ChainHolds(filters, j, r) {
      var j :| ChainHolds(filters, j, r);
      ChainConnectionsIncludes(filters, j, r);
    }
  }

  /** Every entry of a statistics filter of one of the data sources is exported. */
  lemma {:induction false} ConnectionsIncludes(sources: seq<DataSourceHandle>, i: int, j: int, r: Record)
    requires SourceHolds(sources, i, j, r)
    ensures r in Connections(sources)
    decreases |sources|
  {
    var n := |sources| - 1;
    assert Connections(sources) == Connections(sources[..n]) + ChainConnections(sources[n].filters);
    if i < n {
      assert SourceHolds(sources[..n], i, j, r);
      ConnectionsIncludes(sources[..n], i, j, r);
    } else {
      ChainConnectionsIncludes(sources[n].filters, j, r);
    }
  }

  /** Every exported entry comes from a statistics filter of one of the data sources. */
  lemma {:induction false} ConnectionsFrom(sources: seq<DataSourceHandle>, r: Record) returns (i: int, j: int)
    requires r in Connections(sources)
    ensures SourceHolds(sources, i, j, r)
    decreases |sources|
  {
    var n := |sources| - 1;
    assert Connections(sources) == Connections(sources[..n]) + ChainConnections(sources[n].filters);
    if r in Connections(sources[..n]) {
      i, j := ConnectionsFrom(sources[..n], r);
      assert sources[..n][i] == sources[i];
    } else {
      i := n;
      j := ChainConnectionsFrom(sources[n].filters, r);
    }
  }

  /** An entry is exported for a family exactly when a statistics filter of one
      of its data sources holds it. */
  lemma ConnectionsHas(sources: seq<DataSourceHandle>, r: Record)
    ensures r in Connections(sources) <==> exists i, j :: SourceHolds(sources, i, j, r)
  {
    if r in Connections(sources) {
      var i, j := ConnectionsFrom(sources, r);
    }
    if exists i, j :: SourceHolds(sources, i, j, r) {
      var i, j :| SourceHolds(sources, i, j, r);
      ConnectionsIncludes(sources, i, j, r);
    }
  }

  /** A chain without a statistics filter contributes no entry. */
  lemma {:induction false} ChainWithoutStatFilter(filters: seq<Filter>)
    requires forall j | 0 <= j < |filters| :: !filters[j].StatFilter?
    ensures ChainConnections(filters) == []
    decreases |filters|
  {
    if filters != [] {
      ChainWithoutStatFilter(filters[..|filters| - 1]);
    }
  }

  /** Dropping the last element of a + b, for a non-empty b, drops it from b. */
  lemma DropLastOfConcat<T>(a: seq<T>, b: seq<T>)
    requires b != []
    ensures (a + b)[..|a + b| - 1] == a + b[..|b| - 1]
    ensures (a + b)[|a + b| - 1] == b[|b| - 1]
  {
  }

  /** Exporting two lists of data sources one after the other is exporting their concatenation. */
  lemma {:induction false} ConnectionsAppend(a: seq<DataSourceHandle>, b: seq<DataSourceHandle>)
    ensures Connections(a + b) == Connections(a) + Connections(b)
    decreases |b|
  {
    if b == [] {
      assert a + b == a;
    } else {
      var n := |b| - 1;
      calc {
        Connections(a + b);
      == { DropLastOfConcat(a, b); }
        Connections(a + b[..n]) + ChainConnections(b[n].filters);
      == { ConnectionsAppend(a, b[..n]); }
        Connections(a) + Connections(b[..n]) + ChainConnections(b[n].filters);
      == 
        Connections(a) + Connections(b);
      }
    }
  }

  /** A data source with no statistics filter adds no row: the table is what the
      other data sources export, in the same order. */
  lemma SourceWithoutStatFilterAddsNothing(sources: seq<DataSourceHandle>, i: int)
    requires 0 <= i < |sources|
    requires forall j | 0 <= j < |sources[i].filters| :: !sources[i].filters[j].StatFilter?
    ensures Connections(sources) == Connections(sources[..i]) + Connections(sources[i + 1..])
  {
    var before, middle, after := sources[..i], [sources[i]], sources[i + 1..];
    calc {
      Connections(sources);
    == { SplitAt(sources, i); }
      Connections(before + middle + after);
    == { ConnectionsAppend(before + middle, after); }
      Connections(before + middle) + Connections(after);
    == { ConnectionsAppend(before, middle); }
      Connections(before) + Connections(middle) + Connections(after);
    == { assert middle[..0] == []; ChainWithoutStatFilter(sources[i].filters); }
      Connections(before) + Connections(after);
    }
  }

  /** A sequence is its prefix, the element at i, and its suffix. */
  lemma SplitAt<T>(s: seq<T>, i: int)
    requires 0 <= i < |s|
    ensures s == s[..i] + [s[i]] + s[i + 1..]
  {
  }
}
