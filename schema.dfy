/**
 * The record type of one row of the data-source table: the item names, their
 * descriptions and their open types, three positionally aligned arrays that
 * are handed together to the managed-bean library.
 */
module Schema {
  import opened Wrappers

  datatype SimpleType = LONG | INTEGER | STRING | DATE

  /** An open type: a simple type, or an array of one (primitiveArray: long[] rather than Long[]). */
  datatype OpenType = Simple(simple: SimpleType) | ArrayOf(element: SimpleType, primitiveArray: bool)

  datatype CompositeType = CompositeType(
    typeName: string,
    description: string,
    itemNames: seq<string>,
    itemDescriptions: seq<string>,
    itemTypes: seq<OpenType>)

  /** The conditions the model checks of a composite type: one description and
      one type per item name, at least one item, no empty and no repeated name
      as written. */
  ghost predicate WellFormed(c: CompositeType) {
    && |c.itemNames| > 0
    && |c.itemDescriptions| == |c.itemNames|
    && |c.itemTypes| == |c.itemNames|
    && (forall i | 0 <= i < |c.itemNames| :: c.itemNames[i] != "")
    && (forall i, j | 0 <= i < j < |c.itemNames| :: c.itemNames[i] != c.itemNames[j])
  }

  /** The item called `name` exists, and every item called `name` has type `t`. */
  ghost predicate ItemHasType(c: CompositeType, name: string, t: OpenType) {
    && (exists i :: 0 <= i < |c.itemNames| && c.itemNames[i] == name)
    && (forall i | 0 <= i < |c.itemNames| && i < |c.itemTypes| && c.itemNames[i] == name :: c.itemTypes[i] == t)
  }

  /** The type array of the data-source record, in source order. */
  const DataSourceItemTypes: seq<OpenType> :=
      [Simple(LONG), Simple(STRING), Simple(STRING), ArrayOf(STRING, false), Simple(DATE)]  // 0 - 4
    + [Simple(STRING), Simple(STRING), Simple(INTEGER), Simple(INTEGER), Simple(STRING)]  // 5 - 9
    + [Simple(LONG), Simple(INTEGER), Simple(LONG), Simple(LONG), Simple(LONG)]  // 10 - 14
    + [Simple(DATE), Simple(LONG), Simple(DATE), Simple(STRING), Simple(STRING)]  // 15 - 19
    + [Simple(LONG), Simple(LONG), Simple(LONG), Simple(LONG), Simple(INTEGER)]  // 20 - 24
    + [Simple(INTEGER), Simple(LONG), Simple(LONG), Simple(DATE), Simple(STRING)]  // 25 - 29
    + [Simple(STRING), Simple(LONG), Simple(INTEGER), Simple(DATE), Simple(LONG)]  // 30 - 34
    + [Simple(LONG), Simple(INTEGER), Simple(INTEGER), Simple(LONG), Simple(DATE)]  // 35 - 39
    + [Simple(LONG), Simple(LONG), Simple(DATE), Simple(STRING), Simple(STRING)]  // 40 - 44
    + [Simple(LONG), Simple(STRING), Simple(STRING), Simple(LONG), Simple(INTEGER)]  // 45 - 49
    + [Simple(LONG), Simple(DATE), Simple(LONG), Simple(LONG), ArrayOf(LONG, true)]  // 50 - 54
    + [ArrayOf(LONG, true)]  // 55 - 55

  /** The name array of the data-source record, in source order. */
  const DataSourceItemNames: seq<string> :=
      ["ID", "URL", "Name", "FilterClasses", "CreatedTime"]  // 0 - 4
    + ["RawUrl", "RawDriverClassName", "RawDriverMajorVersion", "RawDriverMinorVersion", "Properties"]  // 5 - 9
    + ["ConnectionActiveCount", "ConnectionActiveCountMax", "ConnectionCloseCount", "ConnectionCommitCount", "ConnectionRollbackCount"]  // 10 - 14
    + ["ConnectionConnectLastTime", "ConnectionConnectErrorCount", "ConnectionConnectErrorLastTime", "ConnectionConnectErrorLastMessage", "ConnectionConnectErrorLastStackTrace"]  // 15 - 19
    + ["StatementCreateCount", "StatementPrepareCount", "StatementPreCallCount", "StatementExecuteCount", "StatementRunningCount"]  // 20 - 24
    + ["StatementConcurrentMax", "StatementCloseCount", "StatementErrorCount", "StatementLastErrorTime", "StatementLastErrorMessage"]  // 25 - 29
    + ["StatementLastErrorStackTrace", "StatementExecuteMillisTotal", "ConnectionConnectingCount", "StatementExecuteLastTime", "ResultSetCloseCount"]  // 30 - 34
    + ["ResultSetOpenCount", "ResultSetOpenningCount", "ResultSetOpenningMax", "ResultSetFetchRowCount", "ResultSetLastOpenTime"]  // 35 - 39
    + ["ResultSetErrorCount", "ResultSetOpenningMillisTotal", "ResultSetLastErrorTime", "ResultSetLastErrorMessage", "ResultSetLastErrorStackTrace"]  // 40 - 44
    + ["ConnectionConnectCount", "ConnectionErrorLastMessage", "ConnectionErrorLastStackTrace", "ConnectionConnectMillisTotal", "ConnectionConnectingCountMax"]  // 45 - 49
    + ["ConnectionConnectMillisMax", "ConnectionErrorLastTime", "ConnectionAliveMillisMax", "ConnectionAliveMillisMin", "ConnectionHistogram"]  // 50 - 54
    + ["StatementHistogram"]  // 55 - 55

  /** The record type that is built once and then cached; the descriptions are the names. */
  function DataSourceCompositeType(): (c: CompositeType)
    ensures |c.itemNames| == |c.itemTypes| == 56
  {
    CompositeType("DataSourceStatistic", "DataSource Statistic",
                  DataSourceItemNames, DataSourceItemNames, DataSourceItemTypes)
  }

  /** One entry of the field catalogue: where a field sits in the record and its type. */
  datatype Item = Item(position: int, openType: OpenType)

  /**
   * The data-source record described field by field, keyed by name: an
   * independent statement of which position and type each named field must
   * have. The positional arrays above are proved to agree with it.
   */
  function CatalogueItem(name: string): Option<Item> {
    match name
    case "ID" => Some(Item(0, Simple(LONG)))
    case "URL" => Some(Item(1, Simple(STRING)))
    case "Name" => Some(Item(2, Simple(STRING)))
    case "FilterClasses" => Some(Item(3, ArrayOf(STRING, false)))
    case "CreatedTime" => Some(Item(4, Simple(DATE)))
    case "RawUrl" => Some(Item(5, Simple(STRING)))
    case "RawDriverClassName" => Some(Item(6, Simple(STRING)))
    case "RawDriverMajorVersion" => Some(Item(7, Simple(INTEGER)))
    case "RawDriverMinorVersion" => Some(Item(8, Simple(INTEGER)))
    case "Properties" => Some(Item(9, Simple(STRING)))
    case "ConnectionActiveCount" => Some(Item(10, Simple(LONG)))
    case "ConnectionActiveCountMax" => Some(Item(11, Simple(INTEGER)))
    case "ConnectionCloseCount" => Some(Item(12, Simple(LONG)))
    case "ConnectionCommitCount" => Some(Item(13, Simple(LONG)))
    case "ConnectionRollbackCount" => Some(Item(14, Simple(LONG)))
    case "ConnectionConnectLastTime" => Some(Item(15, Simple(DATE)))
    case "ConnectionConnectErrorCount" => Some(Item(16, Simple(LONG)))
    case "ConnectionConnectErrorLastTime" => Some(Item(17, Simple(DATE)))
    case "ConnectionConnectErrorLastMessage" => Some(Item(18, Simple(STRING)))
    case "ConnectionConnectErrorLastStackTrace" => Some(Item(19, Simple(STRING)))
    case "StatementCreateCount" => Some(Item(20, Simple(LONG)))
    case "StatementPrepareCount" => Some(Item(21, Simple(LONG)))
    case "StatementPreCallCount" => Some(Item(22, Simple(LONG)))
    case "StatementExecuteCount" => Some(Item(23, Simple(LONG)))
    case "StatementRunningCount" => Some(Item(24, Simple(INTEGER)))
    case "StatementConcurrentMax" => Some(Item(25, Simple(INTEGER)))
    case "StatementCloseCount" => Some(Item(26, Simple(LONG)))
    case "StatementErrorCount" => Some(Item(27, Simple(LONG)))
    case "StatementLastErrorTime" => Some(Item(28, Simple(DATE)))
    case "StatementLastErrorMessage" => Some(Item(29, Simple(STRING)))
    case "StatementLastErrorStackTrace" => Some(Item(30, Simple(STRING)))
    case "StatementExecuteMillisTotal" => Some(Item(31, Simple(LONG)))
    case "ConnectionConnectingCount" => Some(Item(32, Simple(INTEGER)))
    case "StatementExecuteLastTime" => Some(Item(33, Simple(DATE)))
    case "ResultSetCloseCount" => Some(Item(34, Simple(LONG)))
    case "ResultSetOpenCount" => Some(Item(35, Simple(LONG)))
    case "ResultSetOpenningCount" => Some(Item(36, Simple(INTEGER)))
    case "ResultSetOpenningMax" => Some(Item(37, Simple(INTEGER)))
    case "ResultSetFetchRowCount" => Some(Item(38, Simple(LONG)))
    case "ResultSetLastOpenTime" => Some(Item(39, Simple(DATE)))
    case "ResultSetErrorCount" => Some(Item(40, Simple(LONG)))
    case "ResultSetOpenningMillisTotal" => Some(Item(41, Simple(LONG)))
    case "ResultSetLastErrorTime" => Some(Item(42, Simple(DATE)))
    case "ResultSetLastErrorMessage" => Some(Item(43, Simple(STRING)))
    case "ResultSetLastErrorStackTrace" => Some(Item(44, Simple(STRING)))
    case "ConnectionConnectCount" => Some(Item(45, Simple(LONG)))
    case "ConnectionErrorLastMessage" => Some(Item(46, Simple(STRING)))
    case "ConnectionErrorLastStackTrace" => Some(Item(47, Simple(STRING)))
    case "ConnectionConnectMillisTotal" => Some(Item(48, Simple(LONG)))
    case "ConnectionConnectingCountMax" => Some(Item(49, Simple(INTEGER)))
    case "ConnectionConnectMillisMax" => Some(Item(50, Simple(LONG)))
    case "ConnectionErrorLastTime" => Some(Item(51, Simple(DATE)))
    case "ConnectionAliveMillisMax" => Some(Item(52, Simple(LONG)))
    case "ConnectionAliveMillisMin" => Some(Item(53, Simple(LONG)))
    case "ConnectionHistogram" => Some(Item(54, ArrayOf(LONG, true)))
    case "StatementHistogram" => Some(Item(55, ArrayOf(LONG, true)))
    case _ => None
  }

  lemma CatalogueAgrees0To7()
    ensures |DataSourceItemNames| == |DataSourceItemTypes| == 56
    ensures forall i | 0 <= i < 8 ::
      CatalogueItem(DataSourceItemNames[i]) == Some(Item(i, DataSourceItemTypes[i]))
  {
  }

  lemma CatalogueAgrees8To15()
    ensures |DataSourceItemNames| == |DataSourceItemTypes| == 56
    ensures forall i | 8 <= i < 16 ::
      CatalogueItem(DataSourceItemNames[i]) == Some(Item(i, DataSourceItemTypes[i]))
  {
  }

  lemma CatalogueAgrees16To23()
    ensures |DataSourceItemNames| == |DataSourceItemTypes| == 56
    ensures forall i | 16 <= i < 24 ::
      CatalogueItem(DataSourceItemNames[i]) == Some(Item(i, DataSourceItemTypes[i]))
  {
  }

  lemma CatalogueAgrees24To31()
    ensures |DataSourceItemNames| == |DataSourceItemTypes| == 56
    ensures forall i | 24 <= i < 32 ::
      CatalogueItem(DataSourceItemNames[i]) == Some(Item(i, DataSourceItemTypes[i]))
  {
  }

  lemma CatalogueAgrees32To39()
    ensures |DataSourceItemNames| == |DataSourceItemTypes| == 56
    ensures forall i | 32 <= i < 40 ::
      CatalogueItem(DataSourceItemNames[i]) == Some(Item(i, DataSourceItemTypes[i]))
  {
  }

  lemma CatalogueAgrees40To47()
    ensures |DataSourceItemNames| == |DataSourceItemTypes| == 56
    ensures forall i | 40 <= i < 48 ::
      CatalogueItem(DataSourceItemNames[i]) == Some(Item(i, DataSourceItemTypes[i]))
  {
  }

  lemma CatalogueAgrees48To55()
    ensures |DataSourceItemNames| == |DataSourceItemTypes| == 56
    ensures forall i | 48 <= i < 56 ::
      CatalogueItem(DataSourceItemNames[i]) == Some(Item(i, DataSourceItemTypes[i]))
  {
  }

  /** The two positional arrays are aligned: the item at every position has the
      name and type that the catalogue gives for that position. */
  lemma DataSourceSchemaAligned()
    ensures |DataSourceItemNames| == |DataSourceItemTypes| == 56
    ensures forall i | 0 <= i < 56 ::
      CatalogueItem(DataSourceItemNames[i]) == Some(Item(i, DataSourceItemTypes[i]))
  {
    CatalogueAgrees0To7();
    CatalogueAgrees8To15();
    CatalogueAgrees16To23();
    CatalogueAgrees24To31();
    CatalogueAgrees32To39();
    CatalogueAgrees40To47();
    CatalogueAgrees48To55();
  }

  /** The record type meets the conditions the model checks: 56 items, names
      distinct and non-empty, and the descriptions are the names. */
  lemma DataSourceSchemaWellFormed()
    ensures WellFormed(DataSourceCompositeType())
    ensures DataSourceCompositeType().itemDescriptions == DataSourceCompositeType().itemNames
    ensures |DataSourceCompositeType().itemNames| == 56
  {
    DataSourceSchemaAligned();
    var names := DataSourceItemNames;
    forall i, j | 0 <= i < j < |names| ensures names[i] != names[j] {
      assert CatalogueItem(names[i]).value.position == i;
      assert CatalogueItem(names[j]).value.position == j;
    }
    forall i | 0 <= i < |names| ensures names[i] != "" {
      assert CatalogueItem(names[i]).Some?;
    }
  }

  /** A field of the catalogue that sits at its catalogue position is in the
      record type with the catalogue's type wherever its name occurs. */
  lemma CatalogueFieldPresent(name: string, k: int, t: OpenType)
    requires CatalogueItem(name) == Some(Item(k, t))
    requires 0 <= k < |DataSourceItemNames| && DataSourceItemNames[k] == name
    ensures ItemHasType(DataSourceCompositeType(), name, t)
  {
    DataSourceSchemaAligned();
  }

  /** The field called ID is a long. */
  lemma IdIsLong()
    ensures ItemHasType(DataSourceCompositeType(), "ID", Simple(LONG))
  {
    CatalogueFieldPresent("ID", 0, Simple(LONG));
  }

  /** The field called FilterClasses is an array of strings (String[], not a primitive array). */
  lemma FilterClassesIsStringArray()
    ensures ItemHasType(DataSourceCompositeType(), "FilterClasses", ArrayOf(STRING, false))
  {
    CatalogueFieldPresent("FilterClasses", 3, ArrayOf(STRING, false));
  }

  /** The field called CreatedTime is a date. */
  lemma CreatedTimeIsDate()
    ensures ItemHasType(DataSourceCompositeType(), "CreatedTime", Simple(DATE))
  {
    CatalogueFieldPresent("CreatedTime", 4, Simple(DATE));
  }

  /** The field called ConnectionHistogram is a primitive long array (long[]). */
  lemma ConnectionHistogramIsLongArray()
    ensures ItemHasType(DataSourceCompositeType(), "ConnectionHistogram", ArrayOf(LONG, true))
  {
    CatalogueFieldPresent("ConnectionHistogram", 54, ArrayOf(LONG, true));
  }

  /** The field called StatementHistogram is a primitive long array (long[]). */
  lemma StatementHistogramIsLongArray()
    ensures ItemHasType(DataSourceCompositeType(), "StatementHistogram", ArrayOf(LONG, true))
  {
    CatalogueFieldPresent("StatementHistogram", 55, ArrayOf(LONG, true));
  }

  /** The record ends with the two histograms, in this order. */
  lemma DataSourceSchemaEndsWithHistograms()
    ensures |DataSourceItemNames| == 56
    ensures DataSourceItemNames[54..] == ["ConnectionHistogram", "StatementHistogram"]
    ensures DataSourceItemTypes[54..] == [ArrayOf(LONG, true), ArrayOf(LONG, true)]
  {
  }
}
