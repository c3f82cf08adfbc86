/**
 * The non-strict database assertion (NonStrictDatabaseAssertion): before
 * two tables are compared, every column of the actual table that the
 * expected table does not mention is put on the list of columns to
 * ignore; a dataset comparison is driven by the expected dataset's tables.
 */
module NonStrictAssertion {
  import opened Wrappers
  import opened JavaStrings

  /** Table metadata reduced to what the exclusion computation reads: the table name and column names in order. */
  datatype TableMetaData = TableMetaData(tableName: string, columns: seq<string>)

  /** IColumnFilter.accept(tableName, columnName): true keeps the column. */
  type ColumnFilter = (string, string) -> bool

  /** A dataset: its tables in getTableNames order. */
  datatype DataSet = DataSet(tables: seq<TableMetaData>)

  /** One call of Assertion.assertEqualsIgnoreCols: the two tables and the columns left out of it. */
  datatype Comparison = Comparison(expected: TableMetaData, actual: TableMetaData, ignoredColumns: seq<string>)

  /** Why a comparison fails: a table missing from a dataset, or the table assertion failing. */
  datatype AssertionError = NoSuchTable(tableName: string) | TablesDiffer(comparison: Comparison)

  // ---------------------------------------------------------------------
  // Column lookup

  /** The table has a column of that name, ignoring case. */
  predicate HasColumn(meta: TableMetaData, columnName: string)
  {
    exists c :: c in meta.columns && EqualsIgnoreCase(c, columnName)
  }

  function IndexFrom(columns: seq<string>, columnName: string, from: nat): (r: Option<nat>)
    requires from <= |columns|
    ensures r.Some? ==> from <= r.value < |columns| && EqualsIgnoreCase(columns[r.value], columnName)
    ensures r.None? ==> forall k :: from <= k < |columns| ==> !EqualsIgnoreCase(columns[k], columnName)
    decreases |columns| - from
  {
    if from == |columns| then None
    else if EqualsIgnoreCase(columns[from], columnName) then Some(from)
    else IndexFrom(columns, columnName, from + 1)
  }

  /**
   * getColumnIndex: the index of a column whose name matches ignoring case;
   * None stands for NoSuchColumnException.
   */
  function GetColumnIndex(meta: TableMetaData, columnName: string): (r: Option<nat>)
    ensures r.Some? ==> r.value < |meta.columns| && EqualsIgnoreCase(meta.columns[r.value], columnName)
    ensures r.None? <==> !HasColumn(meta, columnName)
  {
    IndexFrom(meta.columns, columnName, 0)
  }

  /** tableHasColumn: a flag set by whether getColumnIndex raised NoSuchColumnException. */
  method TableHasColumn(meta: TableMetaData, columnName: string) returns (hasColumn: bool)
    ensures hasColumn <==> GetColumnIndex(meta, columnName).Some?
    ensures hasColumn <==> HasColumn(meta, columnName)
  {
    var index := GetColumnIndex(meta, columnName);
    match index {
      case Some(_) => hasColumn := true;
      case None => hasColumn := false;
    }
  }

  // ---------------------------------------------------------------------
  // Insertion-ordered sets (LinkedHashSet<String>)

  predicate NoDuplicates(s: seq<string>)
  {
    forall i, j :: 0 <= i < j < |s| ==> s[i] != s[j]
  }

  /** LinkedHashSet.add: appends the element unless it is already there. */
  function Add(acc: seq<string>, x: string): seq<string>
  {
    if x in acc then acc else acc + [x]
  }

  /** LinkedHashSet.addAll: adds the elements one by one, in order. */
  function AddAll(acc: seq<string>, xs: seq<string>): seq<string>
    decreases |xs|
  {
    if xs == [] then acc else Add(AddAll(acc, xs[..|xs| - 1]), xs[|xs| - 1])
  }

  /** addAll keeps the set duplicate-free, adds exactly the given elements and keeps what was there first. */
  lemma {:induction false} AddAllProperties(acc: seq<string>, xs: seq<string>)
    ensures NoDuplicates(acc) ==> NoDuplicates(AddAll(acc, xs))
    ensures forall x :: x in AddAll(acc, xs) <==> x in acc || x in xs
    ensures |acc| <= |AddAll(acc, xs)| && AddAll(acc, xs)[..|acc|] == acc
    decreases |xs|
  {
    if xs != [] {
      AddAllProperties(acc, xs[..|xs| - 1]);
      assert xs == xs[..|xs| - 1] + [xs[|xs| - 1]];
    }
  }

  /** Adding two sequences one after the other is adding their concatenation. */
  lemma {:induction false} AddAllConcat(acc: seq<string>, xs: seq<string>, ys: seq<string>)
    ensures AddAll(AddAll(acc, xs), ys) == AddAll(acc, xs + ys)
    decreases |ys|
  {
    if ys == [] {
      assert xs + ys == xs;
    } else {
      var init := ys[..|ys| - 1];
      AddAllConcat(acc, xs, init);
      assert (xs + ys)[..|xs + ys| - 1] == xs + init;
    }
  }

  // ---------------------------------------------------------------------
  // One pass: getColumnsToIgnore(expectedMetaData, actualMetaData)

  /**
   * The columns of actual (in actual's order, each once) that the expected
   * metadata does not have: what the two-argument getColumnsToIgnore
   * computes.
   */
  function NotExpected(expected: TableMetaData, actual: seq<string>): seq<string>
    decreases |actual|
  {
    if actual == [] then []
    else
      var prev := NotExpected(expected, actual[..|actual| - 1]);
      var c := actual[|actual| - 1];
      if HasColumn(expected, c) then prev else Add(prev, c)
  }

  /** A pass lists each actual column the expected metadata lacks, once, and nothing else. */
  lemma {:induction false} NotExpectedMembers(expected: TableMetaData, actual: seq<string>)
    ensures NoDuplicates(NotExpected(expected, actual))
    ensures forall c :: c in NotExpected(expected, actual) <==> c in actual && !HasColumn(expected, c)
    decreases |actual|
  {
    if actual != [] {
      NotExpectedMembers(expected, actual[..|actual| - 1]);
      assert actual == actual[..|actual| - 1] + [actual[|actual| - 1]];
    }
  }

  /** The two-argument getColumnsToIgnore: one loop over the actual columns. */
  method ColumnsNotExpected(expected: TableMetaData, actual: seq<string>) returns (notExpected: seq<string>)
    ensures notExpected == NotExpected(expected, actual)
  {
    notExpected := [];
    for i := 0 to |actual|
      invariant notExpected == NotExpected(expected, actual[..i])
    {
      var columnName := actual[i];
      var hasColumn := TableHasColumn(expected, columnName);
      if !hasColumn {
        notExpected := Add(notExpected, columnName);
      }
      assert actual[..i + 1][..i] == actual[..i];
    }
    assert actual[..|actual|] == actual;
  }

  /** The index of the first occurrence of x in s, or |s| when there is none. */
  function FirstIndex(s: seq<string>, x: string): (k: nat)
    ensures k <= |s|
    ensures k < |s| ==> s[k] == x
    ensures forall i :: 0 <= i < k ==> s[i] != x
  {
    if s == [] then 0 else if s[0] == x then 0 else 1 + FirstIndex(s[1..], x)
  }

  /** r lists its elements in the order of their first occurrence in s. */
  predicate InOrderOf(r: seq<string>, s: seq<string>)
  {
    forall i, j :: 0 <= i < j < |r| ==> FirstIndex(s, r[i]) < FirstIndex(s, r[j])
  }

  lemma FirstIndexOfPrefix(s: seq<string>, n: nat, x: string)
    requires n <= |s| && x in s[..n]
    ensures FirstIndex(s[..n], x) == FirstIndex(s, x) < n
  {
    var k := FirstIndex(s[..n], x);
    assert s[k] == x;
  }

  /** A pass keeps the actual table's column order. */
  lemma {:induction false} NotExpectedKeepsActualOrder(expected: TableMetaData, actual: seq<string>)
    ensures InOrderOf(NotExpected(expected, actual), actual)
    decreases |actual|
  {
    if actual != [] {
      var n := |actual| - 1;
      var init := actual[..n];
      var c := actual[n];
      var prev := NotExpected(expected, init);
      NotExpectedKeepsActualOrder(expected, init);
      NotExpectedMembers(expected, init);
      assert actual == init + [c];
      forall i | 0 <= i < |prev|
        ensures FirstIndex(actual, prev[i]) == FirstIndex(init, prev[i]) < n
      {
        FirstIndexOfPrefix(actual, n, prev[i]);
      }
      var r := NotExpected(expected, actual);
      if r != prev {
        assert r == prev + [c] && c !in prev;
        assert c !in init;
        assert FirstIndex(actual, c) == n;
      }
    }
  }

  // ---------------------------------------------------------------------
  // Filters

  function FilterColumns(tableName: string, columns: seq<string>, filter: ColumnFilter): seq<string>
    decreases |columns|
  {
    if columns == [] then []
    else
      var init := FilterColumns(tableName, columns[..|columns| - 1], filter);
      var c := columns[|columns| - 1];
      if filter(tableName, c) then init + [c] else init
  }

  /** FilteredTableMetaData: the same table, keeping the columns the filter accepts, in order. */
  function Filtered(meta: TableMetaData, filter: ColumnFilter): TableMetaData
  {
    TableMetaData(meta.tableName, FilterColumns(meta.tableName, meta.columns, filter))
  }

  /** The filtered metadata keeps its table name and exactly the accepted columns. */
  lemma {:induction false} FilteredColumns(meta: TableMetaData, filter: ColumnFilter, columns: seq<string>)
    ensures forall c :: c in FilterColumns(meta.tableName, columns, filter) <==> c in columns && filter(meta.tableName, c)
    ensures columns == meta.columns ==>
      Filtered(meta, filter).tableName == meta.tableName &&
      forall c :: c in Filtered(meta, filter).columns <==> c in meta.columns && filter(meta.tableName, c)
    decreases |columns|
  {
    if columns != [] {
      FilteredColumns(meta, filter, columns[..|columns| - 1]);
      assert columns == columns[..|columns| - 1] + [columns[|columns| - 1]];
    }
  }

  /**
   * newIColumnFilter: on the expected table it rejects exactly the columns
   * named columnName ignoring case; on any other table it accepts all.
   */
  function NewColumnFilter(expected: TableMetaData, columnName: string): ColumnFilter
  {
    (tableName: string, column: string) =>
      !(EqualsIgnoreCase(tableName, expected.tableName) && EqualsIgnoreCase(columnName, column))
  }

  /** The name filter rejects, on its own table, exactly that name ignoring case, and accepts everything elsewhere. */
  lemma NewColumnFilterRejects(expected: TableMetaData, columnName: string, tableName: string, column: string)
    ensures !NewColumnFilter(expected, columnName)(expected.tableName, column) <==> EqualsIgnoreCase(column, columnName)
    ensures !EqualsIgnoreCase(tableName, expected.tableName) ==> NewColumnFilter(expected, columnName)(tableName, column)
  {
    EqualsIgnoreCaseIsEquivalence(column, columnName, column);
    EqualsIgnoreCaseIsEquivalence(expected.tableName, expected.tableName, expected.tableName);
  }

  /**
   * The pass for an ignored name ignores the actual columns the expected
   * table lacks, plus the columns of that name, ignoring case.
   */
  lemma IgnoredNamePass(expected: TableMetaData, actual: seq<string>, columnName: string, c: string)
    ensures c in NotExpected(Filtered(expected, NewColumnFilter(expected, columnName)), actual) <==>
      c in actual && (!HasColumn(expected, c) || EqualsIgnoreCase(c, columnName))
  {
    var filter := NewColumnFilter(expected, columnName);
    var filtered := Filtered(expected, filter);
    NotExpectedMembers(filtered, actual);
    FilteredColumns(expected, filter, expected.columns);
    if HasColumn(filtered, c) {
      var w :| w in filtered.columns && EqualsIgnoreCase(w, c);
      NewColumnFilterRejects(expected, columnName, expected.tableName, w);
      assert w in expected.columns && !EqualsIgnoreCase(w, columnName);
      if EqualsIgnoreCase(c, columnName) {
        EqualsIgnoreCaseIsEquivalence(w, c, columnName);
        assert false;
      }
    }
  }

  // ---------------------------------------------------------------------
  // getColumnsToIgnore(expected, actual, columnFilters, ignoreCols)

  /** One pass per column filter, against the filtered expected metadata. */
  function FilterPasses(expected: TableMetaData, actual: seq<string>, filters: seq<ColumnFilter>): seq<seq<string>>
  {
    seq(|filters|, i requires 0 <= i < |filters| => NotExpected(Filtered(expected, filters[i]), actual))
  }

  /** One pass per ignored name, against the expected metadata without that column. */
  function NamePasses(expected: TableMetaData, actual: seq<string>, ignoreCols: seq<string>): seq<seq<string>>
  {
    seq(|ignoreCols|, j requires 0 <= j < |ignoreCols| =>
      NotExpected(Filtered(expected, NewColumnFilter(expected, ignoreCols[j])), actual))
  }

  /** Every pass added, in order, into one insertion-ordered set. */
  function UnionAll(acc: seq<string>, passes: seq<seq<string>>): seq<string>
    decreases |passes|
  {
    if passes == [] then acc else AddAll(UnionAll(acc, passes[..|passes| - 1]), passes[|passes| - 1])
  }

  /** The shared set stays duplicate-free and holds exactly what some pass contributed. */
  lemma {:induction false} UnionAllMembers(acc: seq<string>, passes: seq<seq<string>>)
    ensures NoDuplicates(acc) ==> NoDuplicates(UnionAll(acc, passes))
    ensures forall x :: x in UnionAll(acc, passes) <==> x in acc || exists k :: 0 <= k < |passes| && x in passes[k]
    decreases |passes|
  {
    if passes != [] {
      var init := passes[..|passes| - 1];
      UnionAllMembers(acc, init);
      AddAllProperties(UnionAll(acc, init), passes[|passes| - 1]);
      assert forall k :: 0 <= k < |init| ==> init[k] == passes[k];
    }
  }

  function Flatten(passes: seq<seq<string>>): seq<string>
    decreases |passes|
  {
    if passes == [] then [] else Flatten(passes[..|passes| - 1]) + passes[|passes| - 1]
  }

  /** The shared set ends up as the first occurrences of all passes concatenated. */
  lemma {:induction false} UnionAllIsDedupOfConcatenation(acc: seq<string>, passes: seq<seq<string>>)
    ensures UnionAll(acc, passes) == AddAll(acc, Flatten(passes))
    decreases |passes|
  {
    if passes != [] {
      var init := passes[..|passes| - 1];
      UnionAllIsDedupOfConcatenation(acc, init);
      AddAllConcat(acc, Flatten(init), passes[|passes| - 1]);
    }
  }

  /** All passes in the order getColumnsToIgnore runs them: filters first, then ignored names. */
  function Passes(expected: TableMetaData, actual: seq<string>,
                  filters: seq<ColumnFilter>, ignoreCols: seq<string>): seq<seq<string>>
  {
    FilterPasses(expected, actual, filters) + NamePasses(expected, actual, ignoreCols)
  }

  lemma FilterPassAt(expected: TableMetaData, actual: seq<string>,
                     filters: seq<ColumnFilter>, ignoreCols: seq<string>, i: nat)
    requires i < |filters|
    ensures |Passes(expected, actual, filters, ignoreCols)| == |filters| + |ignoreCols|
    ensures Passes(expected, actual, filters, ignoreCols)[i] == NotExpected(Filtered(expected, filters[i]), actual)
  {
  }

  lemma NamePassAt(expected: TableMetaData, actual: seq<string>,
                   filters: seq<ColumnFilter>, ignoreCols: seq<string>, j: nat)
    requires j < |ignoreCols|
    ensures |Passes(expected, actual, filters, ignoreCols)| == |filters| + |ignoreCols|
    ensures Passes(expected, actual, filters, ignoreCols)[|filters| + j] ==
      NotExpected(Filtered(expected, NewColumnFilter(expected, ignoreCols[j])), actual)
  {
  }

  /** The ignored set of a table comparison, as getColumnsToIgnore builds it. */
  function ColumnsToIgnore(expected: TableMetaData, actual: seq<string>,
                           filters: seq<ColumnFilter>, ignoreCols: seq<string>): seq<string>
  {
    if |filters| == 0 && |ignoreCols| == 0 then NotExpected(expected, actual)
    else UnionAll([], Passes(expected, actual, filters, ignoreCols))
  }

  lemma UnionAllStep(acc: seq<string>, passes: seq<seq<string>>, i: nat)
    requires i < |passes|
    ensures UnionAll(acc, passes[..i + 1]) == AddAll(UnionAll(acc, passes[..i]), passes[i])
  {
    assert passes[..i + 1][..i] == passes[..i];
  }

  /** The four-argument getColumnsToIgnore: a loop per filter, then a loop per ignored name. */
  method GetColumnsToIgnore(expected: TableMetaData, actual: seq<string>,
                            filters: seq<ColumnFilter>, ignoreCols: seq<string>) returns (ignored: seq<string>)
    ensures ignored == ColumnsToIgnore(expected, actual, filters, ignoreCols)
  {
    if |filters| == 0 && |ignoreCols| == 0 {
      ignored := ColumnsNotExpected(expected, actual);
      return;
    }
    ghost var passes := Passes(expected, actual, filters, ignoreCols);
    ignored := [];
    for i := 0 to |filters|
      invariant ignored == UnionAll([], passes[..i])
    {
      var pass := ColumnsNotExpected(Filtered(expected, filters[i]), actual);
      FilterPassAt(expected, actual, filters, ignoreCols, i);
      UnionAllStep([], passes, i);
      ignored := AddAll(ignored, pass);
    }
    for k := |filters| to |filters| + |ignoreCols|
      invariant ignored == UnionAll([], passes[..k])
    {
      var j := k - |filters|;
      var filter := NewColumnFilter(expected, ignoreCols[j]);
      var pass := ColumnsNotExpected(Filtered(expected, filter), actual);
      NamePassAt(expected, actual, filters, ignoreCols, j);
      UnionAllStep([], passes, k);
      ignored := AddAll(ignored, pass);
    }
    assert |passes| == |filters| + |ignoreCols|;
    assert passes[..|filters| + |ignoreCols|] == passes;
  }

  /**
   * Why a column is ignored when filters or names are given: some filtered
   * pass lacks it, or it is an ignored name (ignoring case), or the
   * expected table lacks it and at least one name pass ran.
   */
  predicate IgnoredByPasses(expected: TableMetaData, filters: seq<ColumnFilter>, ignoreCols: seq<string>, c: string)
  {
    (exists i :: 0 <= i < |filters| && !HasColumn(Filtered(expected, filters[i]), c)) ||
    (|ignoreCols| > 0 && !HasColumn(expected, c)) ||
    (exists j :: 0 <= j < |ignoreCols| && EqualsIgnoreCase(c, ignoreCols[j]))
  }

  /** Without filters or names, exactly the actual columns the expected table lacks are ignored, each once. */
  lemma ColumnsToIgnoreWithoutFilters(expected: TableMetaData, actual: seq<string>, c: string)
    ensures NoDuplicates(ColumnsToIgnore(expected, actual, [], []))
    ensures c in ColumnsToIgnore(expected, actual, [], []) <==> c in actual && !HasColumn(expected, c)
  {
    NotExpectedMembers(expected, actual);
  }

  /** With filters or names, the ignored set is duplicate-free and made of the actual columns some pass ignores. */
  lemma {:induction false} ColumnsToIgnoreWithFilters(expected: TableMetaData, actual: seq<string>,
                                                      filters: seq<ColumnFilter>, ignoreCols: seq<string>, c: string)
    requires |filters| > 0 || |ignoreCols| > 0
    ensures NoDuplicates(ColumnsToIgnore(expected, actual, filters, ignoreCols))
    ensures c in ColumnsToIgnore(expected, actual, filters, ignoreCols) <==>
      c in actual && IgnoredByPasses(expected, filters, ignoreCols, c)
  {
    var passes := Passes(expected, actual, filters, ignoreCols);
    UnionAllMembers([], passes);
    if c in ColumnsToIgnore(expected, actual, filters, ignoreCols) {
      var k :| 0 <= k < |passes| && c in passes[k];
      if k < |filters| {
        FilterPassAt(expected, actual, filters, ignoreCols, k);
        NotExpectedMembers(Filtered(expected, filters[k]), actual);
      } else {
        var j := k - |filters|;
        NamePassAt(expected, actual, filters, ignoreCols, j);
        IgnoredNamePass(expected, actual, ignoreCols[j], c);
      }
    }
    if c in actual && IgnoredByPasses(expected, filters, ignoreCols, c) {
      if i :| 0 <= i < |filters| && !HasColumn(Filtered(expected, filters[i]), c) {
        FilterPassAt(expected, actual, filters, ignoreCols, i);
        NotExpectedMembers(Filtered(expected, filters[i]), actual);
        assert c in passes[i];
      } else if j :| 0 <= j < |ignoreCols| && EqualsIgnoreCase(c, ignoreCols[j]) {
        NamePassAt(expected, actual, filters, ignoreCols, j);
        IgnoredNamePass(expected, actual, ignoreCols[j], c);
        assert c in passes[|filters| + j];
      } else {
        NamePassAt(expected, actual, filters, ignoreCols, 0);
        IgnoredNamePass(expected, actual, ignoreCols[0], c);
        assert c in passes[|filters|];
      }
    }
  }

  // ---------------------------------------------------------------------
  // assertEquals on tables and on datasets

  /** assertEquals(ITable, ITable, ...): the ignored set, then one table assertion whose outcome is given. */
  method AssertTablesEqual(expected: TableMetaData, actual: TableMetaData,
                           filters: seq<ColumnFilter>, ignoreCols: seq<string>,
                           tablesEqual: Comparison -> bool) returns (r: Result<Comparison, AssertionError>)
    ensures var comparison := Comparison(expected, actual, ColumnsToIgnore(expected, actual.columns, filters, ignoreCols));
      r == if tablesEqual(comparison) then Success(comparison) else Failure(TablesDiffer(comparison))
  {
    var ignored := GetColumnsToIgnore(expected, actual.columns, filters, ignoreCols);
    var comparison := Comparison(expected, actual, ignored);
    if tablesEqual(comparison) {
      r := Success(comparison);
    } else {
      r := Failure(TablesDiffer(comparison));
    }
  }

  /** getTableNames: the dataset's table names, in order. */
  function TableNames(ds: DataSet): seq<string>
  {
    seq(|ds.tables|, i requires 0 <= i < |ds.tables| => ds.tables[i].tableName)
  }

  function FindTable(tables: seq<TableMetaData>, tableName: string): Option<TableMetaData>
    decreases |tables|
  {
    if tables == [] then None
    else if EqualsIgnoreCase(tables[0].tableName, tableName) then Some(tables[0])
    else FindTable(tables[1..], tableName)
  }

  /**
   * getTable: the first table of that name, ignoring case; None stands for
   * NoSuchTableException.
   */
  function GetTable(ds: DataSet, tableName: string): Option<TableMetaData>
  {
    FindTable(ds.tables, tableName)
  }

  /** A table whose name matches none of the looked-up names does not change any lookup, wherever it is inserted. */
  lemma {:induction false} FindTableSkipsOtherNames(tables: seq<TableMetaData>, k: nat, extra: TableMetaData, tableName: string)
    requires k <= |tables| && !EqualsIgnoreCase(extra.tableName, tableName)
    ensures FindTable(tables[..k] + [extra] + tables[k..], tableName) == FindTable(tables, tableName)
    decreases k
  {
    var widened := tables[..k] + [extra] + tables[k..];
    if k == 0 {
      assert widened[1..] == tables;
    } else {
      assert widened[0] == tables[0];
      assert widened[1..] == tables[1..][..k - 1] + [extra] + tables[1..][k - 1..];
      FindTableSkipsOtherNames(tables[1..], k - 1, extra, tableName);
    }
  }

  /**
   * The comparisons assertEquals(IDataSet, IDataSet, ...) makes for the
   * given expected table names, in order, stopping at the first failure.
   */
  function CompareTables(expected: DataSet, actual: DataSet, filters: seq<ColumnFilter>, ignoreCols: seq<string>,
                         tablesEqual: Comparison -> bool, names: seq<string>): Result<seq<Comparison>, AssertionError>
    decreases |names|
  {
    if names == [] then Success([])
    else
      match CompareTables(expected, actual, filters, ignoreCols, tablesEqual, names[..|names| - 1])
      case Failure(e) => Failure(e)
      case Success(done) =>
        var tableName := names[|names| - 1];
        match (GetTable(expected, tableName), GetTable(actual, tableName))
        case (None, _) => Failure(NoSuchTable(tableName))
        case (_, None) => Failure(NoSuchTable(tableName))
        case (Some(e), Some(a)) =>
          var comparison := Comparison(e, a, ColumnsToIgnore(e, a.columns, filters, ignoreCols));
          if tablesEqual(comparison) then Success(done + [comparison]) else Failure(TablesDiffer(comparison))
  }

  /** Once the comparison of a prefix of the names fails, so does the comparison of all of them. */
  lemma {:induction false} FailureIsFinal(expected: DataSet, actual: DataSet, filters: seq<ColumnFilter>,
                                          ignoreCols: seq<string>, tablesEqual: Comparison -> bool,
                                          names: seq<string>, n: nat)
    requires n <= |names|
    requires CompareTables(expected, actual, filters, ignoreCols, tablesEqual, names[..n]).Failure?
    ensures CompareTables(expected, actual, filters, ignoreCols, tablesEqual, names)
         == CompareTables(expected, actual, filters, ignoreCols, tablesEqual, names[..n])
    decreases |names| - n
  {
    if n < |names| {
      assert names[..n + 1][..n] == names[..n];
      FailureIsFinal(expected, actual, filters, ignoreCols, tablesEqual, names, n + 1);
    } else {
      assert names[..n] == names;
    }
  }

  /** assertEquals(IDataSet, IDataSet, ...): one table assertion per expected table name, in order. */
  method AssertDataSetsEqual(expected: DataSet, actual: DataSet, filters: seq<ColumnFilter>, ignoreCols: seq<string>,
                             tablesEqual: Comparison -> bool) returns (r: Result<seq<Comparison>, AssertionError>)
    ensures r == CompareTables(expected, actual, filters, ignoreCols, tablesEqual, TableNames(expected))
  {
    var names := TableNames(expected);
    var done: seq<Comparison> := [];
    for i := 0 to |names|
      invariant CompareTables(expected, actual, filters, ignoreCols, tablesEqual, names[..i]) == Success(done)
    {
      var tableName := names[i];
      assert names[..i + 1][..i] == names[..i];
      var expectedTable := GetTable(expected, tableName);
      var actualTable := GetTable(actual, tableName);
      if expectedTable.None? || actualTable.None? {
        r := Failure(NoSuchTable(tableName));
        FailureIsFinal(expected, actual, filters, ignoreCols, tablesEqual, names, i + 1);
        return;
      }
      var outcome := AssertTablesEqual(expectedTable.value, actualTable.value, filters, ignoreCols, tablesEqual);
      match outcome {
        case Failure(e) =>
          r := Failure(e);
          FailureIsFinal(expected, actual, filters, ignoreCols, tablesEqual, names, i + 1);
          return;
        case Success(comparison) =>
          done := done + [comparison];
      }
    }
    assert names[..|names|] == names;
    r := Success(done);
  }

  /**
   * A successful dataset comparison made exactly one table comparison per
   * expected table name, in order, against the actual table of that name.
   */
  lemma {:induction false} ComparesExpectedTablesInOrder(expected: DataSet, actual: DataSet, filters: seq<ColumnFilter>,
                                                         ignoreCols: seq<string>, tablesEqual: Comparison -> bool,
                                                         names: seq<string>)
    requires CompareTables(expected, actual, filters, ignoreCols, tablesEqual, names).Success?
    ensures var done := CompareTables(expected, actual, filters, ignoreCols, tablesEqual, names).value;
      |done| == |names| &&
      forall i :: 0 <= i < |names| ==>
        GetTable(expected, names[i]) == Some(done[i].expected) &&
        GetTable(actual, names[i]) == Some(done[i].actual) &&
        tablesEqual(done[i])
    decreases |names|
  {
    if names != [] {
      var init := names[..|names| - 1];
      ComparesExpectedTablesInOrder(expected, actual, filters, ignoreCols, tablesEqual, init);
      assert forall i :: 0 <= i < |init| ==> init[i] == names[i];
    }
  }

  /** A table present only in the actual dataset is never looked at: adding one changes nothing. */
  lemma {:induction false} ActualOnlyTablesIgnored(expected: DataSet, actual: DataSet, filters: seq<ColumnFilter>,
                                                   ignoreCols: seq<string>, tablesEqual: Comparison -> bool,
                                                   names: seq<string>, k: nat, extra: TableMetaData)
    requires k <= |actual.tables|
    requires forall n :: n in names ==> !EqualsIgnoreCase(extra.tableName, n)
    ensures CompareTables(expected, DataSet(actual.tables[..k] + [extra] + actual.tables[k..]),
                          filters, ignoreCols, tablesEqual, names)
         == CompareTables(expected, actual, filters, ignoreCols, tablesEqual, names)
    decreases |names|
  {
    if names != [] {
      var init := names[..|names| - 1];
      ActualOnlyTablesIgnored(expected, actual, filters, ignoreCols, tablesEqual, init, k, extra);
      FindTableSkipsOtherNames(actual.tables, k, extra, names[|names| - 1]);
    }
  }

  /** An expected table that the actual dataset lacks makes the dataset comparison fail. */
  lemma {:induction false} MissingActualTableFails(expected: DataSet, actual: DataSet, filters: seq<ColumnFilter>,
                                                   ignoreCols: seq<string>, tablesEqual: Comparison -> bool,
                                                   names: seq<string>, i: nat)
    requires i < |names| && GetTable(actual, names[i]).None?
    ensures CompareTables(expected, actual, filters, ignoreCols, tablesEqual, names).Failure?
    decreases |names|
  {
    if i < |names| - 1 {
      var init := names[..|names| - 1];
      MissingActualTableFails(expected, actual, filters, ignoreCols, tablesEqual, init, i);
    }
  }
}
