/**
 * DbUnitRunner: what happens after a test method (verify the expected
 * database, tear down, fold the failures together), which expectations
 * are verified, and how datasets and operations are obtained. Annotation
 * lookup, the loaders, the connections and the database operations are
 * collaborators whose outcomes are given as inputs.
 */
module Runner {
  import opened Wrappers
  import opened JavaStrings

  /** The exception classes the runner tells apart. */
  datatype ExceptionKind =
    | RuntimeException
    | IllegalArgumentException   // a RuntimeException
    | IllegalStateException      // a RuntimeException
    | CheckedException
    | Error

  /**
   * A Throwable, identified by its class; messages are not modelled.
   * MultipleFailureException (a checked exception) carries its failures in order.
   */
  datatype Throwable =
    | Raised(kind: ExceptionKind)
    | MultipleFailure(failures: seq<Throwable>)

  /** Whether a `catch (RuntimeException ex)` clause catches it. */
  predicate IsRuntime(t: Throwable)
  {
    t.Raised? && t.kind in {RuntimeException, IllegalArgumentException, IllegalStateException}
  }

  /** The collaborator calls afterTestMethod makes, in order. */
  datatype Step = VerifyExpected | TearDown

  // ---------------------------------------------------------------------
  // afterTestMethod

  /**
   * afterTestMethod. verification is what verifyExpected throws (None: it
   * returns normally) and teardown what the teardown operations throw.
   * Success is the Throwable returned, Failure the exception that escapes.
   */
  method AfterTestMethod(testException: Option<Throwable>, verification: Option<Throwable>,
                         teardown: Option<Throwable>) returns (c: Result<Option<Throwable>, Throwable>, steps: seq<Step>)
    ensures steps == if testException.Some? then [TearDown] else [VerifyExpected, TearDown]
    ensures var pending := if testException.Some? then testException else verification;
      match teardown
      case None => c == Success(pending)
      case Some(ex) =>
        if !IsRuntime(ex) then c == Failure(ex)
        else if pending.None? then c == Success(Some(ex))
        else c == Success(Some(MultipleFailure([pending.value, ex])))
    // a pending failure is never dropped unless a non-runtime teardown exception escapes
    ensures (testException.Some? || verification.Some?) && c.Success? ==> c.value.Some?
    // nothing failing: the incoming (null) exception is what comes back
    ensures testException.None? && verification.None? && teardown.None? ==> c == Success(None)
  {
    var pending := testException;
    steps := [];
    if pending.None? {
      steps := steps + [VerifyExpected];
      if verification.Some? {
        pending := verification;
      }
    }
    steps := steps + [TearDown];
    if teardown.Some? {
      var ex := teardown.value;
      if !IsRuntime(ex) {
        c := Failure(ex);
        return;
      }
      if pending.None? {
        pending := Some(ex);
      } else {
        pending := Some(MultipleFailure([pending.value, ex]));
      }
    }
    c := Success(pending);
  }

  // ---------------------------------------------------------------------
  // @ExpectedDatabase

  /** The column filter classes named in annotations. */
  datatype FilterClass = FilterClass(className: string)

  /** The attributes of an @ExpectedDatabase annotation the runner reads. */
  datatype ExpectedDatabase = ExpectedDatabase(
    value: string,              // dataset location
    table: string,
    query: string,
    connection: string,
    overrides: bool,            // override()
    columnFilters: seq<FilterClass>,
    ignoreCols: seq<string>)

  /** Whether some method-level annotation overrides the class-level ones. */
  predicate AnyOverride(annotations: seq<ExpectedDatabase>)
  {
    exists i :: 0 <= i < |annotations| && annotations[i].overrides
  }

  /** The annotations verifyExpected visits when nothing fails. */
  function Schedule(methodAnnotations: seq<ExpectedDatabase>, classAnnotations: seq<ExpectedDatabase>): seq<ExpectedDatabase>
  {
    methodAnnotations + if AnyOverride(methodAnnotations) then [] else classAnnotations
  }

  /**
   * verifyExpected(testClass, ...): every method-level expectation in
   * order, accumulating override; then the class-level ones unless one of
   * them overrode. verifyOne is what verifying one annotation throws. The
   * first failure ends the loop; visited is every annotation verified.
   */
  method VerifyExpectedAll(methodAnnotations: seq<ExpectedDatabase>, classAnnotations: seq<ExpectedDatabase>,
                           verifyOne: ExpectedDatabase -> Option<Throwable>)
    returns (visited: seq<ExpectedDatabase>, failure: Option<Throwable>)
    ensures visited <= Schedule(methodAnnotations, classAnnotations)
    ensures forall i :: 0 <= i < |visited| - 1 ==> verifyOne(visited[i]).None?
    ensures failure.None? ==> visited == Schedule(methodAnnotations, classAnnotations) &&
                              forall a :: a in visited ==> verifyOne(a).None?
    ensures failure.Some? ==> |visited| > 0 && failure == verifyOne(visited[|visited| - 1])
  {
    visited := [];
    var overrides := false;
    for i := 0 to |methodAnnotations|
      invariant visited == methodAnnotations[..i]
      invariant forall k :: 0 <= k < i ==> verifyOne(methodAnnotations[k]).None?
      invariant overrides <==> AnyOverride(methodAnnotations[..i])
    {
      var annotation := methodAnnotations[i];
      visited := visited + [annotation];
      var outcome := verifyOne(annotation);
      if outcome.Some? {
        failure := outcome;
        return;
      }
      overrides := overrides || annotation.overrides;
      assert methodAnnotations[..i + 1] == methodAnnotations[..i] + [annotation];
    }
    assert methodAnnotations[..|methodAnnotations|] == methodAnnotations;
    if !overrides {
      for j := 0 to |classAnnotations|
        invariant visited == methodAnnotations + classAnnotations[..j]
        invariant forall k :: 0 <= k < j ==> verifyOne(classAnnotations[k]).None?
      {
        var annotation := classAnnotations[j];
        visited := visited + [annotation];
        var outcome := verifyOne(annotation);
        if outcome.Some? {
          failure := outcome;
          return;
        }
        assert classAnnotations[..j + 1] == classAnnotations[..j] + [annotation];
      }
      assert classAnnotations[..|classAnnotations|] == classAnnotations;
    }
    failure := None;
  }

  /** A method-level override hides every class-level expectation; otherwise all are checked after the method-level ones. */
  lemma OverrideHidesClassExpectations(methodAnnotations: seq<ExpectedDatabase>, classAnnotations: seq<ExpectedDatabase>,
                                       a: ExpectedDatabase)
    ensures Schedule(methodAnnotations, classAnnotations)[..|methodAnnotations|] == methodAnnotations
    ensures AnyOverride(methodAnnotations) ==> Schedule(methodAnnotations, classAnnotations) == methodAnnotations
    ensures !AnyOverride(methodAnnotations) ==>
      Schedule(methodAnnotations, classAnnotations) == methodAnnotations + classAnnotations
  {
  }

  /**
   * What DataSetLoader.loadDataSet followed by the dataset modifier yields
   * for a location: a dataset, null (None), or an exception thrown by
   * either of them.
   */
  type Loader<D> = string -> Result<Option<D>, Throwable>

  /**
   * loadResourceDataset: an empty location gives no dataset (null); any
   * other is loaded and modified, an exception of the loader or modifier
   * propagates, and a null result fails Assert.notNull with an
   * IllegalArgumentException.
   */
  function LoadResourceDataSet<D>(location: string, load: Loader<D>): (r: Result<Option<D>, Throwable>)
    ensures |location| == 0 ==> r == Success(None)
    ensures |location| > 0 && load(location).Failure? ==> r == Failure(load(location).error)
    ensures |location| > 0 && load(location) == Success(None) ==> r == Failure(Raised(IllegalArgumentException))
    ensures r.Success? <==> |location| == 0 || (load(location).Success? && load(location).value.Some?)
    ensures r.Success? && |location| > 0 ==> r == load(location)
  {
    if HasLength(Some(location)) then
      match load(location)
      case Failure(e) => Failure(e)
      case Success(None) => Failure(Raised(IllegalArgumentException))
      case Success(Some(dataSet)) => Success(Some(dataSet))
    else Success(None)
  }

  /** Where the actual table of a single-table expectation comes from. */
  datatype ActualTable = ViaQuery(tableName: string, query: string) | WholeTable(tableName: string)

  /**
   * The assertion one expectation makes, if any; the expected dataset is of
   * type D. filterClasses are the column filter classes instantiated for
   * it, whose order the HashSet of mergeDistinct leaves open.
   */
  datatype PlannedAssertion<D> =
    | NoAssertion
    | CompareTable(expectedDataSet: D, actualTable: ActualTable, filterClasses: set<FilterClass>,
                   ignoredColumns: seq<string>)
    | CompareDataSet(expectedDataSet: D, filterClasses: set<FilterClass>, ignoredColumns: seq<string>)

  /**
   * verifyExpected for one annotation: load the expected dataset, look up
   * the connection (connection is what that lookup throws), then compare a
   * single table when a table name is given, or the whole dataset, with the
   * column filters of the @DbUnitConfiguration annotations
   * (configurationFilters) merged with the expectation's own.
   */
  function VerifyExpectedOne<D>(annotation: ExpectedDatabase, configurationFilters: seq<FilterClass>, load: Loader<D>,
                                connection: Option<Throwable>): (r: Result<PlannedAssertion<D>, Throwable>)
    ensures LoadResourceDataSet(annotation.value, load).Failure? ==> r == Failure(LoadResourceDataSet(annotation.value, load).error)
    ensures LoadResourceDataSet(annotation.value, load).Success? && connection.Some? ==> r == Failure(connection.value)
    ensures r.Success? <==> LoadResourceDataSet(annotation.value, load).Success? && connection.None?
    ensures r.Success? ==> (r.value.NoAssertion? <==> |annotation.value| == 0)
    ensures r.Success? && |annotation.value| > 0 ==>
      (r.value.CompareTable? <==> |annotation.table| > 0) &&
      r.value.expectedDataSet == load(annotation.value).value.value &&
      r.value.ignoredColumns == annotation.ignoreCols &&
      forall f :: f in r.value.filterClasses <==> f in configurationFilters || f in annotation.columnFilters
    ensures r.Success? && r.value.CompareTable? ==>
      r.value.actualTable == if |annotation.query| > 0 then ViaQuery(annotation.table, annotation.query)
                             else WholeTable(annotation.table)
  {
    match LoadResourceDataSet(annotation.value, load)
    case Failure(e) => Failure(e)
    case Success(expectedDataSet) =>
      if connection.Some? then Failure(connection.value)
      else if expectedDataSet.None? then Success(NoAssertion)
      else
        var filterClasses := (set f | f in configurationFilters) + (set f | f in annotation.columnFilters);
        if HasLength(Some(annotation.table)) then
          var actual := if HasLength(Some(annotation.query)) then ViaQuery(annotation.table, annotation.query)
                        else WholeTable(annotation.table);
          Success(CompareTable(expectedDataSet.value, actual, filterClasses, annotation.ignoreCols))
        else Success(CompareDataSet(expectedDataSet.value, filterClasses, annotation.ignoreCols))
  }

  /** An empty location makes no assertion even if the loader would fail; the connection is still looked up. */
  lemma EmptyLocationNeverLoads<D>(annotation: ExpectedDatabase, configurationFilters: seq<FilterClass>,
                                  load: Loader<D>, connection: Option<Throwable>)
    requires |annotation.value| == 0
    ensures VerifyExpectedOne(annotation, configurationFilters, load, connection) ==
      if connection.Some? then Failure(connection.value) else Success(NoAssertion)
  {
  }

  // ---------------------------------------------------------------------
  // Datasets for setup and teardown

  /** The dataset a setup or teardown operation runs on. */
  datatype OperationDataSet<D> = ConnectionDataSet | Composite(parts: seq<Option<D>>)

  /**
   * loadDataSet: no locations means the connection's whole dataset;
   * otherwise one dataset per location, in order, filled into an array and
   * combined. An empty location leaves a null part.
   */
  method LoadDataSet<D>(locations: seq<string>, load: Loader<D>) returns (r: Result<OperationDataSet<D>, Throwable>)
    ensures |locations| == 0 ==> r == Success(ConnectionDataSet)
    ensures |locations| > 0 ==>
      (r.Success? <==> forall i :: 0 <= i < |locations| ==> LoadResourceDataSet(locations[i], load).Success?)
    ensures |locations| > 0 && r.Success? ==>
      r.value.Composite? && |r.value.parts| == |locations| &&
      forall i :: 0 <= i < |locations| ==> r.value.parts[i] == LoadResourceDataSet(locations[i], load).value
    ensures r.Failure? ==>
      exists i :: 0 <= i < |locations| && LoadResourceDataSet(locations[i], load) == Failure(r.error) &&
        forall k :: 0 <= k < i ==> LoadResourceDataSet(locations[k], load).Success?
  {
    if |locations| == 0 {
      return Success(ConnectionDataSet);
    }
    var datasets := new Option<D>[|locations|];
    for i := 0 to |locations|
      invariant forall k :: 0 <= k < i ==> LoadResourceDataSet(locations[k], load).Success? &&
                                            datasets[k] == LoadResourceDataSet(locations[k], load).value
    {
      var loaded := LoadResourceDataSet(locations[i], load);
      if loaded.Failure? {
        return Failure(loaded.error);
      }
      datasets[i] := loaded.value;
    }
    r := Success(Composite(datasets[..]));
  }

  /**
   * mergeDistinct: the filter classes of both lists, each once, in no
   * particular order (they pass through a HashSet).
   */
  method MergeDistinct<T(==)>(first: seq<T>, second: seq<T>) returns (r: seq<T>)
    ensures forall i, j :: 0 <= i < j < |r| ==> r[i] != r[j]
    ensures forall x :: x in r <==> x in first || x in second
  {
    var result: set<T> := {};
    for i := 0 to |first|
      invariant result == set k | 0 <= k < i :: first[k]
    {
      result := result + {first[i]};
    }
    for j := 0 to |second|
      invariant result == (set k | 0 <= k < |first| :: first[k]) + (set k | 0 <= k < j :: second[k])
    {
      result := result + {second[j]};
    }
    // toArray: the elements in whatever order the set yields them
    r := [];
    var rest := result;
    while rest != {}
      invariant rest <= result
      invariant forall x :: x in r <==> x in result && x !in rest
      invariant forall i, j :: 0 <= i < j < |r| ==> r[i] != r[j]
      decreases |rest|
    {
      var x :| x in rest;
      r := r + [x];
      rest := rest - {x};
    }
  }

  /** getDbUnitDatabaseOperation: the operation the lookup has for it, or Assert.state's IllegalStateException. */
  function GetDbUnitDatabaseOperation<Op, DbOp>(lookup: Op -> Option<DbOp>, operation: Op): (r: Result<DbOp, Throwable>)
    ensures r.Success? <==> lookup(operation).Some?
    ensures r.Success? ==> r.value == lookup(operation).value
    ensures r.Failure? ==> r.error == Raised(IllegalStateException)
  {
    match lookup(operation)
    case Some(databaseOperation) => Success(databaseOperation)
    case None => Failure(Raised(IllegalStateException))
  }
}
