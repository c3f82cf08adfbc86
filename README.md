# DbUnit type factories, non-strict assertion and Spring test runner, in Dafny

This project models three pieces of DbUnit and its Spring test integration:

- **Data type factories.** These map a JDBC type code and type name to a logical data type.
  - `DefaultDataTypeFactory` is the generic profile.
  - `MsSqlDataTypeFactory` and `H2DataTypeFactory` are the vendor profiles.
  - The four-argument overload returns a number-tolerant type when a tolerated delta is registered for a NUMERIC or DECIMAL column.
  - The factory owns its tolerated-delta map.
- **Non-strict database assertion** (`NonStrictDatabaseAssertion`). Before two tables are compared, every actual column that the expected table does not declare is ignored. Column filters and ignored column names each add a pass against filtered expected metadata. A dataset comparison walks the expected dataset's tables in order.
- **Spring runner decision rules.**
  - `DatabaseConnections` resolves a connection name against a default.
  - `DbUnitRunner` does four things:
    - it folds verification and teardown failures together after a test;
    - it applies the method-versus-class `override` rule for expectations;
    - it picks a single-table or whole-dataset comparison;
    - it builds setup/teardown datasets, merges the filter classes and looks up database operations.

Collaborators are inputs to the model:
- the dataset loader;
- the connection lookup;
- what verification and teardown throw;
- the database-operation lookup;
- the table assertion `Assertion.assertEqualsIgnoreCols`.

Java `null` is `None` of an `Option`. A thrown exception is the `Failure` of a `Result`. For `afterTestMethod`, `Success` carries the Throwable it returns and `Failure` the exception that escapes.

The modules are:
- `Wrappers`: Option and Result.
- `JavaStrings`: `equalsIgnoreCase` and `StringUtils.hasLength`.
- `DataTypes`: the generic profile.
- `MsSqlTypes` and `H2Types`: the vendor profiles.
- `TypeFactories`: vendor dispatch, tolerance, and the factory and delta-map classes.
- `NonStrictAssertion`: the non-strict assertion.
- `Connections`: the connection holder.
- `Runner`: the runner's rules.

Constant values that these files use but do not define are taken from their defining classes:
- `Types.CHAR` = 1, `NUMERIC` = 2, `DECIMAL` = 3 and `OTHER` = 1111, from `java.sql.Types`;
- `DateTimeOffsetType.TYPE` = -155;
- `UniqueIdentifierType.UNIQUE_IDENTIFIER_TYPE` = `"uniqueidentifier"`.

## Model

| member | source | states |
|---|---|---|
| JavaStrings.EqualsIgnoreCaseIsEquivalence | dbunit-spring/src/main/java/com/github/springtestdbunit/assertion/NonStrictDatabaseAssertion.java:84-85 | Matching names while ignoring case is reflexive, symmetric and transitive, and it only matches names of equal length. |
| DataTypes.DefaultCreateDataType | dbunit-core/src/main/java/org/dbunit/dataset/datatype/DefaultDataTypeFactory.java:64-85 | Every code except OTHER gives `forSqlType` of that code. OTHER gives BLOB exactly when the name is "BLOB", CLOB exactly when it is "CLOB", and UNKNOWN otherwise, including for a null name. It never fails. |
| DataTypes.DefaultIgnoresNameUnlessOther | dbunit-core/src/main/java/org/dbunit/dataset/datatype/DefaultDataTypeFactory.java:70-71 | For a code other than OTHER, the type name has no effect. |
| DataTypes.DefaultNamesAreCaseSensitive | dbunit-core/src/main/java/org/dbunit/dataset/datatype/DefaultDataTypeFactory.java:75-82 | "blob", "Clob" and a null name with OTHER give UNKNOWN. The names are compared with `equals`, not ignoring case. |
| MsSqlTypes.MsSqlCreateDataType | dbunit-core/src/main/java/org/dbunit/ext/mssql/MsSqlDataTypeFactory.java:67-92 | CHAR with the name "uniqueidentifier" gives a uniqueidentifier type. Otherwise NCHAR, NVARCHAR, NTEXT, NTEXT_MSSQL_2005 and -155 map through the code table, and everything else is the generic answer. Uniqueidentifier comes out iff the code is CHAR and the name matches. Datetimeoffset comes out iff the code is -155. |
| MsSqlTypes.NationalCodesIgnoreName | dbunit-core/src/main/java/org/dbunit/ext/mssql/MsSqlDataTypeFactory.java:78-88 | The five vendor codes map to CHAR, VARCHAR, LONGVARCHAR, LONGVARCHAR and datetimeoffset, whatever the type name. |
| MsSqlTypes.CharWithOtherNameDelegates | dbunit-core/src/main/java/org/dbunit/ext/mssql/MsSqlDataTypeFactory.java:72-90 | CHAR with any other name falls through the switch to the generic profile, which gives `forSqlType(CHAR)`. |
| H2Types.H2CreateDataType | dbunit-core/src/main/java/org/dbunit/ext/h2/H2DataTypeFactory.java:59-71 | The name is dereferenced, so it must be non-null. BOOLEAN iff the name is "BOOLEAN", NVARCHAR iff it is "UUID", and otherwise the generic answer. |
| H2Types.NameTakesPrecedenceOverCode | dbunit-core/src/main/java/org/dbunit/ext/h2/H2DataTypeFactory.java:64-70 | The name checks win over any code. With OTHER, BOOLEAN differs from the generic answer. |
| TypeFactories.ValidDbProducts | dbunit-core/src/main/java/org/dbunit/dataset/datatype/DefaultDataTypeFactory.java:49-57 | The product lists are ["derby"] for the generic profile, ["mssql", "Microsoft SQL Server"] for MS SQL (dbunit-core/src/main/java/org/dbunit/ext/mssql/MsSqlDataTypeFactory.java lines 49 and 62-64), and ["h2"] for H2 (dbunit-core/src/main/java/org/dbunit/ext/h2/H2DataTypeFactory.java lines 48 and 54-56). |
| TypeFactories.Resolve2 | dbunit-core/src/main/java/org/dbunit/dataset/datatype/DefaultDataTypeFactory.java:64-85 | The `this.createDataType` dispatch (dbunit-core/src/main/java/org/dbunit/dataset/datatype/DefaultDataTypeFactory.java line 114) to the generic profile or to the overrides in dbunit-core/src/main/java/org/dbunit/ext/mssql/MsSqlDataTypeFactory.java lines 67-92 and dbunit-core/src/main/java/org/dbunit/ext/h2/H2DataTypeFactory.java lines 59-71. It never gives a tolerant type. Any generic-kind result is exactly the generic profile's answer, so each override delegates one level up. The generic vendor gives only generic kinds. The factory's two-argument `CreateDataType` is this dispatch for its own vendor. |
| TypeFactories.Resolve4 | dbunit-core/src/main/java/org/dbunit/dataset/datatype/DefaultDataTypeFactory.java:92-115 | The result is number-tolerant iff the code is NUMERIC or DECIMAL and a delta is found for the table and column. It then carries the name "NUMERIC_WITH_TOLERATED_DELTA", the code and that delta. Otherwise it is exactly the vendor's two-argument answer. |
| TypeFactories.ToleranceOnlyForNumeric | dbunit-core/src/main/java/org/dbunit/dataset/datatype/DefaultDataTypeFactory.java:99-114 | For a non-numeric code, the delta lookup has no effect, and the result is the two-argument answer. |
| TypeFactories.ToleranceBeforeVendorMapping | dbunit-core/src/main/java/org/dbunit/dataset/datatype/DefaultDataTypeFactory.java:99-114 | The tolerance check comes before the vendor override. For H2, a DECIMAL column named BOOLEAN with a delta is tolerant, even with a null name. Without a delta it is BOOLEAN. |
| TypeFactories.OnlyCharReachesUniqueIdentifier | dbunit-core/src/main/java/org/dbunit/ext/mssql/MsSqlDataTypeFactory.java:72-76 | Across all vendors and the tolerance path, a uniqueidentifier comes out iff the vendor is MS SQL, the code is CHAR and the name is "uniqueidentifier". |
| TypeFactories.ToleratedDeltaMap.constructor | dbunit-core/src/main/java/org/dbunit/dataset/datatype/DefaultDataTypeFactory.java:40 | A new map holds no registered deltas. |
| TypeFactories.ToleratedDeltaMap.AddToleratedDelta | dbunit-core/src/main/java/org/dbunit/dataset/datatype/DefaultDataTypeFactory.java:132-134 | Registering appends the delta to the registration history. |
| TypeFactories.DataTypeFactory.constructor | dbunit-core/src/main/java/org/dbunit/dataset/datatype/DefaultDataTypeFactory.java:40 | Each factory gets its own fresh, empty delta map in a final field. |
| TypeFactories.DataTypeFactory.AddToleratedDelta | dbunit-core/src/main/java/org/dbunit/dataset/datatype/DefaultDataTypeFactory.java:132-134 | The delta is registered in the factory's own map, the object `getToleratedDeltaMap` returns (lines 121-123) and not a copy. Only that map changes. |
| TypeFactories.DataTypeFactory.CreateColumnDataType | dbunit-core/src/main/java/org/dbunit/dataset/datatype/DefaultDataTypeFactory.java:92-115 | The four-argument overload looks up the deltas registered so far, then calls the two-argument overload for the factory's vendor. Its result equals `Resolve4` over a lookup of exactly that registration history. |
| TypeFactories.RegisteredDeltaIsUsed | dbunit-core/src/main/java/org/dbunit/dataset/datatype/DefaultDataTypeFactory.java:99-115 | Take a fresh factory of any vendor, register one delta for any table and column, and call the four-argument overload on a NUMERIC column. The result is `Resolve4` over a lookup that sees exactly that one registered delta, for any lookup rule and any type name. When the lookup finds the delta, the result is the tolerant type carrying it. |
| NonStrictAssertion.GetColumnIndex | dbunit-spring/src/main/java/com/github/springtestdbunit/assertion/NonStrictDatabaseAssertion.java:110 | Column lookup ignoring case. A found index names a matching column. "No such column" happens iff no column matches. |
| NonStrictAssertion.TableHasColumn | dbunit-spring/src/main/java/com/github/springtestdbunit/assertion/NonStrictDatabaseAssertion.java:107-116 | The flag is true iff `getColumnIndex` does not raise, iff some column name matches ignoring case. |
| NonStrictAssertion.AddAllProperties | dbunit-spring/src/main/java/com/github/springtestdbunit/assertion/NonStrictDatabaseAssertion.java:68-77 | `LinkedHashSet.addAll` keeps the set duplicate-free, adds exactly the given elements, and keeps existing elements in their places. |
| NonStrictAssertion.AddAllConcat | dbunit-spring/src/main/java/com/github/springtestdbunit/assertion/NonStrictDatabaseAssertion.java:68-77 | Two successive `addAll` calls equal one `addAll` of the concatenation. |
| NonStrictAssertion.NotExpectedMembers | dbunit-spring/src/main/java/com/github/springtestdbunit/assertion/NonStrictDatabaseAssertion.java:91-105 | A pass holds each actual column that the expected metadata lacks (ignoring case), once each, and nothing else. |
| NonStrictAssertion.ColumnsNotExpected | dbunit-spring/src/main/java/com/github/springtestdbunit/assertion/NonStrictDatabaseAssertion.java:91-105 | The loop over the actual columns computes exactly that pass. |
| NonStrictAssertion.NotExpectedKeepsActualOrder | dbunit-spring/src/main/java/com/github/springtestdbunit/assertion/NonStrictDatabaseAssertion.java:95-102 | The pass lists its columns in the order they first occur in the actual table. |
| NonStrictAssertion.FilteredColumns | dbunit-spring/src/main/java/com/github/springtestdbunit/assertion/NonStrictDatabaseAssertion.java:70 | Filtered metadata keeps the table name and exactly the columns that the filter accepts. |
| NonStrictAssertion.NewColumnFilterRejects | dbunit-spring/src/main/java/com/github/springtestdbunit/assertion/NonStrictDatabaseAssertion.java:80-89 | On the expected table, the name filter rejects exactly the columns equal to the name, ignoring case. On any other table it accepts every column. |
| NonStrictAssertion.IgnoredNamePass | dbunit-spring/src/main/java/com/github/springtestdbunit/assertion/NonStrictDatabaseAssertion.java:73-75 | An ignored name's pass ignores exactly two kinds of actual column: those the expected table lacks, and those equal to the ignored name, ignoring case. |
| NonStrictAssertion.UnionAllMembers | dbunit-spring/src/main/java/com/github/springtestdbunit/assertion/NonStrictDatabaseAssertion.java:68-77 | The shared ignored set stays duplicate-free and holds exactly the columns that some pass produced. |
| NonStrictAssertion.UnionAllIsDedupOfConcatenation | dbunit-spring/src/main/java/com/github/springtestdbunit/assertion/NonStrictDatabaseAssertion.java:68-77 | The shared set equals the first occurrences of all passes concatenated in run order. |
| NonStrictAssertion.FilterPassAt | dbunit-spring/src/main/java/com/github/springtestdbunit/assertion/NonStrictDatabaseAssertion.java:69-72 | Pass i is the filter-i pass, and there is one pass per filter and per name. |
| NonStrictAssertion.NamePassAt | dbunit-spring/src/main/java/com/github/springtestdbunit/assertion/NonStrictDatabaseAssertion.java:73-76 | The pass after all filter passes, at position j, is the pass for ignored name j. |
| NonStrictAssertion.GetColumnsToIgnore | dbunit-spring/src/main/java/com/github/springtestdbunit/assertion/NonStrictDatabaseAssertion.java:63-78 | With no filters and no names, it is the plain pass. Otherwise it runs the filter passes, then the name passes, into one insertion-ordered set. |
| NonStrictAssertion.ColumnsToIgnoreWithoutFilters | dbunit-spring/src/main/java/com/github/springtestdbunit/assertion/NonStrictDatabaseAssertion.java:65-67 | With no filters or names, exactly the actual columns the expected table lacks are ignored, once each. |
| NonStrictAssertion.ColumnsToIgnoreWithFilters | dbunit-spring/src/main/java/com/github/springtestdbunit/assertion/NonStrictDatabaseAssertion.java:63-78 | With filters or names, a column is ignored iff it is an actual column and one of three holds: some filtered expected metadata lacks it; it equals an ignored name; or a name was given and the expected table lacks it. No column is ignored twice. |
| NonStrictAssertion.AssertTablesEqual | dbunit-spring/src/main/java/com/github/springtestdbunit/assertion/NonStrictDatabaseAssertion.java:55-61 | The table assertion is made with exactly the computed ignored set. It fails iff that assertion fails. |
| NonStrictAssertion.FindTableSkipsOtherNames | dbunit-spring/src/main/java/com/github/springtestdbunit/assertion/NonStrictDatabaseAssertion.java:49 | Inserting a table whose name matches no looked-up name (ignoring case), at any position, leaves the table lookup unchanged. |
| NonStrictAssertion.FailureIsFinal | dbunit-spring/src/main/java/com/github/springtestdbunit/assertion/NonStrictDatabaseAssertion.java:47-51 | Once the comparison of a prefix of the expected names fails, the whole dataset comparison fails with that error. |
| NonStrictAssertion.AssertDataSetsEqual | dbunit-spring/src/main/java/com/github/springtestdbunit/assertion/NonStrictDatabaseAssertion.java:45-52 | The loop over the expected table names equals the reference comparison. It stops at the first missing table or failing table. |
| NonStrictAssertion.ComparesExpectedTablesInOrder | dbunit-spring/src/main/java/com/github/springtestdbunit/assertion/NonStrictDatabaseAssertion.java:47-51 | A successful dataset comparison makes exactly one passing table comparison per expected name, in order, between the tables of that name. |
| NonStrictAssertion.ActualOnlyTablesIgnored | dbunit-spring/src/main/java/com/github/springtestdbunit/assertion/NonStrictDatabaseAssertion.java:47-51 | Adding an actual-only table anywhere does not change the dataset comparison. |
| NonStrictAssertion.MissingActualTableFails | dbunit-spring/src/main/java/com/github/springtestdbunit/assertion/NonStrictDatabaseAssertion.java:49-50 | An expected table the actual dataset lacks makes the dataset comparison fail. |
| Connections.DetermineConnectionName | dbunit-spring/src/main/java/com/github/springtestdbunit/DatabaseConnections.java:50-60 | A non-empty name is returned unchanged. A null or empty name gives the default. It raises IllegalArgumentException iff there is no name and no default. |
| Connections.Get | dbunit-spring/src/main/java/com/github/springtestdbunit/DatabaseConnections.java:62-69 | It propagates the IllegalArgumentException. Otherwise it returns the connection under the resolved name, or raises IllegalStateException naming the resolved name when that entry is absent or null. |
| Connections.ResolutionIsIdempotent | dbunit-spring/src/main/java/com/github/springtestdbunit/DatabaseConnections.java:50-60 | Resolving a resolved name again gives the same name. |
| Connections.EmptyNameMeansDefault | dbunit-spring/src/main/java/com/github/springtestdbunit/DatabaseConnections.java:50-69 | Asking with null and asking with "" both get the default connection. |
| Runner.AfterTestMethod | dbunit-spring/src/main/java/com/github/springtestdbunit/DbUnitRunner.java:63-93 | With a test exception, verification is skipped; teardown always runs after it. The pending failure is the test exception, else whatever verification threw. A runtime teardown exception is returned as is when nothing is pending, otherwise as MultipleFailureException([pending, teardown]) in that order. Non-runtime teardown exceptions escape. With no failures at all, null is returned, and a pending failure is never lost on a normal return. |
| Runner.VerifyExpectedAll | dbunit-spring/src/main/java/com/github/springtestdbunit/DbUnitRunner.java:95-110 | Method-level expectations are verified in order. Class-level ones are verified only when no method-level annotation overrides. The visited annotations are a prefix of that schedule that stops at the first failure, and all of the schedule when nothing fails. |
| Runner.OverrideHidesClassExpectations | dbunit-spring/src/main/java/com/github/springtestdbunit/DbUnitRunner.java:100-109 | The schedule starts with the method-level annotations. With an override it is exactly those. Otherwise the class-level ones follow. |
| Runner.LoadResourceDataSet | dbunit-spring/src/main/java/com/github/springtestdbunit/DbUnitRunner.java:191-201 | An empty location gives no dataset, and the loader is not called. Otherwise, an exception from the loader or the modifier propagates. A null result raises IllegalArgumentException (`Assert.notNull`). The call succeeds iff the location is empty or a dataset was loaded, and it then returns exactly that dataset. |
| Runner.VerifyExpectedOne | dbunit-spring/src/main/java/com/github/springtestdbunit/DbUnitRunner.java:112-139 | The steps run in order: load the dataset, then look up the connection. Either can fail, and a loading failure comes first. The call succeeds iff both succeed. An empty location then makes no assertion. With a table name, a single table is compared, via the query when one is given. Otherwise the whole dataset is compared. Both comparisons use the loaded dataset and the annotation's ignored columns. Their filter classes are exactly the union of the @DbUnitConfiguration filters and the annotation's own, the elements that `MergeDistinct` returns (lines 212-215). |
| Runner.EmptyLocationNeverLoads | dbunit-spring/src/main/java/com/github/springtestdbunit/DbUnitRunner.java:117-119 | With an empty location the loader's outcome plays no part. Only the connection lookup can still fail. |
| Runner.LoadDataSet | dbunit-spring/src/main/java/com/github/springtestdbunit/DbUnitRunner.java:179-189 | Zero locations give the connection's whole dataset. Otherwise the result is a composite of one dataset per location, in order. It fails iff some location fails, whether through a loader exception or a null load. It then fails with the first failing location's error. |
| Runner.MergeDistinct | dbunit-spring/src/main/java/com/github/springtestdbunit/DbUnitRunner.java:251-256 | The result holds no duplicates and contains exactly the elements of either input. These are the filter classes that `Runner.VerifyExpectedOne` hands to the comparison. |
| Runner.GetDbUnitDatabaseOperation | dbunit-spring/src/main/java/com/github/springtestdbunit/DbUnitRunner.java:258-263 | It returns the looked-up operation. A missing operation raises IllegalStateException (`Assert.state`). |

## Left out

- Logging is not modelled, in every file.
- `DataType.forSqlType` is an uninterpreted tag `ForSqlType(code)`. The other `DataType` constructors are tags too, one for each `DataType` constant or type object a branch returns. They name the branch that answered, not a distinct Java object.
- DataTypes.DefaultCreateDataType: the iff clauses for Blob, Clob and Unknown hold of tags only. `forSqlType(c)` may return the same object as a named constant; DbUnit gives UNKNOWN for an unknown code. So the program can return UNKNOWN for a code other than OTHER, which the tag `ForSqlType(c)` leaves apart from `Unknown`. The same holds for the MS SQL profile's delegation.
- H2Types.H2CreateDataType: the iff clauses for Boolean and NVarchar hold of tags only. A name other than "BOOLEAN" or "UUID" is delegated to `forSqlType(sqlType)`, which can itself be `DataType.BOOLEAN` (for example, for the JDBC BOOLEAN code 16) or NVARCHAR. The model states which branch answered, not that the object differs.
- Object identity is not modelled. The MS SQL factory creates a new uniqueidentifier type on each call but shares one datetimeoffset instance. The model represents both as values.
- `ToleratedDeltaMap.findToleratedDelta` is not part of this model. The lookup is a function parameter over the registration history. Wildcard table names, case-insensitive matching and the rejection of a negative delta belong to `ToleratedDeltaMap`, which is not modelled, so the model does not state them.
- Delta values are opaque. The BigDecimal comparison that uses the delta is not part of this model.
- `DataTypeException` is declared by `createDataType`, but no modelled branch raises it.
- `EqualsIgnoreCase` folds ASCII letters only. Java's full Unicode case mapping is not modelled.
- `FilteredTableMetaData`, `ITableMetaData.getColumnIndex` and `IDataSet.getTable` are not among the modelled files. The model gives them these rules:
  - a column is kept when the filter accepts it, in order;
  - column lookup ignores case;
  - the first table whose name matches ignoring case is returned.
- The cell-by-cell table comparison (`Assertion.assertEqualsIgnoreCols`) is not modelled. It is an input predicate on the comparison it receives.
- `DbUnitRunner.beforeTestMethod`, `setupOrTeardown` and `executeOperation` are left out. They only sequence the modelled steps (connection, `GetDbUnitDatabaseOperation`, `LoadDataSet`) with annotation lookup and a JDBC call. The teardown's outcome is the `teardown` input of `Runner.AfterTestMethod`.
- Annotation lookup, `getModifier` and reflective filter instantiation (`getColumnFilters`) are not modelled. They use reflection, so the errors that instantiation can raise are not modelled either. The dataset modifier is folded into the loader parameter.
- Runner.VerifyExpectedOne: the selected assertion mode is not recorded. Errors from `getTable`, from the JDBC table loads and from the comparison itself are not modelled. They are what `verifyOne` returns in `Runner.VerifyExpectedAll`.
- Runner.LoadDataSet: `databaseConnection.createDataSet()` and `new CompositeDataSet(datasets)` are taken to succeed. An empty location among others leaves a null part, which the model passes on to the composite unchanged. Whether the composite accepts a null part is not modelled.
- Runner.MergeDistinct: the order of the result is left unspecified, because the source passes the elements through a HashSet.
- `DatabaseConnections.closeAll` is I/O and is left out. The constructor and `getConnectionByName` only store and return fields; the holder is the `DatabaseConnections` value itself.
- Exception messages are not modelled. A Throwable is identified only by its class, or by the failures a MultipleFailureException carries.
- `DataTypeFactory.GetToleratedDeltaMap` and `DataTypeFactory.CreateDataType` only forward. The first returns the map field; the second runs the vendor dispatch `Resolve2`.
