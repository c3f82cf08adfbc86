/**
 * Vendor dispatch. A factory object is a DefaultDataTypeFactory or one of
 * its subclasses; createDataType(int, String) is overridden per vendor and
 * delegates one level up, and the four-argument overload (defined once, in
 * the generic factory) checks the tolerated deltas first and then calls
 * this.createDataType, so the vendor mapping applies after the tolerance
 * check.
 */
module TypeFactories {
  import opened Wrappers
  import opened DataTypes
  import MsSqlTypes
  import H2Types

  datatype Vendor = Default | MsSql | H2

  /** getValidDbProducts of each profile. */
  function ValidDbProducts(vendor: Vendor): (r: seq<string>)
    ensures vendor == Default ==> r == ["derby"]
    ensures vendor == MsSql ==> r == ["mssql", "Microsoft SQL Server"]
    ensures vendor == H2 ==> r == ["h2"]
  {
    match vendor
    case Default => DEFAULT_PRODUCTS
    case MsSql => MsSqlTypes.MSSQL_PRODUCTS
    case H2 => H2Types.H2_PRODUCTS
  }

  /** Only the H2 profile dereferences the type name unconditionally. */
  predicate NameAccepted(vendor: Vendor, sqlTypeName: Option<string>)
  {
    vendor == H2 ==> sqlTypeName.Some?
  }

  /**
   * createDataType(int, String) on a factory of the given vendor. Every
   * result is either a vendor-specific type or exactly what the generic
   * profile answers: delegation goes up one level and no further.
   */
  function Resolve2(vendor: Vendor, sqlType: int, sqlTypeName: Option<string>): (r: DataType)
    requires NameAccepted(vendor, sqlTypeName)
    ensures !r.NumberTolerant?
    ensures IsGenericType(r) ==> r == DefaultCreateDataType(sqlType, sqlTypeName)
    ensures vendor == Default ==> IsGenericType(r)
  {
    match vendor
    case Default => DefaultCreateDataType(sqlType, sqlTypeName)
    case MsSql => MsSqlTypes.MsSqlCreateDataType(sqlType, sqlTypeName)
    case H2 => H2Types.H2CreateDataType(sqlType, sqlTypeName)
  }

  /** A tolerated delta applies: a numeric code and a registered delta for the column. */
  predicate ToleranceApplies(sqlType: int, tableName: string, columnName: string,
                             findToleratedDelta: (string, string) -> Option<Delta>)
  {
    IsNumeric(sqlType) && findToleratedDelta(tableName, columnName).Some?
  }

  /**
   * createDataType(int, String, String, String) on a factory of the given
   * vendor. findToleratedDelta is the factory's tolerated-delta lookup,
   * whose precedence rules are not part of this model.
   */
  function Resolve4(vendor: Vendor, sqlType: int, sqlTypeName: Option<string>,
                    tableName: string, columnName: string,
                    findToleratedDelta: (string, string) -> Option<Delta>): (r: DataType)
    requires ToleranceApplies(sqlType, tableName, columnName, findToleratedDelta) || NameAccepted(vendor, sqlTypeName)
    ensures r.NumberTolerant? <==> ToleranceApplies(sqlType, tableName, columnName, findToleratedDelta)
    ensures r.NumberTolerant? ==>
      r == NumberTolerant(TOLERANT_TYPE_NAME, sqlType, findToleratedDelta(tableName, columnName).value)
    ensures !r.NumberTolerant? ==> r == Resolve2(vendor, sqlType, sqlTypeName)
  {
    if IsNumeric(sqlType) && findToleratedDelta(tableName, columnName).Some? then
      NumberTolerant(TOLERANT_TYPE_NAME, sqlType, findToleratedDelta(tableName, columnName).value)
    else
      Resolve2(vendor, sqlType, sqlTypeName)
  }

  /** The tolerated deltas are consulted for NUMERIC and DECIMAL only. */
  lemma ToleranceOnlyForNumeric(vendor: Vendor, sqlType: int, sqlTypeName: Option<string>,
                                tableName: string, columnName: string,
                                find1: (string, string) -> Option<Delta>,
                                find2: (string, string) -> Option<Delta>)
    requires !IsNumeric(sqlType) && NameAccepted(vendor, sqlTypeName)
    ensures Resolve4(vendor, sqlType, sqlTypeName, tableName, columnName, find1)
         == Resolve4(vendor, sqlType, sqlTypeName, tableName, columnName, find2)
         == Resolve2(vendor, sqlType, sqlTypeName)
  {
  }

  /**
   * The tolerance check comes before the vendor mapping: on H2 a DECIMAL
   * column named BOOLEAN with a registered delta is tolerant, and without
   * one the H2 mapping applies.
   */
  lemma ToleranceBeforeVendorMapping(d: Delta, find: (string, string) -> Option<Delta>)
    requires find("T", "C") == Some(d)
    ensures Resolve4(H2, DECIMAL, Some("BOOLEAN"), "T", "C", find) == NumberTolerant(TOLERANT_TYPE_NAME, DECIMAL, d)
    ensures Resolve4(H2, DECIMAL, None, "T", "C", find) == NumberTolerant(TOLERANT_TYPE_NAME, DECIMAL, d)
    ensures Resolve4(H2, DECIMAL, Some("BOOLEAN"), "T", "X", (t, c) => None) == Boolean
  {
  }

  /** Only a CHAR column on the MS SQL profile can resolve to a uniqueidentifier. */
  lemma OnlyCharReachesUniqueIdentifier(vendor: Vendor, sqlType: int, sqlTypeName: Option<string>,
                                        tableName: string, columnName: string,
                                        find: (string, string) -> Option<Delta>)
    requires ToleranceApplies(sqlType, tableName, columnName, find) || NameAccepted(vendor, sqlTypeName)
    ensures Resolve4(vendor, sqlType, sqlTypeName, tableName, columnName, find) == UniqueIdentifier <==>
      vendor == MsSql && sqlType == CHAR && sqlTypeName == Some(MsSqlTypes.UNIQUE_IDENTIFIER_TYPE)
  {
  }

  /** Registered tolerated deltas: what ToleratedDeltaMap.addToleratedDelta receives. */
  datatype ToleratedDelta = ToleratedDelta(tableName: string, columnName: string, toleratedDelta: Delta)

  /** findToleratedDelta on a map holding the given deltas, for a lookup rule over the registration history. */
  function LookupOver(deltas: seq<ToleratedDelta>, find: (seq<ToleratedDelta>, string, string) -> Option<Delta>):
    (string, string) -> Option<Delta>
  {
    (t, c) => find(deltas, t, c)
  }

  /**
   * ToleratedDeltaMap, seen through the deltas registered with it, in
   * registration order. How it stores and ranks them is not part of this
   * model: any lookup is a function of this history.
   */
  class ToleratedDeltaMap {
    var registered: seq<ToleratedDelta>

    constructor ()
      ensures registered == []
    {
      registered := [];
    }

    method AddToleratedDelta(delta: ToleratedDelta)
      modifies this
      ensures registered == old(registered) + [delta]
    {
      registered := registered + [delta];
    }
  }

  /** A type factory object: its vendor and the final tolerated-delta map field. */
  class DataTypeFactory {
    const vendor: Vendor
    const toleratedDeltaMap: ToleratedDeltaMap

    constructor (vendor: Vendor)
      ensures this.vendor == vendor
      ensures fresh(toleratedDeltaMap) && toleratedDeltaMap.registered == []
    {
      this.vendor := vendor;
      toleratedDeltaMap := new ToleratedDeltaMap();
    }

    /** getToleratedDeltaMap hands out the factory's own map, not a copy. */
    function GetToleratedDeltaMap(): (m: ToleratedDeltaMap)
      ensures m == toleratedDeltaMap
    {
      toleratedDeltaMap
    }

    /** addToleratedDelta registers into that same map and changes nothing else. */
    method AddToleratedDelta(delta: ToleratedDelta)
      modifies toleratedDeltaMap
      ensures GetToleratedDeltaMap().registered == old(toleratedDeltaMap.registered) + [delta]
    {
      toleratedDeltaMap.AddToleratedDelta(delta);
    }

    /** createDataType(int, String), dispatched on the factory's vendor. */
    method CreateDataType(sqlType: int, sqlTypeName: Option<string>) returns (r: DataType)
      requires NameAccepted(vendor, sqlTypeName)
      ensures r == Resolve2(vendor, sqlType, sqlTypeName)
    {
      r := Resolve2(vendor, sqlType, sqlTypeName);
    }

    /**
     * createDataType(int, String, String, String): the lookup runs over the
     * deltas registered so far, then this.createDataType is called.
     */
    method CreateColumnDataType(sqlType: int, sqlTypeName: Option<string>, tableName: string, columnName: string,
                                find: (seq<ToleratedDelta>, string, string) -> Option<Delta>) returns (r: DataType)
      requires (IsNumeric(sqlType) && find(toleratedDeltaMap.registered, tableName, columnName).Some?)
               || NameAccepted(vendor, sqlTypeName)
      ensures r == Resolve4(vendor, sqlType, sqlTypeName, tableName, columnName,
                            LookupOver(toleratedDeltaMap.registered, find))
    {
      var deltas := toleratedDeltaMap.registered;
      var delta := if IsNumeric(sqlType) then find(deltas, tableName, columnName) else None;
      if delta.Some? {
        r := NumberTolerant(TOLERANT_TYPE_NAME, sqlType, delta.value);
      } else {
        r := CreateDataType(sqlType, sqlTypeName);
      }
    }
  }

  /**
   * The four-argument overload of a fresh factory looks up exactly the
   * deltas registered through it, whatever the lookup rule and the vendor;
   * a delta the lookup finds for a NUMERIC column makes it tolerant.
   */
  method RegisteredDeltaIsUsed(vendor: Vendor, sqlTypeName: Option<string>, t: string, c: string, d: Delta,
                               find: (seq<ToleratedDelta>, string, string) -> Option<Delta>) returns (r: DataType)
    requires find([ToleratedDelta(t, c, d)], t, c).Some? || NameAccepted(vendor, sqlTypeName)
    ensures r == Resolve4(vendor, NUMERIC, sqlTypeName, t, c, LookupOver([ToleratedDelta(t, c, d)], find))
    ensures find([ToleratedDelta(t, c, d)], t, c) == Some(d) ==> r == NumberTolerant(TOLERANT_TYPE_NAME, NUMERIC, d)
  {
    var factory := new DataTypeFactory(vendor);
    factory.AddToleratedDelta(ToleratedDelta(t, c, d));
    assert factory.toleratedDeltaMap.registered == [ToleratedDelta(t, c, d)];
    r := factory.CreateColumnDataType(NUMERIC, sqlTypeName, t, c, find);
  }
}
