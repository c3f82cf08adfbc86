/**
 * The generic type factory (DefaultDataTypeFactory): it maps a JDBC type
 * code and type name to a logical data type, with a BLOB/CLOB special case
 * for Types.OTHER kept for compatibility with old DbUnit releases.
 */
module DataTypes {
  import opened Wrappers

  // java.sql.Types codes the factories test against.
  const CHAR: int := 1
  const NUMERIC: int := 2
  const DECIMAL: int := 3
  const OTHER: int := 1111

  /** The type name NumberTolerantDataType is created with. */
  const TOLERANT_TYPE_NAME: string := "NUMERIC_WITH_TOLERATED_DELTA"

  /** Database products the generic profile declares itself valid for. */
  const DEFAULT_PRODUCTS: seq<string> := ["derby"]

  /**
   * A tolerated numeric difference. The comparison that uses it works on
   * BigDecimal values and is not part of this model, so the delta is kept
   * as the opaque decimal text it was configured with.
   */
  datatype Delta = Delta(decimal: string)

  /**
   * Tags for the logical types the factories hand out. ForSqlType(code)
   * stands for whatever DataType.forSqlType(code) returns, which is kept
   * uninterpreted: the tag records which code it was asked for.
   */
  datatype DataType =
    | Unknown
    | Blob
    | Clob
    | Char
    | Varchar
    | LongVarchar
    | Boolean
    | NVarchar
    | UniqueIdentifier
    | DateTimeOffset
    | ForSqlType(sqlType: int)
    | NumberTolerant(name: string, sqlType: int, delta: Delta)

  /** The types the generic profile can produce on its own. */
  predicate IsGenericType(t: DataType)
  {
    t.Unknown? || t.Blob? || t.Clob? || t.ForSqlType?
  }

  /** NUMERIC and DECIMAL are the only codes a tolerated delta applies to. */
  predicate IsNumeric(sqlType: int)
  {
    sqlType == NUMERIC || sqlType == DECIMAL
  }

  /**
   * DefaultDataTypeFactory.createDataType(int, String). A null type name
   * is None; String.equals on it is false, so it resolves like any other
   * unrecognised name. Resolution never fails.
   */
  function DefaultCreateDataType(sqlType: int, sqlTypeName: Option<string>): (r: DataType)
    ensures IsGenericType(r)
    ensures r.ForSqlType? <==> sqlType != OTHER
    ensures r.ForSqlType? ==> r.sqlType == sqlType
    ensures r == Blob <==> sqlType == OTHER && sqlTypeName == Some("BLOB")
    ensures r == Clob <==> sqlType == OTHER && sqlTypeName == Some("CLOB")
    ensures r == Unknown <==> sqlType == OTHER && sqlTypeName != Some("BLOB") && sqlTypeName != Some("CLOB")
  {
    if sqlType != OTHER then ForSqlType(sqlType)
    else if sqlTypeName == Some("BLOB") then Blob
    else if sqlTypeName == Some("CLOB") then Clob
    else Unknown
  }

  /** For every code but OTHER the type name plays no part. */
  lemma DefaultIgnoresNameUnlessOther(sqlType: int, n1: Option<string>, n2: Option<string>)
    requires sqlType != OTHER
    ensures DefaultCreateDataType(sqlType, n1) == DefaultCreateDataType(sqlType, n2) == ForSqlType(sqlType)
  {
  }

  /** The BLOB/CLOB names are matched case-sensitively. */
  lemma DefaultNamesAreCaseSensitive()
    ensures DefaultCreateDataType(OTHER, Some("blob")) == Unknown
    ensures DefaultCreateDataType(OTHER, Some("Clob")) == Unknown
    ensures DefaultCreateDataType(OTHER, None) == Unknown
  {
  }
}
