/**
 * The MS SQL Server profile (MsSqlDataTypeFactory): national-character
 * codes, the uniqueidentifier spelling of CHAR and the datetimeoffset code
 * are mapped here; every other input goes to the generic profile.
 */
module MsSqlTypes {
  import opened Wrappers
  import opened DataTypes

  // Vendor type codes of the national-character types.
  const NCHAR: int := -8
  const NVARCHAR: int := -9
  const NTEXT: int := -10
  const NTEXT_MSSQL_2005: int := -16

  /** DateTimeOffsetType.TYPE, the driver's code for datetimeoffset. */
  const DATE_TIME_OFFSET: int := -155

  /** UniqueIdentifierType.UNIQUE_IDENTIFIER_TYPE, the CHAR type name of a GUID column. */
  const UNIQUE_IDENTIFIER_TYPE: string := "uniqueidentifier"

  const MSSQL_PRODUCTS: seq<string> := ["mssql", "Microsoft SQL Server"]

  /** The codes the vendor switch maps, as a table. */
  const CODE_TABLE: map<int, DataType> := map[
    NCHAR := Char,
    NVARCHAR := Varchar,
    NTEXT := LongVarchar,
    NTEXT_MSSQL_2005 := LongVarchar,
    DATE_TIME_OFFSET := DateTimeOffset]

  /**
   * MsSqlDataTypeFactory.createDataType(int, String): the uniqueidentifier
   * test, then the switch, then one delegation to the generic profile.
   * Its contract states the same mapping through CODE_TABLE.
   */
  function MsSqlCreateDataType(sqlType: int, sqlTypeName: Option<string>): (r: DataType)
    ensures sqlType == CHAR && sqlTypeName == Some(UNIQUE_IDENTIFIER_TYPE) ==> r == UniqueIdentifier
    ensures !(sqlType == CHAR && sqlTypeName == Some(UNIQUE_IDENTIFIER_TYPE)) ==>
      r == if sqlType in CODE_TABLE then CODE_TABLE[sqlType] else DefaultCreateDataType(sqlType, sqlTypeName)
    ensures r == UniqueIdentifier <==> sqlType == CHAR && sqlTypeName == Some(UNIQUE_IDENTIFIER_TYPE)
    ensures r == DateTimeOffset <==> sqlType == DATE_TIME_OFFSET
  {
    if sqlType == CHAR && sqlTypeName == Some(UNIQUE_IDENTIFIER_TYPE) then UniqueIdentifier
    else if sqlType == NCHAR then Char
    else if sqlType == NVARCHAR then Varchar
    else if sqlType == NTEXT then LongVarchar
    else if sqlType == NTEXT_MSSQL_2005 then LongVarchar
    else if sqlType == DATE_TIME_OFFSET then DateTimeOffset
    else DefaultCreateDataType(sqlType, sqlTypeName)
  }

  /** The national-character codes map regardless of the type name. */
  lemma NationalCodesIgnoreName(name: Option<string>)
    ensures MsSqlCreateDataType(NCHAR, name) == Char
    ensures MsSqlCreateDataType(NVARCHAR, name) == Varchar
    ensures MsSqlCreateDataType(NTEXT, name) == LongVarchar
    ensures MsSqlCreateDataType(NTEXT_MSSQL_2005, name) == LongVarchar
    ensures MsSqlCreateDataType(DATE_TIME_OFFSET, name) == DateTimeOffset
  {
  }

  /** CHAR with any other name falls through to the generic profile. */
  lemma CharWithOtherNameDelegates(name: Option<string>)
    requires name != Some(UNIQUE_IDENTIFIER_TYPE)
    ensures MsSqlCreateDataType(CHAR, name) == DefaultCreateDataType(CHAR, name) == ForSqlType(CHAR)
  {
  }
}
