/**
 * The H2 profile (H2DataTypeFactory): the BOOLEAN and UUID type names are
 * recognised before the code is looked at; everything else goes to the
 * generic profile.
 */
module H2Types {
  import opened Wrappers
  import opened DataTypes

  const H2_PRODUCTS: seq<string> := ["h2"]

  /**
   * H2DataTypeFactory.createDataType(int, String). The name is dereferenced
   * first (sqlTypeName.equals), so a null name is a caller error.
   */
  function H2CreateDataType(sqlType: int, sqlTypeName: Option<string>): (r: DataType)
    requires sqlTypeName.Some?
    ensures r == Boolean <==> sqlTypeName.value == "BOOLEAN"
    ensures r == NVarchar <==> sqlTypeName.value == "UUID"
    ensures sqlTypeName.value != "BOOLEAN" && sqlTypeName.value != "UUID" ==>
      r == DefaultCreateDataType(sqlType, sqlTypeName)
  {
    if sqlTypeName.value == "BOOLEAN" then Boolean
    else if sqlTypeName.value == "UUID" then NVarchar
    else DefaultCreateDataType(sqlType, sqlTypeName)
  }

  /** Name checks win over the code: BOOLEAN with code OTHER is not UNKNOWN. */
  lemma NameTakesPrecedenceOverCode(sqlType: int)
    ensures H2CreateDataType(sqlType, Some("BOOLEAN")) == Boolean
    ensures H2CreateDataType(sqlType, Some("UUID")) == NVarchar
    ensures H2CreateDataType(OTHER, Some("BOOLEAN")) != DefaultCreateDataType(OTHER, Some("BOOLEAN"))
  {
  }
}
