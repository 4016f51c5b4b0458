/**
  `SqlToCSharpTypeMap` and `MapSqlTypeToCSharp`: the C# type of a parameter,
  looked up by the lower-cased SQL type token, `string` when the token is not
  in the table.
 */
module TypeMapping {
  import opened Text

  /** The fixed table of seventeen PostgreSQL type tokens. */
  const SqlToCSharpTypeMap: map<string, string> := map[
    "text" := "string",
    "uuid" := "Guid",
    "int4" := "int",
    "int8" := "long",
    "numeric" := "decimal",
    "bool" := "bool",
    "timestamp" := "DateTime",
    "timestamptz" := "DateTimeOffset",
    "json" := "string",
    "jsonb" := "string",
    "date" := "DateTime",
    "time" := "TimeSpan",
    "float4" := "float",
    "float8" := "double",
    "bytea" := "byte[]",
    "char" := "char",
    "varchar" := "string"
  ]

  /** The table produces exactly the C# types listed in `CSharpTypes`. */
  lemma TableValues()
    ensures SqlToCSharpTypeMap.Values == CSharpTypes
  {
    assert SqlToCSharpTypeMap["text"] == "string";
    assert SqlToCSharpTypeMap["uuid"] == "Guid";
    assert SqlToCSharpTypeMap["int4"] == "int";
    assert SqlToCSharpTypeMap["int8"] == "long";
    assert SqlToCSharpTypeMap["numeric"] == "decimal";
    assert SqlToCSharpTypeMap["bool"] == "bool";
    assert SqlToCSharpTypeMap["timestamp"] == "DateTime";
    assert SqlToCSharpTypeMap["timestamptz"] == "DateTimeOffset";
    assert SqlToCSharpTypeMap["time"] == "TimeSpan";
    assert SqlToCSharpTypeMap["float4"] == "float";
    assert SqlToCSharpTypeMap["float8"] == "double";
    assert SqlToCSharpTypeMap["bytea"] == "byte[]";
    assert SqlToCSharpTypeMap["char"] == "char";
  }

  /** Every C# type the table can produce; `string` is also the default. */
  const CSharpTypes: set<string> := {
    "string", "Guid", "int", "long", "decimal", "bool", "DateTime",
    "DateTimeOffset", "TimeSpan", "float", "double", "byte[]", "char"
  }

  /**
    The C# type for a SQL type token: the table's entry for the lower-cased
    token, or `string`. The result is always one of the table's types.
   */
  function MapSqlTypeToCSharp(sqlType: string): (csharpType: string)
    ensures csharpType in CSharpTypes
  {
    var key := ToLower(sqlType);
    if key in SqlToCSharpTypeMap then SqlToCSharpTypeMap[key] else "string"
  }

  /** The mapping is total and only ever yields one of the table's C# types. */
  lemma MapSqlTypeToCSharpRange(sqlType: string)
    ensures MapSqlTypeToCSharp(sqlType) in CSharpTypes
    ensures MapSqlTypeToCSharp(sqlType) in SqlToCSharpTypeMap.Values
  {
    assert SqlToCSharpTypeMap["text"] == "string";
  }

  predicate HasNoUpper(k: string) {
    forall i :: 0 <= i < |k| ==> !('A' <= k[i] <= 'Z')
  }

  lemma LowerCaseFixed(k: string)
    requires HasNoUpper(k)
    ensures ToLower(k) == k
  {
  }

  lemma TableKeyCases(k: string)
    requires k in SqlToCSharpTypeMap
    ensures k in {"text", "uuid", "int4", "int8", "numeric", "bool", "timestamp", "timestamptz",
                  "json", "jsonb", "date", "time", "float4", "float8", "bytea", "char", "varchar"}
  {
  }

  lemma KeyHasNoUpper(k: string)
    requires k in {"text", "uuid", "int4", "int8", "numeric", "bool", "timestamp", "timestamptz",
                   "json", "jsonb", "date", "time", "float4", "float8", "bytea", "char", "varchar"}
    ensures HasNoUpper(k)
  {
  }

  /** Every key of the table is already lower-case, so each one is reachable. */
  lemma TableKeysAreLowerCase(k: string)
    requires k in SqlToCSharpTypeMap
    ensures ToLower(k) == k
    ensures MapSqlTypeToCSharp(k) == SqlToCSharpTypeMap[k]
  {
    TableKeyCases(k);
    KeyHasNoUpper(k);
    LowerCaseFixed(k);
  }

  /** The lookup ignores case: a token and its lower-cased form map alike. */
  lemma MapIgnoresCase(sqlType: string)
    ensures MapSqlTypeToCSharp(sqlType) == MapSqlTypeToCSharp(ToLower(sqlType))
  {
    ToLowerIdempotent(sqlType);
  }

  /**
    A token whose lower-cased form is a key gets that key's entry, whatever
    its letter case; every other token gets `string`.
   */
  lemma MapAgreesWithTable(sqlType: string, key: string)
    requires key in SqlToCSharpTypeMap && ToLower(sqlType) == key
    ensures MapSqlTypeToCSharp(sqlType) == SqlToCSharpTypeMap[key]
  {
  }

  lemma MapDefaultsToString(sqlType: string)
    requires forall k :: k in SqlToCSharpTypeMap ==> ToLower(sqlType) != k
    ensures MapSqlTypeToCSharp(sqlType) == "string"
  {
  }

  /** Two tokens that differ only in letter case map to the same C# type. */
  lemma MapCaseVariants(a: string, b: string)
    requires ToLower(a) == ToLower(b)
    ensures MapSqlTypeToCSharp(a) == MapSqlTypeToCSharp(b)
  {
  }

  /** `UUID` and `uuid` both give `Guid`. */
  lemma MapUuidAnyCase()
    ensures MapSqlTypeToCSharp("UUID") == MapSqlTypeToCSharp("uuid") == "Guid"
  {
    assert ToLower("UUID") == "uuid";
    assert ToLower("uuid") == "uuid";
  }

  /** An unknown token such as `hstore` gives `string`. */
  lemma MapUnknownIsString()
    ensures MapSqlTypeToCSharp("hstore") == "string"
  {
    assert ToLower("hstore") == "hstore";
  }
}
