/**
  The two queries whose generated files the repository keeps as expected
  output, `SelectProducts` and `SelectUser`, worked through the model.

  Their `.sql` sources are not kept; the pieces below are the ones the
  generated files are consistent with: the two header lines, and the line
  holding the parameters with each parameter's type put back (`Guid` comes
  from `uuid`, `string` from `text`).
 */
module Fixtures {
  import opened Text
  import opened Parameters
  import opened Metadata
  import opened TypeMapping
  import opened Assembler
  import opened Generator

  const ResultModel := "Dipper.Tests.Models.Product"

  const IdParam := Param("Id", "uuid")

  const NameParam := Param("Name", "text")

  /** The two header lines of both queries, followed by the rest of the file. */
  function Headers(name: string, rest: string): string {
    "-- " + "name" + ":" + (" " + name + "\n") + ("-- " + "result" + ":" + (" " + (ResultModel + rest)))
  }

  lemma HeaderValues(name: string, fileName: string, rest: string)
    requires name != [] && '-' !in name && '\n' !in name && !IsSpace(name[0]) && !IsSpace(name[|name| - 1])
    requires rest == [] || rest[0] == '\n'
    ensures QueryName(Headers(name, rest), fileName) == name
    ensures ResultType(Headers(name, rest)) == ResultModel
  {
    NameIsKey();
    assert '\n' !in ResultModel;
    FirstHeader("name", name, "-- " + "result" + ":" + (" " + (ResultModel + rest)));
    SecondHeader("name", name, "result", ResultModel, rest);
  }

  lemma PlainName(name: string)
    requires IsWord(name)
    ensures '-' !in name && '\n' !in name && !IsSpace(name[0]) && !IsSpace(name[|name| - 1])
  {
  }

  /** `SelectProducts.sql` names its query `SelectProducts` and its rows `Dipper.Tests.Models.Product`. */
  lemma ProductsNameAndResult(fileName: string, rest: string)
    requires rest == [] || rest[0] == '\n'
    ensures QueryName(Headers("SelectProducts", rest), fileName) == "SelectProducts"
    ensures ResultType(Headers("SelectProducts", rest)) == ResultModel
  {
    PlainName("SelectProducts");
    HeaderValues("SelectProducts", fileName, rest);
  }

  /** `SelectUser.sql` names its query `SelectUser` and its rows `Dipper.Tests.Models.Product`. */
  lemma UserNameAndResult(fileName: string, rest: string)
    requires rest == [] || rest[0] == '\n'
    ensures QueryName(Headers("SelectUser", rest), fileName) == "SelectUser"
    ensures ResultType(Headers("SelectUser", rest)) == ResultModel
  {
    PlainName("SelectUser");
    HeaderValues("SelectUser", fileName, rest);
  }

  /**
    The parameter line of `SelectProducts.sql`, after any text without `@`:
    one parameter, and only its type is removed in the constant.
   */
  lemma ProductsParameters(head: string)
    requires '@' !in head
    ensures Matches(head + "@Id:uuid" + ";") == [IdParam]
    ensures Cleanup(head + "@Id:uuid" + ";") == head + "@Id" + ";"
  {
    assert IsWord("Id") && IsWord("uuid");
    assert Spelled(IdParam) == "@Id:uuid" && Bare(IdParam) == "@Id";
    OneToken(head, IdParam, ";");
  }

  /**
    The parameter line of `SelectUser.sql`, after any text without `@`: two
    parameters in order, each without its type in the constant.
   */
  lemma UserParameters(head: string)
    requires '@' !in head
    ensures Matches(head + "@Id:uuid" + ", TRUE) AND name = " + "@Name:text" + ";\n") == [IdParam, NameParam]
    ensures Cleanup(head + "@Id:uuid" + ", TRUE) AND name = " + "@Name:text" + ";\n") ==
            head + "@Id" + ", TRUE) AND name = " + "@Name" + ";\n"
  {
    assert IsWord("Id") && IsWord("uuid") && IsWord("Name") && IsWord("text");
    assert '@' !in ", TRUE) AND name = ";
    assert Spelled(IdParam) == "@Id:uuid" && Bare(IdParam) == "@Id";
    assert Spelled(NameParam) == "@Name:text" && Bare(NameParam) == "@Name";
    TwoTokens(head, IdParam, ", TRUE) AND name = ", NameParam, ";\n");
  }

  /** A name given twice keeps its first type; the later one is dropped. */
  lemma RepeatedNameKeepsFirst()
    ensures Dedup([IdParam, NameParam, Param("Id", "int4")]) == [IdParam, NameParam]
  {
    var ts := [IdParam, NameParam, Param("Id", "int4")];
    assert ts[..2] == [IdParam, NameParam];
    assert ts[..2][..1] == [IdParam];
    assert [IdParam][..0] == [];
    assert Dedup([IdParam]) == [IdParam];
    assert Dedup([IdParam, NameParam]) == [IdParam, NameParam] by {
      assert !HasName([IdParam], "Name");
    }
    assert [IdParam, NameParam][0].name == "Id";
    assert HasName([IdParam, NameParam], "Id");
  }

  /** The C# types of the two `Input` classes' properties. */
  lemma InputTypes()
    ensures MapSqlTypeToCSharp(IdParam.sqlType) == "Guid"
    ensures MapSqlTypeToCSharp(NameParam.sqlType) == "string"
  {
    MapUuidAnyCase();
    assert ToLower("text") == "text";
    assert "text" in SqlToCSharpTypeMap;
  }

  /**
    The generated `SelectProducts` file is made of 75 appended lines (78 lines
    of text, since the cleaned SQL spans four), the cleaned SQL being the
    line appended at index 20, after the opening of the `Sql` constant; one
    property in its `Input` class; and the result comment naming the model
    class.
   */
  lemma ProductsFileLayout(ns: string, comment: string, sql: string)
    ensures var all := SourceLines(ns, "SelectProductsQuery", comment, sql, [IdParam], ResultModel);
      |all| == 75 && all[20] == sql &&
      all[30 + 5] == "        // Result type: " + ResultModel
  {
    SourceLayout(ns, "SelectProductsQuery", comment, sql, [IdParam], ResultModel);
  }

  /** A property declaration spelled out from its type and its name. */
  lemma DeclOf(p: Param, csharpType: string)
    requires MapSqlTypeToCSharp(p.sqlType) == csharpType
    ensures PropertyDecl(p) == DeclPrefix + csharpType + " " + p.name + " { get; set; }"
  {
  }

  /** The declaration line of the `Id` property, line 35 of `SelectProductsQuery.g.cs`. */
  lemma IdDecl()
    ensures PropertyDecl(IdParam) == "            public Guid Id { get; set; }"
  {
    InputTypes();
    DeclOf(IdParam, "Guid");
    IdDeclText();
  }

  /** The `Id` declaration spelled out. */
  lemma IdDeclText()
    ensures DeclPrefix + "Guid" + " " + "Id" + " { get; set; }" == "            public Guid Id { get; set; }"
  {
  }

  /** The declaration line of the `Name` property, line 42 of `SelectUserQuery.g.cs`. */
  lemma NameDecl()
    ensures PropertyDecl(NameParam) == "            public string Name { get; set; }"
  {
    InputTypes();
    DeclOf(NameParam, "string");
    NameDeclText();
  }

  /** The `Name` declaration spelled out. */
  lemma NameDeclText()
    ensures DeclPrefix + "string" + " " + "Name" + " { get; set; }" == "            public string Name { get; set; }"
  {
  }

  /** The rows of the `Query` helper of both queries. */
  lemma ProductRows()
    ensures ReturnType(Query, ResultModel) == "IEnumerable<Dipper.Tests.Models.Product>"
  {
  }

  /** The namespace line the Dipper copy writes. */
  lemma DipperNamespaceLine()
    ensures "namespace " + DipperNamespace == "namespace Dipper.Generated.SqlQueries"
  {
  }

  /** The namespace line the Dips copy writes. */
  lemma DipsNamespaceText()
    ensures "namespace " + DipsNamespace == "namespace Dips.Generator.SqlQueries"
  {
  }

  /**
    Lines of `SelectProductsQuery.g.cs` as the Dipper copy writes them: the
    namespace (line 10), the `Id` property (line 35) and the `Query` helper's
    declaration (line 49). The cleaned SQL spans four lines of text, so
    appended line `k` after the SQL is line `k + 4` of the file.
   */
  lemma ProductsFileLines(comment: string, sql: string)
    ensures var all := SourceLines(DipperNamespace, "SelectProductsQuery", comment, sql, [IdParam], ResultModel);
      all[9] == "namespace Dipper.Generated.SqlQueries" &&
      all[31] == "            public Guid Id { get; set; }" &&
      all[45] == SignatureLine(Query, "IEnumerable<Dipper.Tests.Models.Product>", "SelectProductsQuery")
  {
    NamespaceInSource(DipperNamespace, "SelectProductsQuery", comment, sql, [IdParam], ResultModel);
    DipperNamespaceLine();
    DeclInSource(DipperNamespace, "SelectProductsQuery", comment, sql, [IdParam], ResultModel, 0);
    IdDecl();
    QueryHelperInSource(DipperNamespace, "SelectProductsQuery", comment, sql, [IdParam], ResultModel);
    ProductRows();
  }

  /**
    Lines of `SelectUserQuery.g.cs` as the Dipper copy writes them: the
    namespace (line 10), the `Id` and `Name` properties (lines 37 and 42) and
    the `Query` helper's declaration (line 56). The cleaned SQL spans six
    lines of text, so appended line `k` after the SQL is line `k + 6` of the
    file.
   */
  lemma UserFileLines(comment: string, sql: string)
    ensures var all := SourceLines(DipperNamespace, "SelectUserQuery", comment, sql, [IdParam, NameParam], ResultModel);
      all[9] == "namespace Dipper.Generated.SqlQueries" &&
      all[31] == "            public Guid Id { get; set; }" &&
      all[36] == "            public string Name { get; set; }" &&
      all[50] == SignatureLine(Query, "IEnumerable<Dipper.Tests.Models.Product>", "SelectUserQuery")
  {
    var ps := [IdParam, NameParam];
    NamespaceInSource(DipperNamespace, "SelectUserQuery", comment, sql, ps, ResultModel);
    DipperNamespaceLine();
    DeclInSource(DipperNamespace, "SelectUserQuery", comment, sql, ps, ResultModel, 0);
    DeclInSource(DipperNamespace, "SelectUserQuery", comment, sql, ps, ResultModel, 1);
    IdDecl();
    NameDecl();
    QueryHelperInSource(DipperNamespace, "SelectUserQuery", comment, sql, ps, ResultModel);
    ProductRows();
  }

  /** The Dips copy writes the same file under its own namespace. */
  lemma DipsNamespaceLine(className: string, comment: string, sql: string, ps: seq<Param>, resultType: string)
    ensures SourceLines(DipsNamespace, className, comment, sql, ps, resultType)[9] == "namespace Dips.Generator.SqlQueries"
  {
    NamespaceInSource(DipsNamespace, className, comment, sql, ps, resultType);
    DipsNamespaceText();
  }
}
