/**
  `GenerateSource`: one generated file per SQL file.

  The class is named after the `name` metadata value, or the file name when
  that is empty, followed by `Query`. The file holds the using directives,
  the namespace, the query class with the cleaned SQL as a verbatim string
  constant and the nested `Input` class, an optional comment naming the
  result type, and the static class of Dapper extension methods.
 */
module Generator {
  import opened Text
  import opened Parameters
  import opened Metadata
  import opened Assembler

  // ---------------------------------------------------------------------------
  // The lines of a generated file
  // ---------------------------------------------------------------------------

  const UsingLines: seq<string> := [
    "using System;",
    "using System.Collections.Generic;",
    "using System.Data;",
    "using System.Linq;",
    "using System.Text;",
    "using System.Threading.Tasks;",
    "using Npgsql;",
    "using Dapper;"
  ]

  /** The blank line after the usings, the namespace declaration and its brace. */
  function NamespaceOpen(ns: string): seq<string> {
    ["", "namespace " + ns, "{"]
  }

  /** The documentation comment and the opening of the query class. */
  function ClassOpen(comment: string, className: string): seq<string> {
    ["    /// <summary>",
     "    /// " + comment,
     "    /// </summary>",
     "    public class " + className,
     "    {"]
  }

  /** The opening line of the verbatim string constant holding the SQL. */
  const SqlOpen := "        public const string Sql = @\""

  /** The closing line of that constant. */
  const SqlClose := "\";"

  /** The `Sql` constant: the cleaned SQL text between its opening and closing lines. */
  function SqlConstant(sql: string): seq<string> {
    ["        /// <summary>",
     "        /// The SQL query text.",
     "        /// </summary>",
     SqlOpen,
     sql,
     SqlClose,
     ""]
  }

  /** The comment naming the result type, present only when there is one. */
  function ResultLines(resultType: string): (ls: seq<string>)
    ensures |ls| == if resultType == "" then 0 else 1
  {
    if resultType == "" then [] else ["        // Result type: " + resultType]
  }

  /** Every line of the generated file, in order. */
  function SourceLines(ns: string, className: string, comment: string, sql: string,
                       parameters: seq<Param>, resultType: string): (ls: seq<string>)
    ensures |ls| == 69 + 5 * |parameters| + (if resultType == "" then 0 else 1)
  {
    UsingLines + NamespaceOpen(ns) + ClassOpen(comment, className) + SqlConstant(sql) +
    InputClassLines(parameters) + ResultLines(resultType) + ["    }"] +
    ExtensionLines(className, resultType) + ["}"]
  }

  // ---------------------------------------------------------------------------
  // Layout of a generated file
  // ---------------------------------------------------------------------------

  lemma AppendedThree(x: seq<string>, ys: seq<string>)
    requires |ys| == 3
    ensures x + [ys[0]] + [ys[1]] + [ys[2]] == x + ys
  {
  }

  /** A builder that starts empty holds exactly the parts appended to it. */
  lemma FromEmpty(u: seq<string>, n: seq<string>, c: seq<string>, q: seq<string>, inp: seq<string>,
                  res: seq<string>, close: seq<string>, ext: seq<string>, fin: seq<string>)
    ensures [] + u + n + c + q + inp + res + close + ext + fin == u + n + c + q + inp + res + close + ext + fin
  {
  }

  /** Where each part of a file made of the nine parts of `SourceLines` lands. */
  lemma FileLayout(u: seq<string>, n: seq<string>, c: seq<string>, q: seq<string>, inp: seq<string>,
                   res: seq<string>, close: string, ext: seq<string>, fin: string)
    requires |u| == 8 && |n| == 3 && |c| == 5 && |q| == 7
    ensures var all := u + n + c + q + inp + res + [close] + ext + [fin];
      |all| == 25 + |inp| + |res| + |ext| &&
      all[9] == n[1] && all[19] == q[3] && all[20] == q[4] && all[21] == q[5] &&
      all[23..23 + |inp|] == inp &&
      all[23 + |inp|..23 + |inp| + |res|] == res &&
      all[23 + |inp| + |res|] == close &&
      all[24 + |inp| + |res|..24 + |inp| + |res| + |ext|] == ext &&
      all[|all| - 1] == fin
  {
    var all := u + n + c + q + inp + res + [close] + ext + [fin];
    var k := 23 + |inp|;
    assert all[23..k] == inp by {
      assert forall j :: 0 <= j < |inp| ==> all[23 + j] == inp[j];
    }
    assert all[k..k + |res|] == res by {
      assert forall j :: 0 <= j < |res| ==> all[k + j] == res[j];
    }
    assert all[k + |res| + 1..k + |res| + 1 + |ext|] == ext by {
      assert forall j :: 0 <= j < |ext| ==> all[k + |res| + 1 + j] == ext[j];
    }
  }

  /**
    A generated file has 69 lines, five more per parameter and one more when
    there is a result type. The namespace is on line 9; the cleaned SQL is on
    line 20, between the opening and closing lines of the `Sql` constant; the
    `Input` class starts on line 23; the result comment follows it exactly
    when the result type is not empty; then the query class closes, the
    extension class follows, and the last line closes the namespace.
   */
  lemma SourceLayout(ns: string, className: string, comment: string, sql: string,
                     parameters: seq<Param>, resultType: string)
    ensures var all := SourceLines(ns, className, comment, sql, parameters, resultType);
      var n := |parameters|;
      var r := if resultType == "" then 0 else 1;
      |all| == 69 + 5 * n + r &&
      all[9] == "namespace " + ns &&
      all[19] == SqlOpen && all[20] == sql && all[21] == SqlClose &&
      all[23..30 + 5 * n] == InputClassLines(parameters) &&
      (resultType != "" <==> all[30 + 5 * n] != "    }") &&
      (resultType != "" ==> all[30 + 5 * n] == "        // Result type: " + resultType) &&
      all[30 + 5 * n + r] == "    }" &&
      all[31 + 5 * n + r..68 + 5 * n + r] == ExtensionLines(className, resultType) &&
      all[68 + 5 * n + r] == "}"
  {
    FileLayout(UsingLines, NamespaceOpen(ns), ClassOpen(comment, className), SqlConstant(sql),
      InputClassLines(parameters), ResultLines(resultType), "    }",
      ExtensionLines(className, resultType), "}");
    if resultType != "" {
      var line := "        // Result type: " + resultType;
      assert |line| != |"    }"|;
    }
  }

  /**
    Where a line of the second, fifth or eighth of nine parts lands in their
    concatenation, when the first four parts have the lengths they have in a
    generated file.
   */
  lemma PartLine(all: seq<string>, u: seq<string>, n: seq<string>, c: seq<string>, q: seq<string>,
                 inp: seq<string>, res: seq<string>, close: seq<string>, ext: seq<string>, fin: seq<string>, j: int)
    requires all == u + n + c + q + inp + res + close + ext + fin
    requires |u| == 8 && |n| == 3 && |c| == 5 && |q| == 7
    ensures 0 <= j < |n| ==> all[8 + j] == n[j]
    ensures 0 <= j < |inp| ==> all[23 + j] == inp[j]
    ensures 0 <= j < |ext| ==> all[23 + |inp| + |res| + |close| + j] == ext[j]
  {
  }

  /** The file as its nine parts, with the lengths of the first four. */
  lemma SourceParts(ns: string, className: string, comment: string, sql: string,
                    parameters: seq<Param>, resultType: string)
    ensures SourceLines(ns, className, comment, sql, parameters, resultType) ==
      UsingLines + NamespaceOpen(ns) + ClassOpen(comment, className) + SqlConstant(sql) +
      InputClassLines(parameters) + ResultLines(resultType) + ["    }"] +
      ExtensionLines(className, resultType) + ["}"]
    ensures |UsingLines| == 8 && |NamespaceOpen(ns)| == 3 && |ClassOpen(comment, className)| == 5 && |SqlConstant(sql)| == 7
  {
  }

  /** Line 9 of every generated file declares the namespace. */
  lemma NamespaceInSource(ns: string, className: string, comment: string, sql: string,
                          parameters: seq<Param>, resultType: string)
    ensures SourceLines(ns, className, comment, sql, parameters, resultType)[9] == "namespace " + ns
  {
    SourceParts(ns, className, comment, sql, parameters, resultType);
    PartLine(SourceLines(ns, className, comment, sql, parameters, resultType),
      UsingLines, NamespaceOpen(ns), ClassOpen(comment, className), SqlConstant(sql),
      InputClassLines(parameters), ResultLines(resultType), ["    }"], ExtensionLines(className, resultType), ["}"], 1);
  }

  /** Line `j` of the `Input` class is line `23 + j` of the generated file. */
  lemma InputLineInSource(ns: string, className: string, comment: string, sql: string,
                          parameters: seq<Param>, resultType: string, j: int)
    requires 0 <= j < |InputClassLines(parameters)|
    ensures SourceLines(ns, className, comment, sql, parameters, resultType)[23 + j] == InputClassLines(parameters)[j]
  {
    SourceParts(ns, className, comment, sql, parameters, resultType);
    PartLine(SourceLines(ns, className, comment, sql, parameters, resultType),
      UsingLines, NamespaceOpen(ns), ClassOpen(comment, className), SqlConstant(sql),
      InputClassLines(parameters), ResultLines(resultType), ["    }"], ExtensionLines(className, resultType), ["}"], j);
  }

  /** Parameter `k`'s property is declared on line `31 + 5k` of the generated file. */
  lemma DeclInSource(ns: string, className: string, comment: string, sql: string,
                     parameters: seq<Param>, resultType: string, k: int)
    requires 0 <= k < |parameters|
    ensures SourceLines(ns, className, comment, sql, parameters, resultType)[31 + 5 * k] == PropertyDecl(parameters[k])
  {
    InputLineInSource(ns, className, comment, sql, parameters, resultType, 8 + 5 * k);
    InputLinesAt(parameters, k);
  }

  /** Line `j` of the extension class is line `31 + 5n + r + j` of the generated file. */
  lemma ExtensionLineInSource(ns: string, className: string, comment: string, sql: string,
                              parameters: seq<Param>, resultType: string, j: int)
    requires 0 <= j < |ExtensionLines(className, resultType)|
    ensures var r := if resultType == "" then 0 else 1;
      SourceLines(ns, className, comment, sql, parameters, resultType)[31 + 5 * |parameters| + r + j] ==
      ExtensionLines(className, resultType)[j]
  {
    SourceParts(ns, className, comment, sql, parameters, resultType);
    var close := ["    }"];
    assert |close| == 1;
    PartLine(SourceLines(ns, className, comment, sql, parameters, resultType),
      UsingLines, NamespaceOpen(ns), ClassOpen(comment, className), SqlConstant(sql),
      InputClassLines(parameters), ResultLines(resultType), close, ExtensionLines(className, resultType), ["}"], j);
  }

  /**
    The `Query` helper is declared on line `39 + 5n + r` of the generated
    file, `n` being the number of parameters and `r` one when there is a
    result type.
   */
  lemma QueryHelperInSource(ns: string, className: string, comment: string, sql: string,
                            parameters: seq<Param>, resultType: string)
    ensures var r := if resultType == "" then 0 else 1;
      SourceLines(ns, className, comment, sql, parameters, resultType)[39 + 5 * |parameters| + r] ==
      SignatureLine(Query, ReturnType(Query, resultType), className)
  {
    ExtensionLineInSource(ns, className, comment, sql, parameters, resultType, 8);
    ExtensionShape(className, resultType);
  }

  /** Rendering a block of lines inside a longer list puts its text inside the longer text. */
  lemma RenderInfix(a: seq<string>, m: seq<string>, b: seq<string>)
    ensures IsInfix(Render(m), Render(a + m + b))
  {
    RenderAppend(a + m, b);
    RenderAppend(a, m);
    assert OccursAt(Render(m), Render(a + m + b), |Render(a)|);
  }

  lemma RenderThree(x: string, y: string, z: string)
    ensures Render([x, y, z]) == x + "\n" + y + "\n" + z + "\n"
  {
    assert [x, y, z][1..] == [y, z];
    assert [y, z][1..] == [z];
    assert [z][1..] == [];
    assert Render([z]) == z + "\n";
    assert Render([y, z]) == y + "\n" + (z + "\n");
    assert Render([x, y, z]) == x + "\n" + (y + "\n" + (z + "\n"));
  }

  /** The nine parts of a file, seen as what comes before the fourth, the fourth, and the rest. */
  lemma AroundFourth(u: seq<string>, n: seq<string>, c: seq<string>, q: seq<string>, inp: seq<string>,
                     res: seq<string>, close: seq<string>, ext: seq<string>, fin: seq<string>)
    ensures u + n + c + q + inp + res + close + ext + fin == (u + n + c) + q + (inp + res + close + ext + fin)
  {
  }

  /** Lines 3 to 5 of a seven-line block, with what precedes and follows them. */
  lemma MiddleOfSeven(q: seq<string>)
    requires |q| == 7
    ensures q == q[..3] + [q[3], q[4], q[5]] + [q[6]]
  {
  }

  /**
    The generated text holds the cleaned SQL verbatim, on its own lines,
    between the opening and the closing of the `Sql` constant.
   */
  lemma SqlInSource(ns: string, className: string, comment: string, sql: string,
                    parameters: seq<Param>, resultType: string)
    ensures IsInfix(SqlOpen + "\n" + sql + "\n" + SqlClose + "\n",
                    Render(SourceLines(ns, className, comment, sql, parameters, resultType)))
  {
    var q := SqlConstant(sql);
    var pre := UsingLines + NamespaceOpen(ns) + ClassOpen(comment, className);
    var post := InputClassLines(parameters) + ResultLines(resultType) + ["    }"] + ExtensionLines(className, resultType) + ["}"];
    AroundFourth(UsingLines, NamespaceOpen(ns), ClassOpen(comment, className), q,
      InputClassLines(parameters), ResultLines(resultType), ["    }"], ExtensionLines(className, resultType), ["}"]);
    MiddleOfSeven(q);
    RenderThree(SqlOpen, sql, SqlClose);
    RenderInfix(q[..3], [SqlOpen, sql, SqlClose], [q[6]]);
    RenderInfix(pre, q, post);
    InfixTransitive(SqlOpen + "\n" + sql + "\n" + SqlClose + "\n", Render(q), Render(pre + q + post));
  }

  // ---------------------------------------------------------------------------
  // The class name
  // ---------------------------------------------------------------------------

  lemma NameIsKey()
    ensures IsKey("name") && IsKey("result")
  {
  }

  /**
    The query name: the `name` metadata value, or the file name when that is
    empty. Without a `name` header it is the file name; a name other than the
    file name is a non-empty piece of one line of the SQL file without white
    space at either end.
   */
  function QueryName(sqlContent: string, fileName: string): (name: string)
    ensures GetMetadataValue(sqlContent, "name") != [] ==> name == GetMetadataValue(sqlContent, "name")
    ensures GetMetadataValue(sqlContent, "name") == [] ==> name == fileName
    ensures !HasHeader(sqlContent, "name") ==> name == fileName
    ensures name != fileName ==>
      name != [] && !IsSpace(name[0]) && !IsSpace(name[|name| - 1]) &&
      '\n' !in name && IsInfix(name, sqlContent)
  {
    NameIsKey();
    var value := GetMetadataValue(sqlContent, "name");
    if value == "" then fileName else value
  }

  /** The result type: the `result` metadata value, empty without a `result` header. */
  function ResultType(sqlContent: string): (resultType: string)
    ensures !HasHeader(sqlContent, "result") ==> resultType == []
    ensures '\n' !in resultType && IsInfix(resultType, sqlContent)
  {
    NameIsKey();
    GetMetadataValue(sqlContent, "result")
  }

  // ---------------------------------------------------------------------------
  // GenerateSource
  // ---------------------------------------------------------------------------

  /** The using directives, the namespace declaration and its opening brace. */
  method AppendFileHeader(sb: SourceBuilder, ns: string)
    modifies sb
    ensures sb.lines == old(sb.lines) + UsingLines + NamespaceOpen(ns)
  {
    sb.AppendLine("using System;");
    sb.AppendLine("using System.Collections.Generic;");
    sb.AppendLine("using System.Data;");
    sb.AppendLine("using System.Linq;");
    sb.AppendLine("using System.Text;");
    sb.AppendLine("using System.Threading.Tasks;");
    sb.AppendLine("using Npgsql;");
    sb.AppendLine("using Dapper;");
    AppendedEight(old(sb.lines), UsingLines);
    ghost var before := sb.lines;
    sb.AppendLine("");
    sb.AppendLine("namespace " + ns);
    sb.AppendLine("{");
    AppendedThree(before, NamespaceOpen(ns));
  }

  /** The summary comment and the opening of the query class. */
  method AppendClassOpen(sb: SourceBuilder, comment: string, className: string)
    modifies sb
    ensures sb.lines == old(sb.lines) + ClassOpen(comment, className)
  {
    sb.AppendLine("    /// <summary>");
    sb.AppendLine("    /// " + comment);
    sb.AppendLine("    /// </summary>");
    sb.AppendLine("    public class " + className);
    sb.AppendLine("    {");
    AppendedFive(old(sb.lines), ClassOpen(comment, className));
  }

  /** The `Sql` constant holding the cleaned SQL text. */
  method AppendSqlConstant(sb: SourceBuilder, sql: string)
    modifies sb
    ensures sb.lines == old(sb.lines) + SqlConstant(sql)
  {
    sb.AppendLine("        /// <summary>");
    sb.AppendLine("        /// The SQL query text.");
    sb.AppendLine("        /// </summary>");
    sb.AppendLine("        public const string Sql = @\"");
    sb.AppendLine(sql);
    sb.AppendLine("\";");
    sb.AppendLine("");
    AppendedSeven(old(sb.lines), SqlConstant(sql));
  }

  /**
    The query class: its summary and opening, the `Sql` constant, the
    `Input` class, the result comment when there is a result type, and its
    closing brace.
   */
  method AppendQueryClass(sb: SourceBuilder, comment: string, className: string, sql: string,
                          parameters: seq<Param>, resultType: string)
    modifies sb
    ensures sb.lines == old(sb.lines) + ClassOpen(comment, className) + SqlConstant(sql) +
                        InputClassLines(parameters) + ResultLines(resultType) + ["    }"]
  {
    AppendClassOpen(sb, comment, className);
    AppendSqlConstant(sb, sql);
    GenerateInputClass(sb, parameters);
    ghost var before := sb.lines;
    if resultType != "" {
      sb.AppendLine("        // Result type: " + resultType);
    }
    assert sb.lines == before + ResultLines(resultType);
    sb.AppendLine("    }");
  }

  /**
    `GenerateSource`: the class name and the text of the generated file.
    `comment` is the value the generator reads for the class summary (see
    `Metadata.SelfKeyNeverMatches`).
   */
  method GenerateSource(ns: string, fileName: string, sqlContent: string, comment: string)
    returns (className: string, sourceCode: string)
    ensures className == QueryName(sqlContent, fileName) + "Query"
    ensures sourceCode == Render(SourceLines(ns, className, comment, Cleanup(sqlContent),
                                             Dedup(Matches(sqlContent)), ResultType(sqlContent)))
  {
    NameIsKey();
    var name := GetMetadataValue(sqlContent, "name");
    if name == "" {
      name := fileName;
    }
    var resultType := GetMetadataValue(sqlContent, "result");
    var parameters := ParseParameters(sqlContent);
    className := name + "Query";

    var sb := new SourceBuilder();
    AppendFileHeader(sb, ns);
    AppendQueryClass(sb, comment, className, Cleanup(sqlContent), parameters, resultType);
    GenerateDapperExtensions(sb, className, resultType);
    sb.AppendLine("}");
    FromEmpty(UsingLines, NamespaceOpen(ns), ClassOpen(comment, className), SqlConstant(Cleanup(sqlContent)),
      InputClassLines(parameters), ResultLines(resultType), ["    }"], ExtensionLines(className, resultType), ["}"]);

    sourceCode := sb.ToString();
  }
}
