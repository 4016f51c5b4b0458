# SQL query source generator — Dafny model

The repository ships a Roslyn incremental source generator in two copies
(`Dips.Generator/SqlQueryGenerator.cs` and `Dipper.Generator/SqlQueryGenerator.cs`).
For every additional file whose path ends in `.sql`, it reads two metadata
comments, `-- name:` and `-- result:`. It collects the `@name:type`
parameter annotations and strips their types from the SQL. It then writes a
C# file holding:

- a query class with the SQL as a verbatim string constant;
- a nested `Input` class with one typed property per parameter;
- a static class of four Dapper forwarding methods.

The two copies differ only in the namespace they write, in `GenerateWhereClass`
(present only in the Dips copy) and in how `MapSqlTypeToCSharp` is spelled. The
model covers both copies and takes the namespace as a parameter; the two
copies' namespaces are `Assembler.DipsNamespace` and `Assembler.DipperNamespace`,
and `Fixtures` derives the namespace line each one writes.

Modules:

- `Text`: the character classes `\w` and `\s`, `Trim` and `ToLower`.
- `Metadata`: `GetMetadataValue`, the regex `--\s*KEY:\s*(.+)$`, written out as a scanner.
- `Parameters`: the regex `@(\w+):(\w+)` as a left-to-right scanner, plus:
  - `CleanupSqlForConstant`;
  - the first-occurrence deduplication of `ParseParameters`, with its loop.
- `TypeMapping`: the seventeen-entry type table and `MapSqlTypeToCSharp`.
- `Assembler`: the builder, with its imperative template methods `GenerateInputClass` and
  `GenerateDapperExtensions`:
  - the builder is a `SourceBuilder` class whose `lines` field each `AppendLine` extends;
  - its text is every line followed by a line feed;
  - each template method is proved to append exactly the lines of a reference function.
- `Generator`: `GenerateSource` and the layout of a generated file.
- `Pipeline`: `Initialize`, with its steps:
  - the `.sql` filter, in any letter case;
  - the file stem, the class name and the hint name;
  - one output per `.sql` file, in order.
- `Fixtures`: the two generated files kept in the test project (`SelectProductsQuery.g.cs`,
  `SelectUserQuery.g.cs`), worked through the model.

## Model

| member | source | states |
|---|---|---|
| Text.Trim | Dips.Generator/SqlQueryGenerator.cs:324 | the trimmed value has no white space at either end and is a piece of the input with only white space around it |
| Text.TrimUnchanged | Dips.Generator/SqlQueryGenerator.cs:324 | a text without white space at either end is its own trim |
| Text.ToLower | Dips.Generator/SqlQueryGenerator.cs:346 | lower-casing keeps the length and maps every character through `LowerChar` |
| Text.ToLowerIdempotent | Dips.Generator/SqlQueryGenerator.cs:346 | lower-casing twice is lower-casing once |
| Metadata.LastNonNewline | Dips.Generator/SqlQueryGenerator.cs:322 | backtracking `(.+)$` into trailing white space captures one character that is not a line feed, or fails when there is none |
| Metadata.Capture | Dips.Generator/SqlQueryGenerator.cs:322 | what `\s*(.+)$` captures after the colon is non-empty, has no line feed and is a piece of the text; it fails only when the text is all line feeds |
| Metadata.MatchAt | Dips.Generator/SqlQueryGenerator.cs:322-323 | a match at a position needs a `--`, white space, `key:` header there, and captures a non-empty one-line piece of the text |
| Metadata.FirstMatch | Dips.Generator/SqlQueryGenerator.cs:322-323 | the leftmost match, if any, captures a non-empty one-line piece of the text and exists only when the text holds a header for the key |
| Metadata.GetMetadataValue | Dips.Generator/SqlQueryGenerator.cs:320-325 | the value is empty or has no white space at either end, has no line feed, is a piece of the SQL text, and is empty when no header for the key occurs |
| Metadata.LongKeyNeverMatches | Dips.Generator/SqlQueryGenerator.cs:322 | a key at least as long as the text never matches |
| Metadata.SelfKeyNeverMatches | Dips.Generator/SqlQueryGenerator.cs:70 | the SQL text used as its own key and read as a literal never matches; this covers only the literal reading, not SQL text holding regex metacharacters |
| Metadata.HeaderAtStart | Dips.Generator/SqlQueryGenerator.cs:322 | `-- key:` at the start of a text is a header whose key starts at index 3 |
| Metadata.CaptureValue | Dips.Generator/SqlQueryGenerator.cs:322 | after the colon, one space and a value running to the end of its line capture exactly that value |
| Metadata.LeadingHeader | Dips.Generator/SqlQueryGenerator.cs:320-325 | a header on the first line yields its value |
| Metadata.FirstMatchSkip | Dips.Generator/SqlQueryGenerator.cs:323 | positions that start no header are passed over by the leftmost search |
| Metadata.HeaderAfterPrefix | Dips.Generator/SqlQueryGenerator.cs:321-325 | a header after any preamble that starts no header for the key yields its value |
| Metadata.NoHeaderWithoutDashes | Dips.Generator/SqlQueryGenerator.cs:322 | a text not starting with `--` starts no header |
| Metadata.ShorterKeyNoHeader | Dips.Generator/SqlQueryGenerator.cs:322 | a header for a shorter key is not a header for a longer one |
| Metadata.SecondHeader | Dips.Generator/SqlQueryGenerator.cs:320-325 | with a shorter key's header on the first line, a header on the second line yields its value |
| Metadata.FirstHeader | Dips.Generator/SqlQueryGenerator.cs:320-325 | the first of several header lines yields its own value whatever follows |
| Parameters.TokenAt | Dips.Generator/SqlQueryGenerator.cs:330 | a match at a position is `@`, a word, `:` and a word that the text begins with and that no further word character extends |
| Parameters.TokenAtSpelled | Dips.Generator/SqlQueryGenerator.cs:330 | conversely, a text that begins with a maximal `@name:type` token is matched there with exactly that token |
| Parameters.Scan | Dips.Generator/SqlQueryGenerator.cs:332 | the left-to-right, non-overlapping scan loses nothing: its pieces spell out the input (which matches it reports: `Parameters.MatchesAreTokens`) |
| Parameters.Cleanup | Dips.Generator/SqlQueryGenerator.cs:355-360 | the cleaned text is shorter by the colon and the type of every match |
| Parameters.CleanTextLength | Dips.Generator/SqlQueryGenerator.cs:359 | replacing each token by `@name` removes exactly one colon and one type per token |
| Parameters.CleanupPassesText | Dips.Generator/SqlQueryGenerator.cs:355-360 | text without `@` yields no match and is copied into the constant unchanged |
| Parameters.CleanupRewritesToken | Dips.Generator/SqlQueryGenerator.cs:330-335 | a maximal token is one match, is rewritten to `@name`, and scanning resumes right after its type |
| Parameters.CleanupStep | Dips.Generator/SqlQueryGenerator.cs:355-360 | a position where no match begins is copied into the constant and scanning moves on one character |
| Parameters.CleanupPassesUnmatched | Dips.Generator/SqlQueryGenerator.cs:355-360 | text none of whose positions starts a match, `@` included, yields no match and is copied unchanged |
| Parameters.ContainmentThenToken | Dips.Generator/SqlQueryGenerator.cs:355-360 | the operator `@>` before a token is kept, and only the token loses its type |
| Parameters.PlainText | Dips.Generator/SqlQueryGenerator.cs:355-360 | text without `@` has no parameters and cleans to itself |
| Parameters.TokenThenText | Dips.Generator/SqlQueryGenerator.cs:330-335 | a token followed by plain text is the only parameter and loses its type |
| Parameters.OneToken | Dips.Generator/SqlQueryGenerator.cs:330-335 | one token inside plain text is the only parameter and is cleaned to `@name` in place |
| Parameters.TokenThenOneToken | Dips.Generator/SqlQueryGenerator.cs:330-335 | a token followed by text holding one more token gives both, in order |
| Parameters.TwoTokens | Dips.Generator/SqlQueryGenerator.cs:330-335 | two tokens inside plain text are both parameters, in order, and both lose their types |
| Parameters.CleanupChangesIffTokens | Dips.Generator/SqlQueryGenerator.cs:355-360 | cleanup changes the text exactly when the text holds a token |
| Parameters.CleanupLeavesSecondType | Dips.Generator/SqlQueryGenerator.cs:359 | `@n:t:u` cleans to `@n:u`: a second type after a token is not removed |
| Parameters.CleanupAgainDropsSecondType | Dips.Generator/SqlQueryGenerator.cs:359 | `@n:u` cleans to `@n`, so cleanup is not idempotent |
| Parameters.CleanupColonWord | Dips.Generator/SqlQueryGenerator.cs:359 | `:word` without an `@` is kept |
| Parameters.CleanupOfToken | Dips.Generator/SqlQueryGenerator.cs:359 | a lone token cleans to its bare `@name`, which differs from it |
| Parameters.NoTokenInside | Dips.Generator/SqlQueryGenerator.cs:330 | no position strictly inside a spelled-out token starts a match, since it holds no `@` |
| Parameters.Matches | Dips.Generator/SqlQueryGenerator.cs:332 | no contract of its own: `Parameters.MatchesStep`, `Parameters.MatchesAreTokens` and `Parameters.MatchNames` state which tokens it reports |
| Parameters.MatchesStep | Dips.Generator/SqlQueryGenerator.cs:332 | one scan step reports the match that begins the text, or passes over one character when none does |
| Parameters.TokenFound | Dips.Generator/SqlQueryGenerator.cs:330-332 | every position where `@(\w+):(\w+)` matches is reported by the scan: no match is skipped |
| Parameters.LaterMatch | Dips.Generator/SqlQueryGenerator.cs:332 | a match that does not begin the text is a match of the text after the first scan step |
| Parameters.MatchPlaced | Dips.Generator/SqlQueryGenerator.cs:330-332 | every match the scan reports begins at some position of the text |
| Parameters.MatchesAreTokens | Dips.Generator/SqlQueryGenerator.cs:330-332 | a token is among the matches exactly when `@(\w+):(\w+)` matches it at some position |
| Parameters.MatchNames | Dips.Generator/SqlQueryGenerator.cs:330-334 | some match carries a name exactly when a match with that name begins somewhere in the text |
| Parameters.ReportedNameFound | Dips.Generator/SqlQueryGenerator.cs:330-334 | a reported match named `n` begins at some position of the text |
| Parameters.FoundNameReported | Dips.Generator/SqlQueryGenerator.cs:330-334 | a match named `n` that begins at some position is reported |
| Parameters.ParameterNames | Dips.Generator/SqlQueryGenerator.cs:327-342 | a name is in the deduplicated list exactly when some match carries it, and exactly when a match with that name begins somewhere in the text |
| Parameters.HasNameSnoc | Dips.Generator/SqlQueryGenerator.cs:337 | a list extended by one entry has a name exactly when the list or the new entry has it |
| Parameters.Dedup | Dips.Generator/SqlQueryGenerator.cs:337-338 | no contract of its own: `Parameters.DedupSnoc`, `DedupHasName`, `DedupDistinct`, `DedupFirstOccurrence`, `DedupOrder` and `DedupLength` state what it keeps |
| Parameters.DedupSnoc | Dips.Generator/SqlQueryGenerator.cs:337-338 | one more match is kept exactly when no kept entry has its name |
| Parameters.FirstIndex | Dips.Generator/SqlQueryGenerator.cs:337 | the index found holds the name and no earlier entry does |
| Parameters.FirstIndexOfPrefix | Dips.Generator/SqlQueryGenerator.cs:332-339 | later matches do not move the first occurrence of a name already seen |
| Parameters.DedupHasName | Dips.Generator/SqlQueryGenerator.cs:327-342 | a name is in the parameter list exactly when some match carries it |
| Parameters.DedupDistinct | Dips.Generator/SqlQueryGenerator.cs:327-342 | the names in the parameter list are pairwise distinct |
| Parameters.DedupFirstOccurrence | Dips.Generator/SqlQueryGenerator.cs:327-342 | each entry is the first match carrying its name, type included |
| Parameters.LastIsFirstOccurrence | Dips.Generator/SqlQueryGenerator.cs:337-338 | a name the kept entries lack first occurs at the newest match |
| Parameters.DedupOrder | Dips.Generator/SqlQueryGenerator.cs:327-342 | entries appear in the order of their names' first occurrences |
| Parameters.DedupLength | Dips.Generator/SqlQueryGenerator.cs:327-342 | there are no more entries than matches |
| Parameters.ParseParameters | Dips.Generator/SqlQueryGenerator.cs:327-342 | the loop returns the first-occurrence deduplication of the matches; its names are distinct, and a name is listed exactly when a `@name:type` match with that name begins somewhere in the text |
| TypeMapping.MapSqlTypeToCSharp | Dips.Generator/SqlQueryGenerator.cs:344-353 | always one of the table's C# types; `MapAgreesWithTable`, `MapDefaultsToString` and `MapIgnoresCase` state which one |
| TypeMapping.TableValues | Dips.Generator/SqlQueryGenerator.cs:17-36 | the table (`SqlToCSharpTypeMap`) produces exactly the thirteen C# types of `CSharpTypes` |
| TypeMapping.MapSqlTypeToCSharpRange | Dips.Generator/SqlQueryGenerator.cs:344-353 | the mapping is total and yields one of the table's C# types |
| TypeMapping.TableKeysAreLowerCase | Dips.Generator/SqlQueryGenerator.cs:17-36 | every key of the table is lower-case, so every entry is reachable |
| TypeMapping.MapIgnoresCase | Dips.Generator/SqlQueryGenerator.cs:346 | a type token and its lower-cased form map alike |
| TypeMapping.MapAgreesWithTable | Dips.Generator/SqlQueryGenerator.cs:346-349 | a token whose lower-cased form is a key gets that key's entry |
| TypeMapping.MapDefaultsToString | Dips.Generator/SqlQueryGenerator.cs:351-352 | a token whose lower-cased form is no key gets `string` |
| TypeMapping.MapCaseVariants | Dipper.Generator/SqlQueryGenerator.cs:243 | tokens differing only in letter case map to the same type |
| TypeMapping.MapUuidAnyCase | Dipper.Generator/SqlQueryGenerator.cs:243 | `UUID` and `uuid` both give `Guid` |
| TypeMapping.MapUnknownIsString | Dipper.Generator/SqlQueryGenerator.cs:243 | an unknown token such as `hstore` gives `string` |
| Assembler.Render | Dips.Generator/SqlQueryGenerator.cs:132 | only a length bound (at least one character per line); what the text holds is stated by `Assembler.RenderAppend` and `Assembler.SplitRender` |
| Assembler.RenderAppend | Dips.Generator/SqlQueryGenerator.cs:132 | the text of two runs of lines is the text of the first followed by the text of the second |
| Assembler.SplitRender | Dips.Generator/SqlQueryGenerator.cs:132 | lines without line feeds are recovered from the text by splitting it |
| Assembler.SourceBuilder.constructor | Dips.Generator/SqlQueryGenerator.cs:79 | a new builder holds no lines |
| Assembler.SourceBuilder.AppendLine | Dips.Generator/SqlQueryGenerator.cs:80 | appending a line adds exactly that line at the end |
| Assembler.SourceBuilder.ToString | Dips.Generator/SqlQueryGenerator.cs:132 | splitting the builder's text gives back the lines appended, when none holds a line feed |
| Assembler.PropertyDecl | Dips.Generator/SqlQueryGenerator.cs:149 | every property declaration starts with the declaration prefix and goes beyond it |
| Assembler.PropertyLines | Dips.Generator/SqlQueryGenerator.cs:143-151 | the properties take five lines per parameter |
| Assembler.InputClassLines | Dips.Generator/SqlQueryGenerator.cs:135-155 | the `Input` section takes seven lines plus five per parameter |
| Assembler.InputLinesAt | Dips.Generator/SqlQueryGenerator.cs:143-151 | parameter `k`'s summary names it on line `6 + 5k` of the `Input` section and its declaration is line `8 + 5k` |
| Assembler.InputClassShape | Dips.Generator/SqlQueryGenerator.cs:135-155 | parameter `k` has its summary naming it on line `6 + 5k` and its declaration on line `8 + 5k` of the section |
| Assembler.PropertyLinesAt | Dips.Generator/SqlQueryGenerator.cs:143-151 | parameter `k` has its comment on line `5k + 1` and its declaration on line `5k + 3` of the properties |
| Assembler.InputClassDeclarations | Dips.Generator/SqlQueryGenerator.cs:143-151 | the `Input` class declares exactly one property per parameter, in parameter order, and no other line is a declaration |
| Assembler.AppendInputHeader | Dips.Generator/SqlQueryGenerator.cs:137-141 | appends exactly the header of the `Input` class |
| Assembler.AppendProperty | Dips.Generator/SqlQueryGenerator.cs:146-150 | appends exactly the five lines of one property |
| Assembler.GenerateInputClass | Dips.Generator/SqlQueryGenerator.cs:135-155 | the loop appends exactly the `Input` section for the parameters, in order |
| Assembler.GenericArg | Dips.Generator/SqlQueryGenerator.cs:246 | the generic argument is empty exactly when there is no result type |
| Assembler.HelperBlock | Dips.Generator/SqlQueryGenerator.cs:239-247 | each forwarding method takes seven lines |
| Assembler.ExtensionLines | Dips.Generator/SqlQueryGenerator.cs:222-318 | the extension class takes 37 lines whatever the result type |
| Assembler.ExtensionShape | Dips.Generator/SqlQueryGenerator.cs:222-318 | the four helpers sit eight lines apart, each with its reference return type in its signature and its generic argument in its call |
| Assembler.HelperBlockLines | Dips.Generator/SqlQueryGenerator.cs:239-247 | a helper's signature is the fourth line of its block and its call the sixth |
| Assembler.WrapInjective | Dips.Generator/SqlQueryGenerator.cs:231-236 | each helper's wrapping of the row type is injective |
| Assembler.ReturnTypesFollowResult | Dips.Generator/SqlQueryGenerator.cs:231-236 | a helper returns `dynamic` rows exactly when the result type is empty or `dynamic`, and otherwise names the result type |
| Assembler.ReturnType | Dips.Generator/SqlQueryGenerator.cs:231-236 | no contract of its own: `Assembler.ReturnTypesFollowResult`, `WrapInjective` and `SourceReturnTypes` state it |
| Assembler.SourceReturnTypes | Dips.Generator/SqlQueryGenerator.cs:231-236 | the four conditionals, each with its own literal, agree with the reference return types |
| Assembler.AppendForwardingMethod | Dips.Generator/SqlQueryGenerator.cs:239-247 | appends exactly the seven lines of one forwarding method |
| Assembler.GenerateDapperExtensions | Dips.Generator/SqlQueryGenerator.cs:222-318 | appends exactly the extension class of the four forwarding methods for the class name and result type |
| Generator.ResultLines | Dips.Generator/SqlQueryGenerator.cs:112-115 | one result comment when the result type is not empty, none when it is |
| Generator.SourceLines | Dips.Generator/SqlQueryGenerator.cs:79-132 | a generated file takes 69 lines, plus five per parameter, plus one with a result type |
| Generator.SourceLayout | Dips.Generator/SqlQueryGenerator.cs:79-132 | where each part lands, counting from 0: the namespace at index 9; the constant's opening, the SQL and its closing at 19-21; the `Input` section from 23; the result comment exactly when there is a result type; then the closing of the query class, the extension class and the namespace's closing brace last |
| Generator.SqlInSource | Dips.Generator/SqlQueryGenerator.cs:103-105 | the text holds the cleaned SQL verbatim, on its own lines, between the opening and closing of the constant |
| Generator.NamespaceInSource | Dips.Generator/SqlQueryGenerator.cs:89 | line 9 of every generated file declares the namespace |
| Generator.InputLineInSource | Dips.Generator/SqlQueryGenerator.cs:80-108 | the `Input` class starts on line 23 of the file: its line `j` is the file's line `23 + j` |
| Generator.DeclInSource | Dips.Generator/SqlQueryGenerator.cs:143-151 | parameter `k`'s property declaration is line `31 + 5k` of the file |
| Generator.ExtensionLineInSource | Dips.Generator/SqlQueryGenerator.cs:108-126 | the extension class follows the query class's closing brace: its line `j` is the file's line `31 + 5n + r + j` |
| Generator.QueryHelperInSource | Dips.Generator/SqlQueryGenerator.cs:239-243 | the `Query` helper's declaration, with its reference return type, is line `39 + 5n + r` of the file |
| Generator.QueryName | Dips.Generator/SqlQueryGenerator.cs:63-67 | the `name` metadata value when it is not empty, the file name when it is; so the file name without a `name` header, and otherwise either the file name or a non-empty, trimmed, one-line piece of the SQL |
| Generator.ResultType | Dips.Generator/SqlQueryGenerator.cs:69 | empty without a `result` header; always a one-line piece of the SQL |
| Generator.AppendFileHeader | Dips.Generator/SqlQueryGenerator.cs:80-90 | appends exactly the usings and the namespace opening |
| Generator.AppendClassOpen | Dips.Generator/SqlQueryGenerator.cs:93-97 | appends exactly the summary and opening of the query class |
| Generator.AppendSqlConstant | Dips.Generator/SqlQueryGenerator.cs:100-106 | appends exactly the `Sql` constant around the cleaned SQL |
| Generator.AppendQueryClass | Dips.Generator/SqlQueryGenerator.cs:93-124 | appends exactly the query class: opening, constant, `Input` section, optional result comment, closing brace |
| Generator.GenerateSource | Dips.Generator/SqlQueryGenerator.cs:59-133 | the class name is the query name followed by `Query`; the text is the rendering of the reference file for the cleaned SQL, the deduplicated parameters and the result type |
| Pipeline.LastIndexOf | Dips.Generator/SqlQueryGenerator.cs:47 | the index found holds the character and no later index does, or it is -1 |
| Pipeline.FileName | Dips.Generator/SqlQueryGenerator.cs:47 | the file name is the suffix of the path after its last `/` |
| Pipeline.FileNameWithoutExtension | Dips.Generator/SqlQueryGenerator.cs:47 | the stem is the file name cut before its last `.`, or the whole name when it has none |
| Pipeline.SqlFileStem | Dips.Generator/SqlQueryGenerator.cs:42-47 | for a `.sql` file the stem is the file name without the four characters of its extension |
| Pipeline.SqlFiles | Dips.Generator/SqlQueryGenerator.cs:41-42 | the filter keeps exactly the files whose path ends in `.sql` in any letter case |
| Pipeline.IsSqlFile | Dips.Generator/SqlQueryGenerator.cs:42 | no contract of its own: `Pipeline.SqlSuffixAnyCase` characterises it |
| Pipeline.SqlSuffixAnyCase | Dips.Generator/SqlQueryGenerator.cs:42 | a path passes the filter exactly when it ends in `.` and `s`, `q`, `l`, each in either case |
| Pipeline.MapSqlFilesFollowsFilter | Dips.Generator/SqlQueryGenerator.cs:41-49 | one result per `.sql` file, in the order of the files |
| Pipeline.OutputsFollowSqlFiles | Dips.Generator/SqlQueryGenerator.cs:38-57 | output `k` is the source generated for the `k`-th `.sql` file |
| Pipeline.Initialize | Dips.Generator/SqlQueryGenerator.cs:38-57 | the loop adds exactly the reference outputs |
| Pipeline.ClassNameDefault | Dips.Generator/SqlQueryGenerator.cs:63-76 | without a `name` header the class is the file stem followed by `Query` |
| Pipeline.HintNameFromFile | Dips.Generator/SqlQueryGenerator.cs:55 | without a `name` header the hint name is the stem, `Query` and `.g.cs` |
| Pipeline.HintName | Dips.Generator/SqlQueryGenerator.cs:55 | no contract of its own: `Pipeline.HintNameInjective` and `HintNameFromFile` state it |
| Pipeline.HintNameInjective | Dips.Generator/SqlQueryGenerator.cs:55 | two classes get the same hint name exactly when they have the same name |
| Pipeline.NonSqlFilesIgnored | Dips.Generator/SqlQueryGenerator.cs:41-42 | files that are not `.sql` files produce nothing, whatever their content |
| Pipeline.NoSqlFiles | Dips.Generator/SqlQueryGenerator.cs:41-42 | a batch without `.sql` files has no `.sql` files to process |
| Fixtures.HeaderValues | Dipper.Tests/Generated/Dipper.Generator/Dipper.Generator.SqlQueryGenerator/SelectProductsQuery.g.cs:21-22 | the two header lines give the query name and the result model |
| Fixtures.ProductsNameAndResult | Dipper.Tests/Generated/Dipper.Generator/Dipper.Generator.SqlQueryGenerator/SelectProductsQuery.g.cs:15-22 | `SelectProducts` is named by its header and returns `Dipper.Tests.Models.Product` |
| Fixtures.UserNameAndResult | Dipper.Tests/Generated/Dipper.Generator/Dipper.Generator.SqlQueryGenerator/SelectUserQuery.g.cs:15-22 | `SelectUser` is named by its header and returns `Dipper.Tests.Models.Product` |
| Fixtures.ProductsParameters | Dipper.Tests/Generated/Dipper.Generator/Dipper.Generator.SqlQueryGenerator/SelectProductsQuery.g.cs:24-35 | `@Id:uuid` is the only parameter and appears as `@Id` in the constant |
| Fixtures.UserParameters | Dipper.Tests/Generated/Dipper.Generator/Dipper.Generator.SqlQueryGenerator/SelectUserQuery.g.cs:25-42 | `@Id:uuid` and `@Name:text` are the parameters, in order, and appear as `@Id` and `@Name` in the constant |
| Fixtures.RepeatedNameKeepsFirst | Dips.Generator/SqlQueryGenerator.cs:337-338 | a name given twice keeps its first type |
| Fixtures.InputTypes | Dipper.Tests/Generated/Dipper.Generator/Dipper.Generator.SqlQueryGenerator/SelectUserQuery.g.cs:37-42 | `uuid` gives `Guid` and `text` gives `string` |
| Fixtures.DeclOf | Dips.Generator/SqlQueryGenerator.cs:149 | a property declaration spelled out from its mapped type and its name |
| Fixtures.IdDecl | Dipper.Tests/Generated/Dipper.Generator/Dipper.Generator.SqlQueryGenerator/SelectProductsQuery.g.cs:35 | the `Id:uuid` property is declared as `public Guid Id { get; set; }` |
| Fixtures.NameDecl | Dipper.Tests/Generated/Dipper.Generator/Dipper.Generator.SqlQueryGenerator/SelectUserQuery.g.cs:42 | the `Name:text` property is declared as `public string Name { get; set; }` |
| Fixtures.ProductRows | Dipper.Tests/Generated/Dipper.Generator/Dipper.Generator.SqlQueryGenerator/SelectProductsQuery.g.cs:49 | the `Query` helper of both queries returns `IEnumerable<Dipper.Tests.Models.Product>` |
| Fixtures.DipperNamespaceLine | Dipper.Generator/SqlQueryGenerator.cs:89 | the Dipper copy's namespace line is `namespace Dipper.Generated.SqlQueries` |
| Fixtures.DipsNamespaceText | Dips.Generator/SqlQueryGenerator.cs:89 | the Dips copy's namespace line is `namespace Dips.Generator.SqlQueries` |
| Fixtures.DipsNamespaceLine | Dips.Generator/SqlQueryGenerator.cs:89 | every file of the Dips copy declares `namespace Dips.Generator.SqlQueries` on line 9 |
| Fixtures.ProductsFileLines | Dipper.Tests/Generated/Dipper.Generator/Dipper.Generator.SqlQueryGenerator/SelectProductsQuery.g.cs:10-49 | the model gives file lines 10 (namespace), 35 (`Id` property) and 49 (the `Query` declaration) exactly as the kept output shows them |
| Fixtures.UserFileLines | Dipper.Tests/Generated/Dipper.Generator/Dipper.Generator.SqlQueryGenerator/SelectUserQuery.g.cs:10-56 | the model gives file lines 10 (namespace), 37 and 42 (`Id` and `Name` properties) and 56 (the `Query` declaration) exactly as the kept output shows them |
| Fixtures.ProductsFileLayout | Dipper.Tests/Generated/Dipper.Generator/Dipper.Generator.SqlQueryGenerator/SelectProductsQuery.g.cs:1-78 | 75 appended lines, the SQL at index 20 and the result comment at index 35 |

## Left out

- Roslyn plumbing is not modelled:
  - the incremental provider, `GetText`, `AddSource`, the UTF-8 encoding of the source text and the cancellation token;
  - `Initialize` is a loop over a sequence of additional files.
  - `AddSource` throws when a hint name repeats. Two `.sql` files with the same stem, or with the same `name` header, give the same class name and therefore the same hint name (`Pipeline.HintNameInjective`). `Pipeline.Outputs` and `Pipeline.Initialize` list both outputs instead of failing.
- The class summary comment is the value `GetMetadataValue(sqlContent, sqlContent)`. The source builds that regex from the SQL text itself, regex metacharacters included, and an invalid pattern throws.
  - The model takes the comment as a parameter of `GenerateSource`, and `Pipeline` takes it as a function of the SQL text.
  - The comment is therefore not derived from the SQL in this model. Both kept outputs show an empty summary line.
  - `Metadata.SelfKeyNeverMatches` covers only the literal reading of the SQL as a key. SQL holding regex metacharacters can match: an alternation such as `(.+)|--x` matches `--x` and gives the comment `x`. The model does not establish that the comment is empty.
- `Metadata.GetMetadataValue`: requires the key to be a plain word, whereas the source splices any string unescaped into the pattern. Only `name` and `result` are looked up this way; the third call is the comment above.
- `GenerateWhereClass` is not modelled. It exists only in the Dips copy and is never called, because its only call site is commented out. The commented-out `Execute…` methods are left out too.
- `\w`, `\s`, `Trim` and `ToLower` are modelled on ASCII. .NET's Unicode letters, digits and white space are not modelled.
- `AppendLine` ends each line with `"\n"`; `Environment.NewLine` on other platforms is not modelled.
- `Path.GetFileNameWithoutExtension` takes `/` as the only directory separator. Windows `\` separators and invalid path characters are not modelled.
- The generated C# is not checked for validity. The SQL is placed in a verbatim string without doubling its `"` characters, so SQL containing `"` gives a file that does not compile. The model records the text exactly as written.
- `ServiceCollectionExtensions.cs` and the test classes are outside the generator and are not part of this model.
- `Fixtures`: the `.sql` sources of the two kept outputs are not in the repository. The fixtures use the header and parameter lines that the outputs imply, with symbolic text around them.
