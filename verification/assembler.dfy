/**
  The code-template assembler: `GenerateInputClass` and
  `GenerateDapperExtensions` append lines to the `StringBuilder` that
  `GenerateSource` (module `Generator`) shares with them.

  The builder is a `SourceBuilder` holding the lines appended so far; its text
  is every line followed by a line feed. Each generator method is specified by
  a function giving the lines it appends (`InputClassLines`,
  `ExtensionLines`), and the layout of those lines is proved
  in the lemmas below. The namespace written into the file is a parameter,
  so one model covers both copies of the generator.
 */
module Assembler {
  import opened Text
  import opened Parameters
  import opened TypeMapping

  /** The namespace emitted by the Dips copy of the generator. */
  const DipsNamespace := "Dips.Generator.SqlQueries"

  /** The namespace emitted by the Dipper copy of the generator. */
  const DipperNamespace := "Dipper.Generated.SqlQueries"

  // ---------------------------------------------------------------------------
  // The builder and its text
  // ---------------------------------------------------------------------------

  /** The text of a list of lines: each line followed by a line feed. */
  function Render(lines: seq<string>): (r: string)
    ensures |r| >= |lines|
  {
    if lines == [] then [] else lines[0] + "\n" + Render(lines[1..])
  }

  /** Cuts a text after every line feed; a last piece without one is kept. */
  function SplitLines(s: string): (ls: seq<string>)
    ensures forall i :: 0 <= i < |ls| ==> '\n' !in ls[i]
    decreases |s|
  {
    if s == [] then []
    else
      var n := LineLen(s);
      if n == |s| then
        assert s[..n] == s;
        [s]
      else [s[..n]] + SplitLines(s[n + 1..])
  }

  /** Rendering distributes over concatenation of line lists. */
  lemma {:induction false} RenderAppend(a: seq<string>, b: seq<string>)
    ensures Render(a + b) == Render(a) + Render(b)
  {
    if a == [] {
      assert a + b == b;
    } else {
      assert (a + b)[1..] == a[1..] + b;
      RenderAppend(a[1..], b);
    }
  }

  /** Lines without a line feed are recovered from their text by splitting it. */
  lemma {:induction false} SplitRender(ls: seq<string>)
    ensures (forall i :: 0 <= i < |ls| ==> '\n' !in ls[i]) ==> SplitLines(Render(ls)) == ls
  {
    if ls != [] && forall i :: 0 <= i < |ls| ==> '\n' !in ls[i] {
      var s := Render(ls);
      var tail := Render(ls[1..]);
      assert s == ls[0] + ("\n" + tail);
      LineLenOf(ls[0], "\n" + tail);
      assert s[..|ls[0]|] == ls[0];
      assert s[|ls[0]| + 1..] == tail;
      SplitRender(ls[1..]);
    }
  }

  /** Appending two lines one at a time appends them as one block. */
  lemma AppendedTwo(x: seq<string>, ys: seq<string>)
    requires |ys| == 2
    ensures x + [ys[0]] + [ys[1]] == x + ys
  {
  }

  lemma AppendedFive(x: seq<string>, ys: seq<string>)
    requires |ys| == 5
    ensures x + [ys[0]] + [ys[1]] + [ys[2]] + [ys[3]] + [ys[4]] == x + ys
  {
  }

  lemma AppendedSeven(x: seq<string>, ys: seq<string>)
    requires |ys| == 7
    ensures x + [ys[0]] + [ys[1]] + [ys[2]] + [ys[3]] + [ys[4]] + [ys[5]] + [ys[6]] == x + ys
  {
  }

  lemma AppendAssoc(a: seq<string>, b: seq<string>, c: seq<string>)
    ensures a + b + c == a + (b + c)
  {
  }

  lemma RegroupNine(x: seq<string>, a: seq<string>, b: seq<string>, c: seq<string>, d: seq<string>,
                    e: seq<string>, f: seq<string>, g: seq<string>, h: seq<string>, i: seq<string>)
    ensures x + a + b + c + d + e + f + g + h + i == x + (a + b + c + d + e + f + g + h + i)
  {
  }

  lemma AppendedEight(x: seq<string>, ys: seq<string>)
    requires |ys| == 8
    ensures x + [ys[0]] + [ys[1]] + [ys[2]] + [ys[3]] + [ys[4]] + [ys[5]] + [ys[6]] + [ys[7]] == x + ys
  {
  }

  /** The `StringBuilder` the generator appends to, one line at a time. */
  class SourceBuilder {
    var lines: seq<string>

    constructor()
      ensures lines == []
    {
      lines := [];
    }

    /** `AppendLine(line)`; `AppendLine()` is `AppendLine("")`. */
    method AppendLine(line: string)
      modifies this
      ensures lines == old(lines) + [line]
    {
      lines := lines + [line];
    }

    /** `ToString()`: splitting the text again gives back the lines appended. */
    function ToString(): (r: string)
      reads this
      ensures (forall i :: 0 <= i < |lines| ==> '\n' !in lines[i]) ==> SplitLines(r) == lines
    {
      SplitRender(lines);
      Render(lines)
    }
  }

  // ---------------------------------------------------------------------------
  // The Input class
  // ---------------------------------------------------------------------------

  /** The start of every property declaration line of the `Input` class. */
  const DeclPrefix := "            public "

  /** The declaration of one parameter's property: mapped type, name unchanged. */
  function PropertyDecl(p: Param): (line: string)
    ensures |line| > |DeclPrefix| && line[..|DeclPrefix|] == DeclPrefix
  {
    DeclPrefix + MapSqlTypeToCSharp(p.sqlType) + " " + p.name + " { get; set; }"
  }

  const PropertySummaryOpen := "            /// <summary>"
  const PropertySummaryClose := "            /// </summary>"

  /** The summary line naming a parameter. */
  function PropertyComment(name: string): string {
    "            /// The " + name + " parameter."
  }

  /** The five lines of a property: its summary, its declaration and a blank line. */
  function PropertyLinesOf(comment: string, decl: string): seq<string> {
    [PropertySummaryOpen, comment, PropertySummaryClose, decl, ""]
  }

  /** The five lines emitted for one parameter. */
  function PropertyBlock(p: Param): seq<string> {
    PropertyLinesOf(PropertyComment(p.name), PropertyDecl(p))
  }

  /** The lines of every item in turn. */
  function Flatten<T>(xs: seq<T>, f: T -> seq<string>): seq<string> {
    if xs == [] then [] else Flatten(xs[..|xs| - 1], f) + f(xs[|xs| - 1])
  }

  /** One line per item, in order. */
  function MapLines<T>(xs: seq<T>, g: T -> string): (ls: seq<string>)
    ensures |ls| == |xs|
  {
    if xs == [] then [] else MapLines(xs[..|xs| - 1], g) + [g(xs[|xs| - 1])]
  }

  /** The five lines per parameter of the `Input` class. */
  function PropertyLines(ps: seq<Param>): (ls: seq<string>)
    ensures |ls| == 5 * |ps|
  {
    FlattenShape(ps, PropertyBlock);
    Flatten(ps, PropertyBlock)
  }

  const InputHeader: seq<string> := [
    "        /// <summary>",
    "        /// Input parameters for the query.",
    "        /// </summary>",
    "        public class Input",
    "        {"
  ]

  const InputFooter: seq<string> := ["        }", ""]

  /** Everything `GenerateInputClass` appends. */
  function InputClassLines(ps: seq<Param>): (ls: seq<string>)
    ensures |ls| == 7 + 5 * |ps|
  {
    InputHeader + PropertyLines(ps) + InputFooter
  }

  /** With five lines per item, item `k` owns lines `5k` to `5k+4`. */
  lemma {:induction false} FlattenShape<T>(xs: seq<T>, f: T -> seq<string>)
    requires forall x :: |f(x)| == 5
    ensures |Flatten(xs, f)| == 5 * |xs|
    ensures forall k, j :: 0 <= k < |xs| && 0 <= j < 5 ==> Flatten(xs, f)[5 * k + j] == f(xs[k])[j]
  {
    if xs != [] {
      var init := xs[..|xs| - 1];
      FlattenShape(init, f);
      forall k, j | 0 <= k < |xs| && 0 <= j < 5
        ensures Flatten(xs, f)[5 * k + j] == f(xs[k])[j]
      {
        if k < |init| {
          assert init[k] == xs[k];
        }
      }
    }
  }

  lemma {:induction false} MapLinesIndex<T>(xs: seq<T>, g: T -> string)
    ensures forall k :: 0 <= k < |xs| ==> MapLines(xs, g)[k] == g(xs[k])
  {
    if xs != [] {
      var init := xs[..|xs| - 1];
      MapLinesIndex(init, g);
      assert forall k :: 0 <= k < |init| ==> init[k] == xs[k];
    }
  }

  /**
    The `Input` section is `7 + 5n` lines long; the declaration of parameter
    `k` is its line `8 + 5k`, and the comment above it names the parameter.
   */
  lemma InputClassShape(ps: seq<Param>)
    ensures |InputClassLines(ps)| == 7 + 5 * |ps|
    ensures forall k :: 0 <= k < |ps| ==> InputClassLines(ps)[8 + 5 * k] == PropertyDecl(ps[k])
    ensures forall k :: 0 <= k < |ps| ==> InputClassLines(ps)[6 + 5 * k] == PropertyComment(ps[k].name)
  {
    forall k | 0 <= k < |ps|
      ensures InputClassLines(ps)[8 + 5 * k] == PropertyDecl(ps[k])
      ensures InputClassLines(ps)[6 + 5 * k] == PropertyComment(ps[k].name)
    {
      InputLinesAt(ps, k);
    }
  }

  /** The comment and the declaration of parameter `k` in the `Input` section. */
  lemma InputLinesAt(ps: seq<Param>, k: int)
    requires 0 <= k < |ps|
    ensures InputClassLines(ps)[6 + 5 * k] == PropertyComment(ps[k].name)
    ensures InputClassLines(ps)[8 + 5 * k] == PropertyDecl(ps[k])
  {
    PropertyLinesAt(ps, k);
    assert |InputHeader| == 5;
    FramedAt(InputClassLines(ps), InputHeader, PropertyLines(ps), InputFooter, 5, 5 * k + 1);
    FramedAt(InputClassLines(ps), InputHeader, PropertyLines(ps), InputFooter, 5, 5 * k + 3);
  }

  /** Line `j` of the middle part, when the first part is `hl` lines long. */
  lemma FramedAt(all: seq<string>, h: seq<string>, m: seq<string>, f: seq<string>, hl: int, j: int)
    requires all == h + m + f && |h| == hl
    requires 0 <= j < |m|
    ensures all[hl + j] == m[j]
  {
  }

  /** Parameter `k` has its comment on line `5k + 1` of the properties and its declaration on line `5k + 3`. */
  lemma {:induction false} PropertyLinesAt(ps: seq<Param>, k: int)
    requires 0 <= k < |ps|
    ensures |PropertyLines(ps)| == 5 * |ps|
    ensures PropertyLines(ps)[5 * k + 1] == PropertyComment(ps[k].name)
    ensures PropertyLines(ps)[5 * k + 3] == PropertyDecl(ps[k])
  {
    var init := ps[..|ps| - 1];
    var b := PropertyBlock(ps[|ps| - 1]);
    assert PropertyLines(ps) == PropertyLines(init) + b;
    if k < |init| {
      PropertyLinesAt(init, k);
      assert init[k] == ps[k];
    } else {
      if init != [] {
        PropertyLinesAt(init, 0);
      }
    }
  }

  /** A line that declares a property of the `Input` class. */
  predicate IsPropertyDecl(line: string) {
    |line| >= |DeclPrefix| && line[..|DeclPrefix|] == DeclPrefix
  }

  /** The property declarations among `lines`, in order. */
  function Declarations(lines: seq<string>): seq<string> {
    if lines == [] then []
    else
      var last := lines[|lines| - 1];
      Declarations(lines[..|lines| - 1]) + (if IsPropertyDecl(last) then [last] else [])
  }

  lemma {:induction false} DeclarationsAppend(a: seq<string>, b: seq<string>)
    ensures Declarations(a + b) == Declarations(a) + Declarations(b)
    decreases |b|
  {
    if b == [] {
      assert a + b == a;
    } else {
      assert (a + b)[..|a + b| - 1] == a + b[..|b| - 1];
      DeclarationsAppend(a, b[..|b| - 1]);
    }
  }

  /** A line that differs from the declaration prefix somewhere is no declaration. */
  lemma NotDeclAt(line: string, k: nat)
    requires k < |DeclPrefix| && k < |line| && line[k] != DeclPrefix[k]
    ensures !IsPropertyDecl(line)
  {
    assert |line| < |DeclPrefix| || line[..|DeclPrefix|][k] == line[k];
  }

  lemma FiveWithoutDecl(a: string, b: string, c: string, d: string, e: string)
    requires !IsPropertyDecl(a) && !IsPropertyDecl(b) && !IsPropertyDecl(c)
    requires !IsPropertyDecl(d) && !IsPropertyDecl(e)
    ensures Declarations([a, b, c, d, e]) == []
  {
    var ls := [a, b, c, d, e];
    assert ls[..4][..3] == ls[..3] && ls[..3][..2] == ls[..2] && ls[..2][..1] == ls[..1];
    assert ls[..1][..0] == [];
    assert Declarations(ls[..1]) == [];
    assert Declarations(ls[..2]) == [];
    assert Declarations(ls[..3]) == [];
    assert Declarations(ls[..4]) == [];
    assert ls[..5] == ls;
  }

  lemma FiveWithOneDecl(a: string, b: string, c: string, d: string, e: string)
    requires !IsPropertyDecl(a) && !IsPropertyDecl(b) && !IsPropertyDecl(c)
    requires IsPropertyDecl(d) && !IsPropertyDecl(e)
    ensures Declarations([a, b, c, d, e]) == [d]
  {
    var ls := [a, b, c, d, e];
    assert ls[..4][..3] == ls[..3] && ls[..3][..2] == ls[..2] && ls[..2][..1] == ls[..1];
    assert ls[..1][..0] == [];
    assert Declarations(ls[..1]) == [];
    assert Declarations(ls[..2]) == [];
    assert Declarations(ls[..3]) == [];
    assert Declarations(ls[..4]) == [d];
    assert ls[..5] == ls;
  }

  lemma {:induction false} PropertyBlockDecls(p: Param)
    ensures Declarations(PropertyBlock(p)) == [PropertyDecl(p)]
  {
    NotDeclAt(PropertySummaryOpen, 12);
    NotDeclAt(PropertyComment(p.name), 12);
    NotDeclAt(PropertySummaryClose, 12);
    assert IsPropertyDecl(PropertyDecl(p));
    assert !IsPropertyDecl("");
    FiveWithOneDecl(PropertySummaryOpen, PropertyComment(p.name), PropertySummaryClose, PropertyDecl(p), "");
  }

  /** Items that each contribute one declaration contribute them in order. */
  lemma {:induction false} FlattenDecls<T>(xs: seq<T>, f: T -> seq<string>, g: T -> string)
    requires forall x :: Declarations(f(x)) == [g(x)]
    ensures Declarations(Flatten(xs, f)) == MapLines(xs, g)
  {
    if xs != [] {
      var init := xs[..|xs| - 1];
      FlattenDecls(init, f, g);
      DeclarationsAppend(Flatten(init, f), f(xs[|xs| - 1]));
    }
  }

  /** Declarations in a frame without any are the declarations of its body. */
  lemma DeclarationsFramed(h: seq<string>, body: seq<string>, t: seq<string>)
    requires Declarations(h) == [] && Declarations(t) == []
    ensures Declarations(h + body + t) == Declarations(body)
  {
    DeclarationsAppend(h, body);
    DeclarationsAppend(h + body, t);
  }

  lemma InputFrameHasNoDecls()
    ensures Declarations(InputHeader) == []
    ensures Declarations(InputFooter) == []
  {
    NotDeclAt(InputHeader[0], 8);
    NotDeclAt(InputHeader[1], 8);
    NotDeclAt(InputHeader[2], 8);
    NotDeclAt(InputHeader[3], 8);
    NotDeclAt(InputHeader[4], 8);
    FiveWithoutDecl(InputHeader[0], InputHeader[1], InputHeader[2], InputHeader[3], InputHeader[4]);
    assert InputHeader == [InputHeader[0], InputHeader[1], InputHeader[2], InputHeader[3], InputHeader[4]];
    NotDeclAt(InputFooter[0], 8);
    assert InputFooter[..1][..0] == [];
    assert InputFooter[..1] == [InputFooter[0]];
  }

  /**
    The `Input` class declares exactly one property per parameter, in
    parameter order, and no other line of the section is a declaration.
   */
  lemma InputClassDeclarations(ps: seq<Param>)
    ensures |Declarations(InputClassLines(ps))| == |ps|
    ensures forall k :: 0 <= k < |ps| ==> Declarations(InputClassLines(ps))[k] == PropertyDecl(ps[k])
  {
    InputFrameHasNoDecls();
    DeclarationsFramed(InputHeader, PropertyLines(ps), InputFooter);
    forall p: Param
      ensures Declarations(PropertyBlock(p)) == [PropertyDecl(p)]
    {
      PropertyBlockDecls(p);
    }
    FlattenDecls(ps, PropertyBlock, PropertyDecl);
    MapLinesIndex(ps, PropertyDecl);
  }

  /** The summary and opening of the `Input` class. */
  method AppendInputHeader(sb: SourceBuilder)
    modifies sb
    ensures sb.lines == old(sb.lines) + InputHeader
  {
    sb.AppendLine("        /// <summary>");
    sb.AppendLine("        /// Input parameters for the query.");
    sb.AppendLine("        /// </summary>");
    sb.AppendLine("        public class Input");
    sb.AppendLine("        {");
    AppendedFive(old(sb.lines), InputHeader);
  }

  /** The property template of the loop in `GenerateInputClass`, given its two varying lines. */
  method AppendProperty(sb: SourceBuilder, comment: string, decl: string)
    modifies sb
    ensures sb.lines == old(sb.lines) + PropertyLinesOf(comment, decl)
  {
    sb.AppendLine(PropertySummaryOpen);
    sb.AppendLine(comment);
    sb.AppendLine(PropertySummaryClose);
    sb.AppendLine(decl);
    sb.AppendLine("");
    AppendedFive(old(sb.lines), PropertyLinesOf(comment, decl));
  }

  /** `GenerateInputClass`: the header, five lines per parameter, the footer. */
  method GenerateInputClass(sb: SourceBuilder, parameters: seq<Param>)
    modifies sb
    ensures sb.lines == old(sb.lines) + InputClassLines(parameters)
  {
    AppendInputHeader(sb);
    for i := 0 to |parameters|
      invariant sb.lines == old(sb.lines) + InputHeader + PropertyLines(parameters[..i])
    {
      var param := parameters[i];
      var csharpType := MapSqlTypeToCSharp(param.sqlType);
      AppendProperty(sb, "            /// The " + param.name + " parameter.",
                     "            public " + csharpType + " " + param.name + " { get; set; }");
      assert parameters[..i + 1][..i] == parameters[..i];
      AppendAssoc(old(sb.lines) + InputHeader, PropertyLines(parameters[..i]), PropertyBlock(param));
    }

    ghost var before := sb.lines;
    sb.AppendLine("        }");
    sb.AppendLine("");
    AppendedTwo(before, InputFooter);
    assert parameters[..|parameters|] == parameters;
    AppendAssoc(old(sb.lines) + InputHeader, PropertyLines(parameters), InputFooter);
    AppendAssoc(old(sb.lines), InputHeader, PropertyLines(parameters) + InputFooter);
  }

  // ---------------------------------------------------------------------------
  // The Dapper extension methods
  // ---------------------------------------------------------------------------

  /** The four forwarding methods, in the order they are emitted. */
  datatype Helper = Query | QueryAsync | QuerySingle | QuerySingleAsync

  /** The row type: the `result:` value, or `dynamic` when there is none. */
  function RowType(resultType: string): string {
    if resultType == "" then "dynamic" else resultType
  }

  /** How each helper wraps the row type: a sequence, a task, or both. */
  function Wrap(h: Helper, row: string): string {
    match h
    case Query => "IEnumerable<" + row + ">"
    case QueryAsync => "Task<IEnumerable<" + row + ">>"
    case QuerySingle => row
    case QuerySingleAsync => "Task<" + row + ">"
  }

  /** The reference return type of each helper. */
  function ReturnType(h: Helper, resultType: string): string {
    Wrap(h, RowType(resultType))
  }

  /** The generic argument of the forwarded Dapper call. */
  function GenericArg(resultType: string): (g: string)
    ensures g == "" <==> resultType == ""
  {
    if resultType == "" then "" else "<" + resultType + ">"
  }

  const SignatureTail := ".Input parameters, IDbTransaction transaction = null, int? commandTimeout = null)"

  const ForwardTail := ".Sql, parameters, transaction, commandTimeout: commandTimeout);"

  function SummaryLine(h: Helper, className: string): string {
    match h
    case Query => "        /// Executes the " + className + " and returns the results."
    case QueryAsync => "        /// Executes the " + className + " asynchronously and returns the results."
    case QuerySingle => "        /// Executes the " + className + " and returns a single result."
    case QuerySingleAsync => "        /// Executes the " + className + " asynchronously and returns a single result."
  }

  /** The declaration of a forwarding method with the given return type. */
  function SignatureLine(h: Helper, returnType: string, className: string): string {
    match h
    case Query =>
      "        public static " + returnType + " Query(this IDbConnection connection, " + className + SignatureTail
    case QueryAsync =>
      "        public static " + returnType + " QueryAsync(this IDbConnection connection, " + className + SignatureTail
    case QuerySingle =>
      "        public static " + returnType + " QuerySingle(this IDbConnection connection, " + className + SignatureTail
    case QuerySingleAsync =>
      "        public static " + returnType + " QuerySingleAsync(this IDbConnection connection, " + className + SignatureTail
  }

  /** The call a forwarding method makes, with the given generic argument. */
  function ForwardLine(h: Helper, genericArg: string, className: string): string {
    match h
    case Query => "            return connection.Query" + genericArg + "(" + className + ForwardTail
    case QueryAsync => "            return connection.QueryAsync" + genericArg + "(" + className + ForwardTail
    case QuerySingle => "            return connection.QuerySingle" + genericArg + "(" + className + ForwardTail
    case QuerySingleAsync => "            return connection.QuerySingleAsync" + genericArg + "(" + className + ForwardTail
  }

  const MethodSummaryOpen := "        /// <summary>"
  const MethodSummaryClose := "        /// </summary>"
  const MethodBodyOpen := "        {"
  const MethodBodyClose := "        }"

  /** The seven lines of a forwarding method: its summary, its declaration and its one call. */
  function MethodLines(summary: string, signature: string, call: string): seq<string> {
    [MethodSummaryOpen, summary, MethodSummaryClose, signature, MethodBodyOpen, call, MethodBodyClose]
  }

  /** The forwarding method of a helper with the given return type and generic argument. */
  function ForwardingMethod(h: Helper, className: string, returnType: string, genericArg: string): seq<string> {
    MethodLines(SummaryLine(h, className), SignatureLine(h, returnType, className), ForwardLine(h, genericArg, className))
  }

  /** The reference lines of each forwarding method. */
  function HelperBlock(h: Helper, className: string, resultType: string): (b: seq<string>)
    ensures |b| == 7
  {
    ForwardingMethod(h, className, ReturnType(h, resultType), GenericArg(resultType))
  }

  const ExtensionHeader: seq<string> := [
    "    /// <summary>",
    "    /// Extension methods for executing the query with Dapper.",
    "    /// </summary>",
    "    public static partial class DapperExtensions",
    "    {"
  ]

  /** Everything `GenerateDapperExtensions` appends: the last method has no blank line after it. */
  function ExtensionLines(className: string, resultType: string): (ls: seq<string>)
    ensures |ls| == 37
  {
    ExtensionHeader +
    HelperBlock(Query, className, resultType) + [""] +
    HelperBlock(QueryAsync, className, resultType) + [""] +
    HelperBlock(QuerySingle, className, resultType) + [""] +
    HelperBlock(QuerySingleAsync, className, resultType) + ["    }"]
  }

  /** Where the lines of four seven-line blocks land after a five-line header. */
  lemma BlockLayout(hd: seq<string>, b0: seq<string>, b1: seq<string>, b2: seq<string>, b3: seq<string>,
                    sep: string, close: string)
    requires |hd| == 5 && |b0| == 7 && |b1| == 7 && |b2| == 7 && |b3| == 7
    ensures var all := hd + b0 + [sep] + b1 + [sep] + b2 + [sep] + b3 + [close];
      |all| == 37 &&
      all[8] == b0[3] && all[10] == b0[5] && all[16] == b1[3] && all[18] == b1[5] &&
      all[24] == b2[3] && all[26] == b2[5] && all[32] == b3[3] && all[34] == b3[5]
  {
  }

  /**
    The extension block is 37 lines long whatever the result type; the
    helpers follow one another eight lines apart (Query, QueryAsync,
    QuerySingle, QuerySingleAsync), each with its signature, carrying the
    reference return type, on line `8 + 8i` and its forwarding call on line
    `10 + 8i`.
   */
  lemma ExtensionShape(className: string, resultType: string)
    ensures var all := ExtensionLines(className, resultType);
      |all| == 37 &&
      all[8] == SignatureLine(Query, ReturnType(Query, resultType), className) &&
      all[10] == ForwardLine(Query, GenericArg(resultType), className) &&
      all[16] == SignatureLine(QueryAsync, ReturnType(QueryAsync, resultType), className) &&
      all[18] == ForwardLine(QueryAsync, GenericArg(resultType), className) &&
      all[24] == SignatureLine(QuerySingle, ReturnType(QuerySingle, resultType), className) &&
      all[26] == ForwardLine(QuerySingle, GenericArg(resultType), className) &&
      all[32] == SignatureLine(QuerySingleAsync, ReturnType(QuerySingleAsync, resultType), className) &&
      all[34] == ForwardLine(QuerySingleAsync, GenericArg(resultType), className)
  {
    HelperBlockLines(Query, className, resultType);
    HelperBlockLines(QueryAsync, className, resultType);
    HelperBlockLines(QuerySingle, className, resultType);
    HelperBlockLines(QuerySingleAsync, className, resultType);
    BlockLayout(ExtensionHeader,
      HelperBlock(Query, className, resultType), HelperBlock(QueryAsync, className, resultType),
      HelperBlock(QuerySingle, className, resultType), HelperBlock(QuerySingleAsync, className, resultType),
      "", "    }");
  }

  /** A helper's declaration is the fourth line of its block and its call the sixth. */
  lemma HelperBlockLines(h: Helper, className: string, resultType: string)
    ensures HelperBlock(h, className, resultType)[3] == SignatureLine(h, ReturnType(h, resultType), className)
    ensures HelperBlock(h, className, resultType)[5] == ForwardLine(h, GenericArg(resultType), className)
  {
  }

  lemma WrapInjective(h: Helper, a: string, b: string)
    requires Wrap(h, a) == Wrap(h, b)
    ensures a == b
  {
    var wa := Wrap(h, a);
    var wb := Wrap(h, b);
    match h
    case Query =>
      assert a == wa[12..|wa| - 1] && b == wb[12..|wb| - 1];
    case QueryAsync =>
      assert a == wa[17..|wa| - 2] && b == wb[17..|wb| - 2];
    case QuerySingle =>
    case QuerySingleAsync =>
      assert a == wa[5..|wa| - 1] && b == wb[5..|wb| - 1];
  }

  /**
    Without a result type every helper returns `dynamic` rows; with one, the
    return types name it. A result type literally named `dynamic` gives the
    same return types as none (but still a generic argument).
   */
  lemma ReturnTypesFollowResult(h: Helper, resultType: string)
    ensures ReturnType(h, resultType) == Wrap(h, "dynamic") <==> resultType == "" || resultType == "dynamic"
    ensures resultType != "" ==> ReturnType(h, resultType) == Wrap(h, resultType)
  {
    if ReturnType(h, resultType) == Wrap(h, "dynamic") {
      WrapInjective(h, RowType(resultType), "dynamic");
    }
  }

  /**
    The four conditionals of `GenerateDapperExtensions`, each written with
    its own literal for the case without a result type, agree with the
    reference return type.
   */
  lemma SourceReturnTypes(resultType: string)
    ensures (if resultType == "" then "IEnumerable<dynamic>" else "IEnumerable<" + resultType + ">")
      == ReturnType(Query, resultType)
    ensures (if resultType == "" then "Task<IEnumerable<dynamic>>" else "Task<IEnumerable<" + resultType + ">>")
      == ReturnType(QueryAsync, resultType)
    ensures (if resultType == "" then "dynamic" else resultType) == ReturnType(QuerySingle, resultType)
    ensures (if resultType == "" then "Task<dynamic>" else "Task<" + resultType + ">")
      == ReturnType(QuerySingleAsync, resultType)
  {
  }

  /**
    One of the four copies of the forwarding-method template in
    `GenerateDapperExtensions`, given the summary, declaration and call that
    copy writes.
   */
  method AppendForwardingMethod(sb: SourceBuilder, summary: string, signature: string, call: string)
    modifies sb
    ensures sb.lines == old(sb.lines) + MethodLines(summary, signature, call)
  {
    sb.AppendLine(MethodSummaryOpen);
    sb.AppendLine(summary);
    sb.AppendLine(MethodSummaryClose);
    sb.AppendLine(signature);
    sb.AppendLine(MethodBodyOpen);
    sb.AppendLine(call);
    sb.AppendLine(MethodBodyClose);
    AppendedSeven(old(sb.lines), MethodLines(summary, signature, call));
  }

  /**
    `GenerateDapperExtensions`: four forwarding methods in a static class.
    The four return types are computed as the generator writes them, each
    with its own literal for the case without a result type, and the generic
    argument is written inline in every forwarding call.
   */
  method GenerateDapperExtensions(sb: SourceBuilder, className: string, resultType: string)
    modifies sb
    ensures sb.lines == old(sb.lines) + ExtensionLines(className, resultType)
  {
    sb.AppendLine("    /// <summary>");
    sb.AppendLine("    /// Extension methods for executing the query with Dapper.");
    sb.AppendLine("    /// </summary>");
    sb.AppendLine("    public static partial class DapperExtensions");
    sb.AppendLine("    {");
    AppendedFive(old(sb.lines), ExtensionHeader);

    var returnType := if resultType == "" then "IEnumerable<dynamic>" else "IEnumerable<" + resultType + ">";
    var asyncReturnType := if resultType == "" then "Task<IEnumerable<dynamic>>" else "Task<IEnumerable<" + resultType + ">>";
    var singleReturnType := if resultType == "" then "dynamic" else resultType;
    var asyncSingleReturnType := if resultType == "" then "Task<dynamic>" else "Task<" + resultType + ">";
    SourceReturnTypes(resultType);

    AppendForwardingMethod(sb, SummaryLine(Query, className), SignatureLine(Query, returnType, className),
      ForwardLine(Query, if resultType == "" then "" else "<" + resultType + ">", className));
    sb.AppendLine("");
    AppendForwardingMethod(sb, SummaryLine(QueryAsync, className), SignatureLine(QueryAsync, asyncReturnType, className),
      ForwardLine(QueryAsync, if resultType == "" then "" else "<" + resultType + ">", className));
    sb.AppendLine("");
    AppendForwardingMethod(sb, SummaryLine(QuerySingle, className), SignatureLine(QuerySingle, singleReturnType, className),
      ForwardLine(QuerySingle, if resultType == "" then "" else "<" + resultType + ">", className));
    sb.AppendLine("");
    AppendForwardingMethod(sb, SummaryLine(QuerySingleAsync, className), SignatureLine(QuerySingleAsync, asyncSingleReturnType, className),
      ForwardLine(QuerySingleAsync, if resultType == "" then "" else "<" + resultType + ">", className));
    sb.AppendLine("    }");
    RegroupNine(old(sb.lines), ExtensionHeader,
      HelperBlock(Query, className, resultType), [""], HelperBlock(QueryAsync, className, resultType), [""],
      HelperBlock(QuerySingle, className, resultType), [""], HelperBlock(QuerySingleAsync, className, resultType), ["    }"]);
  }
}
