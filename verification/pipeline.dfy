/**
  `Initialize`: the incremental pipeline of the generator.

  Every additional file whose path ends in `.sql`, in any letter case, is
  turned into one generated source named after its query class. The class
  name falls back on the file name without directory and extension. Paths
  use `/` as their only directory separator.
 */
module Pipeline {
  import opened Text
  import opened Parameters
  import opened Metadata
  import opened Assembler
  import opened Generator

  /** An additional file of the compilation: its path and its text. */
  datatype AdditionalText = AdditionalText(path: string, content: string)

  /** A source added to the compilation: its hint name and its text. */
  datatype GeneratedSource = GeneratedSource(hintName: string, sourceCode: string)

  /** `path.EndsWith(".sql", StringComparison.OrdinalIgnoreCase)`. */
  predicate IsSqlFile(path: string) {
    |path| >= 4 && ToLower(path[|path| - 4..]) == ".sql"
  }

  /** A path is a `.sql` file exactly when it ends in a dot and `s`, `q`, `l` in either case. */
  lemma SqlSuffixAnyCase(path: string)
    ensures IsSqlFile(path) <==>
      |path| >= 4 && path[|path| - 4] == '.' &&
      path[|path| - 3] in "sS" && path[|path| - 2] in "qQ" && path[|path| - 1] in "lL"
  {
    if |path| >= 4 {
      var ext := path[|path| - 4..];
      var low := ToLower(ext);
      assert low[0] == LowerChar(path[|path| - 4]) && low[1] == LowerChar(path[|path| - 3]);
      assert low[2] == LowerChar(path[|path| - 2]) && low[3] == LowerChar(path[|path| - 1]);
      if low == ".sql" {
        assert low[0] == '.' && low[1] == 's' && low[2] == 'q' && low[3] == 'l';
      }
    }
  }

  /** The index of the last `c` in `s`, or -1. */
  function LastIndexOf(s: string, c: char): (i: int)
    ensures -1 <= i < |s|
    ensures i >= 0 ==> s[i] == c
    ensures forall j :: i < j < |s| ==> s[j] != c
  {
    if s == [] then -1
    else if s[|s| - 1] == c then |s| - 1
    else LastIndexOf(s[..|s| - 1], c)
  }

  /** `Path.GetFileName`: the part of the path after its last `/`. */
  function FileName(path: string): (name: string)
    ensures '/' !in name
    ensures |name| <= |path| && path[|path| - |name|..] == name
    ensures |name| < |path| ==> path[|path| - |name| - 1] == '/'
  {
    var slash := LastIndexOf(path, '/');
    path[slash + 1..]
  }

  /**
    `Path.GetFileNameWithoutExtension`: the file name cut before its last
    `.`, or the whole file name when it has none.
   */
  function FileNameWithoutExtension(path: string): (stem: string)
    ensures '/' !in stem
    ensures |stem| <= |FileName(path)| && FileName(path)[..|stem|] == stem
    ensures |stem| < |FileName(path)| ==> FileName(path)[|stem|] == '.'
    ensures |stem| == |FileName(path)| ==> '.' !in FileName(path)
  {
    var name := FileName(path);
    var dot := LastIndexOf(name, '.');
    if dot < 0 then name else name[..dot]
  }

  lemma LowerCharDot(c: char)
    requires LowerChar(c) == '.'
    ensures c == '.'
  {
  }

  lemma LowerCharLetter(c: char, l: char)
    requires 'a' <= l <= 'z' && LowerChar(c) == l
    ensures c != '.' && c != '/'
  {
  }

  /**
    For a `.sql` file the stem is the file name without its last four
    characters: the extension is exactly the `.sql` the filter matched, in
    whatever letter case it was written.
   */
  lemma SqlFileStem(path: string)
    requires IsSqlFile(path)
    ensures FileNameWithoutExtension(path) + path[|path| - 4..] == FileName(path)
  {
    var ext := path[|path| - 4..];
    assert ToLower(ext)[0] == '.' && ToLower(ext)[1] == 's' && ToLower(ext)[2] == 'q' && ToLower(ext)[3] == 'l';
    LowerCharDot(ext[0]);
    LowerCharLetter(ext[1], 's');
    LowerCharLetter(ext[2], 'q');
    LowerCharLetter(ext[3], 'l');
    assert forall j :: |path| - 4 <= j < |path| ==> path[j] != '/';
    var name := FileName(path);
    assert |name| >= 4;
    assert name[|name| - 4..] == ext;
    assert forall j :: |name| - 4 < j < |name| ==> name[j] != '.';
    var dot := LastIndexOf(name, '.');
    assert dot == |name| - 4;
    assert name == name[..dot] + ext;
  }

  /** `$"{source.ClassName}.g.cs"`. */
  function HintName(className: string): string {
    className + ".g.cs"
  }

  /** Two classes share a hint name exactly when they share a name. */
  lemma HintNameInjective(a: string, b: string)
    ensures HintName(a) == HintName(b) <==> a == b
  {
    if HintName(a) == HintName(b) {
      assert |a| == |b|;
      assert a == HintName(a)[..|a|] && b == HintName(b)[..|b|];
    }
  }

  /** The query class generated for a file: its query name followed by `Query`. */
  function ClassNameFor(file: AdditionalText): string {
    QueryName(file.content, FileNameWithoutExtension(file.path)) + "Query"
  }

  /**
    The source generated for one `.sql` file. `summary` stands for the value
    the generator reads for the class summary, which depends only on the SQL
    text.
   */
  function SourceFor(ns: string, file: AdditionalText, summary: string -> string): GeneratedSource {
    var className := ClassNameFor(file);
    GeneratedSource(
      HintName(className),
      Render(SourceLines(ns, className, summary(file.content), Cleanup(file.content),
                         Dedup(Matches(file.content)), ResultType(file.content))))
  }

  /** The `.sql` files among the additional files, in order. */
  function SqlFiles(files: seq<AdditionalText>): (sql: seq<AdditionalText>)
    ensures |sql| <= |files|
    ensures forall f :: f in sql <==> f in files && IsSqlFile(f.path)
  {
    if files == [] then []
    else
      var pre := SqlFiles(files[..|files| - 1]);
      var last := files[|files| - 1];
      assert files == files[..|files| - 1] + [last];
      if IsSqlFile(last.path) then pre + [last] else pre
  }

  /** `f` applied to each `.sql` file, in the order of the files. */
  function MapSqlFiles<T>(files: seq<AdditionalText>, f: AdditionalText -> T): seq<T> {
    if files == [] then []
    else
      var pre := MapSqlFiles(files[..|files| - 1], f);
      var last := files[|files| - 1];
      if IsSqlFile(last.path) then pre + [f(last)] else pre
  }

  /** One result per `.sql` file, in the order of the files. */
  lemma {:induction false} MapSqlFilesFollowsFilter<T>(files: seq<AdditionalText>, f: AdditionalText -> T)
    ensures |MapSqlFiles(files, f)| == |SqlFiles(files)|
    ensures forall k :: 0 <= k < |SqlFiles(files)| ==> MapSqlFiles(files, f)[k] == f(SqlFiles(files)[k])
  {
    if files != [] {
      MapSqlFilesFollowsFilter(files[..|files| - 1], f);
    }
  }

  /** The sources the pipeline adds for a batch of additional files. */
  function Outputs(ns: string, files: seq<AdditionalText>, summary: string -> string): seq<GeneratedSource> {
    MapSqlFiles(files, file => SourceFor(ns, file, summary))
  }

  /** One generated source per `.sql` file, in the order of the files. */
  lemma OutputsFollowSqlFiles(ns: string, files: seq<AdditionalText>, summary: string -> string)
    ensures |Outputs(ns, files, summary)| == |SqlFiles(files)|
    ensures forall k :: 0 <= k < |SqlFiles(files)| ==>
      Outputs(ns, files, summary)[k] == SourceFor(ns, SqlFiles(files)[k], summary)
  {
    MapSqlFilesFollowsFilter(files, file => SourceFor(ns, file, summary));
  }

  /**
    The pipeline over a batch of additional files: filter the `.sql` files,
    generate each one's source, and add it under its hint name.
   */
  method Initialize(ns: string, files: seq<AdditionalText>, summary: string -> string)
    returns (sources: seq<GeneratedSource>)
    ensures sources == Outputs(ns, files, summary)
  {
    sources := [];
    for i := 0 to |files|
      invariant sources == Outputs(ns, files[..i], summary)
    {
      var file := files[i];
      assert files[..i + 1] == files[..i] + [file];
      if IsSqlFile(file.path) {
        var fileName := FileNameWithoutExtension(file.path);
        var className, sourceCode := GenerateSource(ns, fileName, file.content, summary(file.content));
        sources := sources + [GeneratedSource(HintName(className), sourceCode)];
      }
    }
    assert files[..|files|] == files;
  }

  lemma ClassNameDefault(file: AdditionalText)
    requires !HasHeader(file.content, "name")
    ensures ClassNameFor(file) == FileNameWithoutExtension(file.path) + "Query"
  {
  }

  /**
    A `.sql` file without a `name` header gives the hint name made of its
    stem and `Query.g.cs`, so `Foo.sql` and `foo/Foo.SQL` give `FooQuery.g.cs`.
   */
  lemma HintNameFromFile(file: AdditionalText)
    requires IsSqlFile(file.path) && !HasHeader(file.content, "name")
    ensures HintName(ClassNameFor(file)) == FileNameWithoutExtension(file.path) + "Query" + ".g.cs"
    ensures FileNameWithoutExtension(file.path) + file.path[|file.path| - 4..] == FileName(file.path)
  {
    SqlFileStem(file.path);
    ClassNameDefault(file);
  }

  /** Files that are not `.sql` files produce nothing, whatever their content. */
  lemma NonSqlFilesIgnored(ns: string, files: seq<AdditionalText>, summary: string -> string)
    requires forall f :: f in files ==> !IsSqlFile(f.path)
    ensures Outputs(ns, files, summary) == []
  {
    NoSqlFiles(files);
    OutputsFollowSqlFiles(ns, files, summary);
  }

  lemma {:induction false} NoSqlFiles(files: seq<AdditionalText>)
    requires forall f :: f in files ==> !IsSqlFile(f.path)
    ensures SqlFiles(files) == []
  {
    if files != [] {
      assert files[|files| - 1] in files;
      NoSqlFiles(files[..|files| - 1]);
    }
  }
}
