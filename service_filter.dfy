/** The file-selection rules of the snapshot service: gitignore-style
    pattern expansion, relative-path normalisation, directory deny rules,
    the include/ignore precedence and the fallback token estimate.

    Glob matching (`PurePosixPath.match`) is not modelled: every rule that
    matches a path against a pattern takes the matcher as the parameter
    `glob`, with `glob(path, pattern)` true when the path matches. */
module ServiceFilter {
  import opened Basics

  /** `DEFAULT_CODE_EXTENSIONS` */
  const CodeExtensions: set<string> := {
    ".py", ".pyi", ".pyw", ".js", ".jsx", ".ts", ".tsx", ".mjs", ".cjs", ".java",
    ".kt", ".kts", ".go", ".rb", ".rs", ".c", ".h", ".cpp", ".cc", ".cxx",
    ".hpp", ".hh", ".hxx", ".cs", ".swift", ".m", ".mm", ".php", ".scala", ".clj",
    ".cljs", ".hs", ".lua", ".r", ".jl", ".dart", ".sql", ".sh", ".bash", ".zsh",
    ".ps1", ".psm1", ".psd1", ".bat", ".cmd", ".fs", ".fsx", ".f90", ".f95", ".erl",
    ".ex", ".exs", ".vb", ".groovy", ".gradle", ".cmake", ".svelte", ".vue"
  }

  /** `ALWAYS_INCLUDE_FILENAMES` */
  const AlwaysIncludeFilenames: set<string> := {
    "Dockerfile", "Makefile", "CMakeLists.txt", "BUILD", "WORKSPACE", "Gemfile", "Rakefile", "Procfile"
  }

  /** `DEFAULT_DIRNAME_DENYLIST` of the service. */
  const DirnameDenylist: set<string> := {"node_modules", "vendor", "deps", "third_party", "__pycache__"}

  /** `DEFAULT_IGNORE_PATTERNS_RAW` of the service. */
  const IgnorePatternsRaw: seq<string> := [
    ".git/", ".hg/", ".svn/", ".idea/", ".vscode/", ".vs/", ".venv/", "venv/",
    ".mypy_cache/", ".pytest_cache/", "__pycache__/", "node_modules/", "bower_components/",
    "dist/", "build/", "coverage/", "logs/", "tmp/", "temp/", "deps/", "vendor/",
    "third_party/", ".gradle/", ".terraform/", ".next/", ".nuxt/", ".svelte-kit/",
    ".cache/", ".parcel-cache/", ".ruff_cache/", "public/build/", "public/dist/",
    "*.log", "*.tmp", "*.bak", "*.lock", "*.sqlite", "*.db", "*.sqlite3", "*.min.js",
    "*.min.css", "*.map", "*.png", "*.jpg", "*.jpeg", "*.gif", "*.svg", "*.ico",
    "*.bmp", "*.mp3", "*.mp4", "*.mov", "*.avi", "*.wav", "*.flac", "*.zip", "*.gz",
    "*.bz2", "*.xz", "*.7z", "*.tar", "*.tgz", "*.rar", "*.pdf"
  ]

  /** `DEFAULT_IGNORE_PATTERNS` */
  function DefaultIgnorePatterns(): seq<string> {
    Expanded(IgnorePatternsRaw)
  }

  /** `ProcessingOptions` */
  datatype ProcessingOptions = ProcessingOptions(
    ignorePatterns: seq<string>,
    includePatterns: seq<string>,
    allowedExtensions: set<string>,
    specialFilenames: set<string>,
    maxFileBytes: Option<int>,
    allowNonCode: bool)

  /** `to_posix_path`: every backslash becomes a slash. */
  function ToPosixPath(path: string): (r: string)
    ensures |r| == |path| && '\\' !in r
    ensures forall k :: 0 <= k < |path| && path[k] != '\\' ==> r[k] == path[k]
  {
    ReplaceChar(path, '\\', '/')
  }

  // ---------------------------------------------------------------------
  // Pattern expansion

  /** The local `add` of `_normalize_pattern`: append unless empty or
      already present. */
  function AddPattern(patterns: seq<string>, p: string): (r: seq<string>)
    ensures NoDup(patterns) ==> NoDup(r)
    ensures |patterns| <= |r| <= |patterns| + 1 && r[..|patterns|] == patterns
    ensures forall q :: q in r <==> q in patterns || (q == p && p != "")
  {
    if p != "" && p !in patterns then patterns + [p] else patterns
  }

  /** The line after `strip()` and removal of every leading `/`, or None
      for a blank line, a comment, or a line of slashes only. */
  function PatternBody(line: string): (r: Option<string>)
    ensures r.Some? ==> r.value != "" && r.value[0] != '/'
  {
    var s := Strip(line);
    if s == "" || StartsWith(s, "#") then None
    else
      var n := LStripChar(s, '/');
      if n == "" then None else Some(n)
  }

  /** `_normalize_pattern(line)` as the source writes it. */
  function NormalizePattern(line: string): seq<string> {
    match PatternBody(line)
    case None => []
    case Some(n) => NormalizeBody(n)
  }

  /** The `add` calls of `_normalize_pattern` on a pattern body. */
  function NormalizeBody(n: string): seq<string> {
    if EndsWith(n, "/") then
      var base := RStripChar(n, '/');
      if base == "" then ["**"]
      else
        var p := AddPattern(AddPattern([], base + "/**"), base + "/");
        if StartsWith(base, "**/") then p
        else AddPattern(AddPattern(p, "**/" + base + "/**"), "**/" + base + "/")
    else
      var p := AddPattern([], n);
      if StartsWith(n, "**/") then p else AddPattern(p, "**/" + n)
  }

  // The patterns a gitignore line stands for: a directory `x/` is `x/**`, `x/`, and unless `x` is already
  // anchored with `**/` also `**/x/**` and `**/x/`; a file pattern `p` is
  // `p`, and unless anchored also `**/p`.
  function Variants(n: string): seq<string> {
    if EndsWith(n, "/") then
      var base := RStripChar(n, '/');
      [base + "/**", base + "/"] + (if StartsWith(base, "**/") then [] else ["**/" + base + "/**", "**/" + base + "/"])
    else [n] + (if StartsWith(n, "**/") then [] else ["**/" + n])
  }

  /** A directory body expands to its four variants (two when anchored). */
  lemma DirectoryVariants(n: string)
    requires n != "" && n[0] != '/' && EndsWith(n, "/")
    ensures RStripChar(n, '/') != ""
    ensures var base := RStripChar(n, '/');
      AddPattern(AddPattern([], base + "/**"), base + "/") == [base + "/**", base + "/"]
    ensures var base := RStripChar(n, '/');
      AddPattern(AddPattern([base + "/**", base + "/"], "**/" + base + "/**"), "**/" + base + "/")
        == [base + "/**", base + "/", "**/" + base + "/**", "**/" + base + "/"]
  {
    var base := RStripChar(n, '/');
    var a, b, c, d := base + "/**", base + "/", "**/" + base + "/**", "**/" + base + "/";
    assert |a| == |base| + 3 && |b| == |base| + 1 && |c| == |base| + 6 && |d| == |base| + 4;
    assert AddPattern([], a) == [a];
    assert b !in [a];
    assert AddPattern([a], b) == [a, b];
    assert c !in [a, b];
    assert AddPattern([a, b], c) == [a, b, c];
    assert d !in [a, b, c];
  }

  /** Patterns of pairwise different lengths are pairwise different. */
  lemma DistinctLengths(s: seq<string>)
    requires forall i, j :: 0 <= i < j < |s| ==> |s[i]| != |s[j]|
    ensures NoDup(s)
  {
  }

  /** The four directory forms of a base are distinct and well formed. */
  lemma DirectoryFormsDistinct(base: string)
    requires base != "" && base[0] != '/'
    ensures var v := [base + "/**", base + "/", "**/" + base + "/**", "**/" + base + "/"];
      NoDup(v) && forall k :: 0 <= k < |v| ==> v[k] != "" && v[k][0] != '/'
  {
    var a, b, c, d := base + "/**", base + "/", "**/" + base + "/**", "**/" + base + "/";
    assert a[0] == base[0] && b[0] == base[0] && c[0] == '*' && d[0] == '*';
    DistinctLengths([a, b, c, d]);
  }

  /** The two file forms of a pattern are distinct and well formed. */
  lemma FileFormsDistinct(n: string)
    requires n != "" && n[0] != '/'
    ensures var v := [n, "**/" + n];
      NoDup(v) && forall k :: 0 <= k < |v| ==> v[k] != "" && v[k][0] != '/'
  {
    assert ("**/" + n)[0] == '*';
    DistinctLengths([n, "**/" + n]);
  }

  /** No variant is empty, starts with `/` or repeats. */
  lemma VariantsWellFormed(n: string)
    requires n != "" && n[0] != '/'
    ensures NoDup(Variants(n))
    ensures forall k :: 0 <= k < |Variants(n)| ==> Variants(n)[k] != "" && Variants(n)[k][0] != '/'
  {
    var v := Variants(n);
    if EndsWith(n, "/") {
      var base := RStripChar(n, '/');
      assert base != "" && base[0] == n[0] by {
        DirectoryVariants(n);
      }
      DirectoryFormsDistinct(base);
      var w := [base + "/**", base + "/", "**/" + base + "/**", "**/" + base + "/"];
      if StartsWith(base, "**/") {
        assert v == w[..2];
      } else {
        assert v == w;
      }
    } else {
      FileFormsDistinct(n);
      if StartsWith(n, "**/") {
        assert v == [n, "**/" + n][..1];
      } else {
        assert v == [n, "**/" + n];
      }
    }
  }

  /** On a pattern body the duplicate check of `add` never drops a
      variant, and the `["**"]` branch is never taken. */
  lemma NormalizeBodyVariants(n: string)
    requires n != "" && n[0] != '/'
    ensures NormalizeBody(n) == Variants(n)
  {
    if EndsWith(n, "/") {
      DirectoryBodyVariants(n);
    } else {
      FileBodyVariants(n);
    }
  }

  lemma DirectoryBodyVariants(n: string)
    requires n != "" && n[0] != '/' && EndsWith(n, "/")
    ensures NormalizeBody(n) == Variants(n)
  {
    DirectoryVariants(n);
    var base := RStripChar(n, '/');
    var a, b, c, d := base + "/**", base + "/", "**/" + base + "/**", "**/" + base + "/";
    var p := AddPattern(AddPattern([], a), b);
    assert p == [a, b];
    if StartsWith(base, "**/") {
      assert NormalizeBody(n) == p;
      assert Variants(n) == [a, b] + [];
    } else {
      assert NormalizeBody(n) == AddPattern(AddPattern(p, c), d);
      assert Variants(n) == [a, b] + [c, d];
    }
  }

  lemma FileBodyVariants(n: string)
    requires n != "" && !EndsWith(n, "/")
    ensures NormalizeBody(n) == Variants(n)
  {
    var m := "**/" + n;
    assert AddPattern([], n) == [n];
    if !StartsWith(n, "**/") {
      assert |m| == |n| + 3;
      assert AddPattern([n], m) == [n, m];
    }
  }

  /** `_normalize_pattern` yields nothing for blank lines, comments and
      lines of slashes only, and otherwise exactly the variants of the
      line with its leading slashes removed: the `["**"]` branch is never
      taken, the duplicate check of `add` never drops a variant, and no
      variant is empty, starts with `/` or repeats. */
  lemma NormalizePatternVariants(line: string)
    ensures PatternBody(line).None? ==> NormalizePattern(line) == []
    ensures PatternBody(line).Some? && EndsWith(PatternBody(line).value, "/") ==>
      RStripChar(PatternBody(line).value, '/') != ""
    ensures PatternBody(line).Some? ==> NormalizePattern(line) == Variants(PatternBody(line).value)
    ensures NoDup(NormalizePattern(line))
    ensures forall k :: 0 <= k < |NormalizePattern(line)| ==>
      NormalizePattern(line)[k] != "" && NormalizePattern(line)[k][0] != '/'
  {
    var body := PatternBody(line);
    if body.Some? {
      var n := body.value;
      if EndsWith(n, "/") {
        DirectoryVariants(n);
      }
      NormalizeBodyVariants(n);
      VariantsWellFormed(n);
    }
  }

  /** `expand_patterns` as a value: the per-line results in input order. */
  function Expanded(patterns: seq<string>): seq<string> {
    FlatMap(NormalizePattern, patterns)
  }

  /** Expanding the lines of two sources one after the other is expanding
      each and concatenating the results. */
  lemma ExpandedConcat(a: seq<string>, b: seq<string>)
    ensures Expanded(a + b) == Expanded(a) + Expanded(b)
  {
    FlatMapConcat(NormalizePattern, a, b);
  }

  /** `expand_patterns`: extends the result with each line's patterns. */
  method ExpandPatterns(patterns: seq<string>) returns (expanded: seq<string>)
    ensures expanded == Expanded(patterns)
  {
    expanded := [];
    var i := 0;
    while i < |patterns|
      invariant 0 <= i <= |patterns|
      invariant expanded == Expanded(patterns[..i])
    {
      FlatMapStep(NormalizePattern, patterns, i);
      var lines := NormalizePattern(patterns[i]);
      expanded := expanded + lines;
      i := i + 1;
    }
    assert patterns[..i] == patterns;
  }

  /** A root-anchored directory line such as `/build/` expands to the
      anchored and the nested forms of the directory. */
  lemma RootAnchoredDirectory(line: string, name: string)
    requires Strip(line) == "/" + name + "/"
    requires name != "" && name[0] != '/' && name[|name| - 1] != '/' && !StartsWith(name, "**/")
    ensures Expanded([line]) == [name + "/**", name + "/", "**/" + name + "/**", "**/" + name + "/"]
  {
    AnchoredDirectoryBody(line, name);
    NamedDirectoryVariants(name);
    NormalizePatternVariants(line);
    ExpandedSingle(line);
  }

  lemma AnchoredDirectoryBody(line: string, name: string)
    requires Strip(line) == "/" + name + "/" && name != "" && name[0] != '/'
    ensures PatternBody(line) == Some(name + "/")
  {
    var t := name + "/";
    var s := "/" + t;
    assert "/" + name + "/" == s;
    assert s[1..] == t && s[1] == name[0];
    AnchoredBody(line, s);
  }

  lemma NamedDirectoryVariants(name: string)
    requires name != "" && name[|name| - 1] != '/' && !StartsWith(name, "**/")
    ensures Variants(name + "/") == [name + "/**", name + "/", "**/" + name + "/**", "**/" + name + "/"]
  {
    RStripOne(name, '/');
    assert EndsWith(name + "/", "/");
  }

  lemma ExpandedSingle(line: string)
    ensures Expanded([line]) == NormalizePattern(line)
  {
    FlatMapStep(NormalizePattern, [line], 0);
    assert [line][..1] == [line] && [line][..0] == [];
  }

  /** `rstrip(c)` of a string with exactly one trailing `c`. */
  lemma RStripOne(s: string, c: char)
    requires s != [] && s[|s| - 1] != c
    ensures RStripChar(s + [c], c) == s
  {
    assert (s + [c])[..|s|] == s;
  }

  /** A line whose stripped form has one leading slash has the rest as its
      body. */
  lemma AnchoredBody(line: string, s: string)
    requires Strip(line) == s && |s| >= 2 && s[0] == '/' && s[1] != '/'
    ensures PatternBody(line) == Some(s[1..])
  {
    LStripOne(s, '/');
  }

  /** `lstrip(c)` of a string with exactly one leading `c`. */
  lemma LStripOne(s: string, c: char)
    requires |s| >= 2 && s[0] == c && s[1] != c
    ensures LStripChar(s, c) == s[1..]
  {
    assert LStripChar(s[1..], c) == s[1..];
  }

  // ---------------------------------------------------------------------
  // Relative paths

  /** `normalize_relative_path`: `""` and `"."` become `""`, backslashes
      become slashes, and one leading `./` is dropped. */
  function NormalizeRelativePath(path: string): (r: string)
    ensures path == "" || path == "." ==> r == ""
    ensures '\\' !in r
    ensures path != "" && path != "." ==>
      (r == ToPosixPath(path) && !StartsWith(ToPosixPath(path), "./")) || ToPosixPath(path) == "./" + r
  {
    if path == "" || path == "." then ""
    else
      var posix := ToPosixPath(path);
      if StartsWith(posix, "./") then
        assert posix == "./" + posix[2..];
        posix[2..]
      else posix
  }

  /** `join_relative_path`: the name alone under an empty base, otherwise
      base and name joined by one slash. */
  function JoinRelativePath(base: string, name: string): (r: string)
    ensures NormalizeRelativePath(base) == "" ==> r == ToPosixPath(name)
    ensures NormalizeRelativePath(base) != "" ==> r == NormalizeRelativePath(base) + "/" + ToPosixPath(name)
  {
    var normalizedBase := NormalizeRelativePath(base);
    var namePosix := ToPosixPath(name);
    if normalizedBase == "" then namePosix else normalizedBase + "/" + namePosix
  }

  /** Joining under a normalised base and splitting at slashes gives the
      base's segments followed by the name's. */
  lemma JoinSegments(base: string, name: string)
    requires NormalizeRelativePath(base) != "" && '/' !in name && '\\' !in name
    ensures Split(JoinRelativePath(base, name), '/') == Split(NormalizeRelativePath(base), '/') + [name]
  {
    var b := NormalizeRelativePath(base);
    var bs := Split(b, '/');
    assert ToPosixPath(name) == name;
    SplitJoin(bs + [name], '/');
    JoinAppend("/", bs, [name]);
  }

  // ---------------------------------------------------------------------
  // Selection rules

  /** `matches_patterns`: some pattern matches the path. */
  function MatchesPatterns(path: string, patterns: seq<string>, glob: (string, string) -> bool): (r: bool)
    ensures r <==> exists k :: 0 <= k < |patterns| && glob(path, patterns[k])
  {
    if patterns == [] then false
    else glob(path, patterns[0]) || MatchesPatterns(path, patterns[1..], glob)
  }

  /** `should_skip_directory` */
  function ShouldSkipDirectory(relativePath: string, options: ProcessingOptions, glob: (string, string) -> bool): bool {
    if relativePath == "" then false
    else
      var posix := NormalizeRelativePath(relativePath);
      if posix == "" then false
      else
        var parts := Split(posix, '/');
        if exists k :: 0 <= k < |parts| && parts[k] in DirnameDenylist then true
        else MatchesPatterns(posix, options.ignorePatterns, glob)
  }

  /** The walk root is never skipped; a directory with a denylisted segment
      anywhere in its path is skipped whatever the patterns say; any other
      directory is skipped exactly when an ignore pattern matches it. */
  lemma SkipDirectoryRules(relativePath: string, options: ProcessingOptions, glob: (string, string) -> bool)
    ensures relativePath == "" || relativePath == "." ==> !ShouldSkipDirectory(relativePath, options, glob)
    ensures var posix := NormalizeRelativePath(relativePath);
      posix != "" && (exists k :: 0 <= k < |Split(posix, '/')| && Split(posix, '/')[k] in DirnameDenylist) ==>
        ShouldSkipDirectory(relativePath, options, glob)
    ensures var posix := NormalizeRelativePath(relativePath);
      posix != "" && (forall k :: 0 <= k < |Split(posix, '/')| ==> Split(posix, '/')[k] !in DirnameDenylist) ==>
        (ShouldSkipDirectory(relativePath, options, glob) <==> exists k :: 0 <= k < |options.ignorePatterns| && glob(posix, options.ignorePatterns[k]))
  {
  }

  /** `os.path.splitext(name)[1]`: from the last dot of the final path
      component, unless that component holds only dots before it. */
  function Extension(name: string): (r: string)
    ensures r == "" || (r[0] == '.' && EndsWith(name, r) && '/' !in r && '.' !in r[1..])
  {
    var sep := LastIndex(name, '/');
    var dot := LastIndex(name, '.');
    if dot > sep && exists i :: sep + 1 <= i < dot && name[i] != '.' then
      assert '/' !in name[dot..] by {
        forall j | dot <= j < |name| ensures name[j] != '/' { }
      }
      name[dot..]
    else ""
  }

  /** Index of the last occurrence of `c`, or -1. */
  function LastIndex(s: string, c: char): (i: int)
    ensures -1 <= i < |s|
    ensures i >= 0 ==> s[i] == c
    ensures forall j :: i < j < |s| ==> s[j] != c
  {
    if s == [] then -1
    else if s[|s| - 1] == c then |s| - 1
    else LastIndex(s[..|s| - 1], c)
  }

  /** `is_code_file`: the lowercased extension is allowed, or the exact
      name is special. */
  predicate IsCodeFile(fileName: string, options: ProcessingOptions) {
    Lower(Extension(fileName)) in options.allowedExtensions || fileName in options.specialFilenames
  }

  /** `should_include_file` */
  function ShouldIncludeFile(relativePath: string, fileName: string, options: ProcessingOptions, glob: (string, string) -> bool): bool {
    var posix := NormalizeRelativePath(relativePath);
    if MatchesPatterns(posix, options.ignorePatterns, glob) then false
    else if options.includePatterns != [] && MatchesPatterns(posix, options.includePatterns, glob) then true
    else if options.allowNonCode then true
    else IsCodeFile(fileName, options)
  }

  /** The precedence of `should_include_file`: an ignore match excludes;
      otherwise an include match admits; otherwise `allow_non_code` admits;
      otherwise the file is kept exactly when it is a code file. */
  lemma IncludePrecedence(relativePath: string, fileName: string, options: ProcessingOptions, glob: (string, string) -> bool)
    ensures var posix := NormalizeRelativePath(relativePath);
      var ignored := exists k :: 0 <= k < |options.ignorePatterns| && glob(posix, options.ignorePatterns[k]);
      var included := exists k :: 0 <= k < |options.includePatterns| && glob(posix, options.includePatterns[k]);
      && (ignored ==> !ShouldIncludeFile(relativePath, fileName, options, glob))
      && (!ignored && included ==> ShouldIncludeFile(relativePath, fileName, options, glob))
      && (!ignored && !included && options.allowNonCode ==> ShouldIncludeFile(relativePath, fileName, options, glob))
      && (!ignored && !included && !options.allowNonCode ==>
            (ShouldIncludeFile(relativePath, fileName, options, glob) <==> IsCodeFile(fileName, options)))
  {
  }

  /** A code file that no pattern ignores is kept even when include
      patterns are given and none of them matches it. */
  lemma CodeFileKeptBesideIncludes(relativePath: string, fileName: string, options: ProcessingOptions, glob: (string, string) -> bool)
    requires forall k :: 0 <= k < |options.ignorePatterns| ==> !glob(NormalizeRelativePath(relativePath), options.ignorePatterns[k])
    requires Lower(Extension(fileName)) in options.allowedExtensions
    ensures ShouldIncludeFile(relativePath, fileName, options, glob)
  {
  }

  lemma PythonFileIsCode()
    ensures Extension("app.py") == ".py" && IsCodeFile("app.py", ProcessingOptions([], [], CodeExtensions, AlwaysIncludeFilenames, None, false))
  {
    assert LastIndex("app.py", '/') == -1;
    assert LastIndex("app.py", '.') == 3;
    assert "app.py"[0] != '.';
    assert Lower(".py") == ".py";
  }

  /** `TokenEstimator.count` without an encoder: nothing when disabled or
      for empty text, otherwise a quarter of the length rounded up. */
  function TokenCount(enabled: bool, text: string): (r: nat)
    ensures r == 0 <==> !enabled || text == []
    ensures r > 0 ==> 4 * (r - 1) < |text| <= 4 * r
  {
    if !enabled || text == [] then 0
    else
      var length := |text|;
      if length > 0 then (length + 3) / 4 else 0
  }
}
