// The file-selection layer of the command-line tool (`main.py`). It
// repeats the service's rules with its own pattern expansion (one leading
// slash dropped, the bare directory name among four variants, no `**/`
// form for file patterns), a longer ignore list and a longer directory
// denylist, and it removes duplicates with `_ordered_unique`. The path
// helpers, `ProcessingOptions` and `is_code_file` are the service's, which
// the tool defines word for word.
module Cli {
  import opened Basics
  import ServiceFilter
  import ApiRequests

  type ProcessingOptions = ServiceFilter.ProcessingOptions

  /** `DEFAULT_DIRNAME_DENYLIST` of the command-line tool. */
  const DirnameDenylist: set<string> := {
    ".git", ".hg", ".svn", ".idea", ".vscode", ".vs", ".venv", "venv", ".mypy_cache",
    ".pytest_cache", "__pycache__", "node_modules", "bower_components", "dist", "build",
    "coverage", "logs", "tmp", "temp", "deps", "vendor", "third_party", ".gradle",
    ".terraform", ".next", ".nuxt", ".svelte-kit", ".cache", ".parcel-cache", ".ruff_cache"
  }

  /** `DEFAULT_IGNORE_PATTERNS_RAW` of the command-line tool. */
  const IgnorePatternsRaw: seq<string> := [
    ".git/", ".hg/", ".svn/", ".idea/", ".vscode/", ".vs/", ".venv/", "venv/",
    ".mypy_cache/", ".pytest_cache/", "__pycache__/", "node_modules/", "bower_components/",
    "dist/", "build/", "coverage/", "logs/", "tmp/", "temp/", "deps/", "vendor/",
    "third_party/", ".gradle/", ".terraform/", ".next/", ".nuxt/", ".svelte-kit/",
    ".cache/", ".parcel-cache/", ".ruff_cache/", "public/build/", "public/dist/",
    "*.log", "*.tmp", "*.bak", "*.lock", "*.sqlite", "*.db", "*.sqlite3", "*.min.js",
    "*.min.css", "*.map", "*.png", "*.jpg", "*.jpeg", "*.gif", "*.svg", "*.ico",
    "*.bmp", "*.mp3", "*.mp4", "*.mov", "*.avi", "*.wav", "*.flac", "*.zip", "*.gz",
    "*.bz2", "*.xz", "*.7z", "*.tar", "*.tgz", "*.rar", "*.pdf", "*.doc", "*.docx",
    "*.ppt", "*.pptx", "*.xls", "*.xlsx", "*.exe", "*.dll", "*.so", "*.bin", "*.dylib",
    "*.class", "*.jar", "*.war", "*.ear", "*.apk", "*.ipa", "*.msi", "*.obj", "*.o",
    "*.a", "*.lib", "*.pyc", "*.pyo", "*.whl", "*.ttf", "*.woff", "*.woff2", "*.eot"
  ]

  /** `DEFAULT_IGNORE_PATTERNS` of the command-line tool. */
  function DefaultIgnorePatterns(): seq<string> {
    Expanded(IgnorePatternsRaw)
  }

  // ---------------------------------------------------------------------
  // Ordered de-duplication

  /** What `_ordered_unique` returns: the nonempty values in order of their
      first occurrence. */
  function Unique(values: seq<string>): seq<string> {
    if values == [] then []
    else
      var init := Unique(values[..|values| - 1]);
      var v := values[|values| - 1];
      if v != "" && v !in init then init + [v] else init
  }

  /** `_ordered_unique`: the loop over a `seen` set and an `ordered` list. */
  method OrderedUnique(values: seq<string>) returns (ordered: seq<string>)
    ensures ordered == Unique(values)
  {
    var seen: set<string> := {};
    ordered := [];
    var i := 0;
    while i < |values|
      invariant 0 <= i <= |values|
      invariant ordered == Unique(values[..i])
      invariant forall v :: v in seen <==> v in ordered
    {
      var value := values[i];
      assert values[..i + 1][..i] == values[..i];
      if value != "" && value !in seen {
        seen := seen + {value};
        ordered := ordered + [value];
      }
      i := i + 1;
    }
    assert values[..i] == values;
  }

  /** No duplicates and no empty string; exactly the nonempty values. */
  lemma {:induction false} UniqueSpec(values: seq<string>)
    ensures NoDup(Unique(values)) && "" !in Unique(values)
    ensures forall v :: v in Unique(values) <==> v in values && v != ""
  {
    if values != [] {
      var init := values[..|values| - 1];
      UniqueSpec(init);
      assert values == init + [values[|values| - 1]];
    }
  }

  /** The position of the first occurrence of `v`. */
  function FirstIndex(values: seq<string>, v: string): (i: nat)
    requires v in values
    ensures i < |values| && values[i] == v && v !in values[..i]
  {
    if values[0] == v then 0
    else
      var i := 1 + FirstIndex(values[1..], v);
      assert values[..i] == [values[0]] + values[1..][..i - 1];
      i
  }

  /** A first occurrence in a prefix is the first occurrence in the whole. */
  lemma FirstIndexPrefix(values: seq<string>, n: nat, v: string)
    requires n <= |values| && v in values[..n]
    ensures v in values && FirstIndex(values, v) == FirstIndex(values[..n], v)
  {
    var i := FirstIndex(values[..n], v);
    var j := FirstIndex(values, v);
    forall m | 0 <= m < i ensures values[m] != v {
      assert values[..n][..i][m] == values[m];
    }
    forall m | 0 <= m < j ensures values[m] != v {
      assert values[..j][m] == values[m];
    }
    assert values[i] == v;
  }

  /** The values come out in the order of their first occurrence. */
  lemma {:induction false} UniqueOrder(values: seq<string>)
    ensures forall v :: v in Unique(values) ==> v in values
    ensures forall i, j :: 0 <= i < j < |Unique(values)| ==>
      FirstIndex(values, Unique(values)[i]) < FirstIndex(values, Unique(values)[j])
  {
    UniqueSpec(values);
    if values != [] {
      var n := |values| - 1;
      var init := values[..n];
      var u := Unique(init);
      var r := Unique(values);
      UniqueOrder(init);
      UniqueSpec(init);
      forall i, j | 0 <= i < j < |r|
        ensures FirstIndex(values, r[i]) < FirstIndex(values, r[j])
      {
        assert r[i] == u[i];
        FirstIndexPrefix(values, n, u[i]);
        if j < |u| {
          assert r[j] == u[j];
          FirstIndexPrefix(values, n, u[j]);
        } else {
          assert r[j] == values[n] && values[n] !in init;
          assert values[..n] == init;
        }
      }
    }
  }

  /** Appending values keeps what was already collected as a prefix. */
  lemma {:induction false} UniqueExtends(a: seq<string>, b: seq<string>)
    ensures |Unique(a)| <= |Unique(a + b)| && Unique(a + b)[..|Unique(a)|] == Unique(a)
  {
    if b == [] {
      assert a + b == a;
    } else {
      var b0 := b[..|b| - 1];
      UniqueExtends(a, b0);
      assert (a + b)[..|a + b| - 1] == a + b0;
    }
  }

  /** Distinct nonempty values come back unchanged. */
  lemma {:induction false} UniqueOfDistinct(values: seq<string>)
    requires NoDup(values) && "" !in values
    ensures Unique(values) == values
  {
    if values != [] {
      var init := values[..|values| - 1];
      UniqueOfDistinct(init);
      assert values[|values| - 1] !in init;
      assert values == init + [values[|values| - 1]];
    }
  }

  // ---------------------------------------------------------------------
  // Pattern expansion

  /** The line after `strip()`, with backslashes turned into slashes and
      one leading slash dropped; None for a blank line or a comment. */
  function PatternBody(line: string): (r: Option<string>)
    ensures r.Some? ==> '\\' !in r.value
  {
    var s := Strip(line);
    if s == "" || StartsWith(s, "#") then None
    else
      var normalized := ReplaceChar(s, '\\', '/');
      Some(if StartsWith(normalized, "/") then normalized[1..] else normalized)
  }

  /** The four forms a directory pattern `base/` stands for. */
  function DirectoryForms(base: string): seq<string> {
    [base, base + "/**", "**/" + base, "**/" + base + "/**"]
  }

  /** `_normalize_pattern` of the command-line tool. */
  function NormalizePattern(line: string): seq<string> {
    match PatternBody(line)
    case None => []
    case Some(n) =>
      if EndsWith(n, "/") then
        var base := RStripChar(n, '/');
        if base == "" then [] else Unique(DirectoryForms(base))
      else [n]
  }

  /** Blank lines and comments give nothing; a file pattern gives itself
      alone, with no anchored form. */
  lemma NormalizeFileShape(line: string)
    ensures PatternBody(line).None? ==> NormalizePattern(line) == []
    ensures PatternBody(line).Some? && !EndsWith(PatternBody(line).value, "/") ==>
      NormalizePattern(line) == [PatternBody(line).value]
  {
  }

  /** A directory pattern gives its nonempty base in its four forms without
      repeats, or nothing when the base is empty. */
  lemma NormalizeDirectoryShape(line: string, n: string)
    requires PatternBody(line) == Some(n) && EndsWith(n, "/")
    ensures NoDup(NormalizePattern(line))
    ensures RStripChar(n, '/') == "" ==> NormalizePattern(line) == []
    ensures RStripChar(n, '/') != "" ==>
      forall q :: q in NormalizePattern(line) <==> q in DirectoryForms(RStripChar(n, '/'))
  {
    var base := RStripChar(n, '/');
    DirectoryPattern(line, n, base);
    if base != "" {
      UniqueSpec(DirectoryForms(base));
      FormsNonEmpty(base);
    }
  }

  lemma FormsNonEmpty(base: string)
    requires base != ""
    ensures "" !in DirectoryForms(base)
  {
    var f := DirectoryForms(base);
    assert |f[0]| > 0 && |f[1]| > 0 && |f[2]| > 0 && |f[3]| > 0;
  }

  lemma DirectoryPattern(line: string, n: string, base: string)
    requires PatternBody(line) == Some(n) && EndsWith(n, "/") && base == RStripChar(n, '/')
    ensures NormalizePattern(line) == if base == "" then [] else Unique(DirectoryForms(base))
  {
  }

  // The four forms are distinct except when `base/**` and `**/base`
  // coincide (a base such as `**`); when they differ the directory gives
  // all four, in order.
  lemma DirectoryFormsUnique(base: string)
    requires base != ""
    ensures base + "/**" != "**/" + base ==> Unique(DirectoryForms(base)) == DirectoryForms(base)
    ensures base + "/**" == "**/" + base ==> Unique(DirectoryForms(base)) == [base, base + "/**", "**/" + base + "/**"]
  {
    var f := DirectoryForms(base);
    assert |f[0]| < |f[1]| == |f[2]| < |f[3]|;
    if base + "/**" != "**/" + base {
      UniqueOfDistinct(f);
    } else {
      assert f[..3] == [base, base + "/**", "**/" + base];
      assert [base, base + "/**"] == f[..2];
      UniqueOfDistinct(f[..2]);
      assert f[..3][..2] == f[..2] && f[..3] == f[..2] + [f[2]];
      assert Unique(f[..3]) == f[..2];
      assert f[..4][..3] == f[..3];
      assert f[..4] == f;
    }
  }

  /** A lone slash survives as the empty pattern (`_expand_patterns` keeps
      it; the options builder drops it). Two slashes give nothing. */
  lemma LoneSlash(line: string)
    requires Strip(line) == "/"
    ensures NormalizePattern(line) == [""]
  {
    var s := Strip(line);
    assert |s| == 1 && s[0] == '/';
    var normalized := ReplaceChar(s, '\\', '/');
    assert |normalized| == 1 && normalized[0] == '/';
    assert StartsWith(normalized, "/");
    assert PatternBody(line) == Some(normalized[1..]);
    assert |normalized[1..]| == 0;
  }

  /** `_expand_patterns` as a value: the per-line results in input order. */
  function Expanded(patterns: seq<string>): seq<string> {
    FlatMap(NormalizePattern, patterns)
  }

  /** `_expand_patterns`: extends the result with each line's patterns. */
  method ExpandPatterns(patterns: seq<string>) returns (expanded: seq<string>)
    ensures expanded == Expanded(patterns)
  {
    expanded := [];
    var i := 0;
    while i < |patterns|
      invariant 0 <= i <= |patterns|
      invariant expanded == Expanded(patterns[..i])
    {
      FlatMapStep(NormalizePattern, patterns, i);
      expanded := expanded + NormalizePattern(patterns[i]);
      i := i + 1;
    }
    assert patterns[..i] == patterns;
  }

  /** Expanding the lines of two files one after the other is expanding
      each file and concatenating the results. */
  lemma ExpandedConcat(a: seq<string>, b: seq<string>)
    ensures Expanded(a + b) == Expanded(a) + Expanded(b)
  {
    FlatMapConcat(NormalizePattern, a, b);
  }

  /** A plain file pattern is kept as written by the command-line tool,
      while the service adds its anchored `**` form. */
  lemma FilePatternDiffers(line: string)
    requires var s := Strip(line);
      s != "" && s[0] != '/' && s[0] != '#' && '\\' !in s && !EndsWith(s, "/") && !StartsWith(s, "**/")
    ensures NormalizePattern(line) == [Strip(line)]
    ensures ServiceFilter.NormalizePattern(line) == [Strip(line), "**/" + Strip(line)]
  {
    CliFilePattern(line, Strip(line));
    ServiceFilePattern(line, Strip(line));
  }

  lemma CliFilePattern(line: string, s: string)
    requires s == Strip(line) && s != "" && s[0] != '/' && s[0] != '#' && '\\' !in s && !EndsWith(s, "/")
    ensures NormalizePattern(line) == [s]
  {
    assert ReplaceChar(s, '\\', '/') == s;
    assert !StartsWith(s, "#") && !StartsWith(s, "/");
  }

  lemma ServiceFilePattern(line: string, s: string)
    requires s == Strip(line) && s != "" && s[0] != '/' && s[0] != '#' && !EndsWith(s, "/") && !StartsWith(s, "**/")
    ensures ServiceFilter.NormalizePattern(line) == [s, "**/" + s]
  {
    ServicePlainBody(line, s);
    ServiceFilter.FileBodyVariants(s);
    assert ServiceFilter.Variants(s) == [s] + ["**/" + s];
  }

  lemma ServicePlainBody(line: string, s: string)
    requires s == Strip(line) && s != "" && s[0] != '/' && s[0] != '#'
    ensures ServiceFilter.PatternBody(line) == Some(s)
  {
    assert !StartsWith(s, "#");
    assert LStripChar(s, '/') == s;
  }

  // ---------------------------------------------------------------------
  // Selection rules

  /** `should_skip_directory` of the command-line tool: the service's rule
      with the tool's denylist. */
  function ShouldSkipDirectory(relativePath: string, options: ProcessingOptions, glob: (string, string) -> bool): bool {
    if relativePath == "" then false
    else
      var posix := ServiceFilter.NormalizeRelativePath(relativePath);
      if posix == "" then false
      else
        var parts := Split(posix, '/');
        if exists k :: 0 <= k < |parts| && parts[k] in DirnameDenylist then true
        else ServiceFilter.MatchesPatterns(posix, options.ignorePatterns, glob)
  }

  /** The walk root is never skipped; a directory with a denylisted segment
      is skipped whatever the patterns say; and the tool skips every
      directory the service skips, its denylist holding the service's. */
  lemma SkipDirectoryRules(relativePath: string, options: ProcessingOptions, glob: (string, string) -> bool)
    ensures relativePath == "" || relativePath == "." ==> !ShouldSkipDirectory(relativePath, options, glob)
    ensures var posix := ServiceFilter.NormalizeRelativePath(relativePath);
      posix != "" && (exists k :: 0 <= k < |Split(posix, '/')| && Split(posix, '/')[k] in DirnameDenylist) ==>
        ShouldSkipDirectory(relativePath, options, glob)
    ensures ServiceFilter.DirnameDenylist < DirnameDenylist
    ensures ServiceFilter.ShouldSkipDirectory(relativePath, options, glob) ==> ShouldSkipDirectory(relativePath, options, glob)
  {
    assert ".git" in DirnameDenylist - ServiceFilter.DirnameDenylist;
  }

  /** `should_include_file` of the command-line tool: an ignore match
      excludes, then an include match includes, then `allow_non_code`
      includes, then the file must be code. */
  function ShouldIncludeFile(relativePath: string, fileName: string, options: ProcessingOptions, glob: (string, string) -> bool): bool {
    var posix := ServiceFilter.NormalizeRelativePath(relativePath);
    if ServiceFilter.MatchesPatterns(posix, options.ignorePatterns, glob) then false
    else if ServiceFilter.MatchesPatterns(posix, options.includePatterns, glob) then true
    else if options.allowNonCode then true
    else ServiceFilter.IsCodeFile(fileName, options)
  }

  /** The tool omits the service's emptiness check on the include
      patterns, which changes nothing: both decide every file alike. */
  lemma IncludeAgreesWithService(relativePath: string, fileName: string, options: ProcessingOptions, glob: (string, string) -> bool)
    ensures ShouldIncludeFile(relativePath, fileName, options, glob) == ServiceFilter.ShouldIncludeFile(relativePath, fileName, options, glob)
  {
  }

  // ---------------------------------------------------------------------
  // Output paths to skip

  /** A segment of a path as `os.path.abspath` leaves it: nonempty, free of
      separators, and neither `.` nor `..`. */
  predicate PlainSegment(s: string) {
    s != "" && s != "." && s != ".." && '/' !in s && '\\' !in s
  }

  /** Length of the longest common prefix of two segment lists. */
  function CommonPrefix(a: seq<string>, b: seq<string>): (n: nat)
    ensures n <= |a| && n <= |b| && a[..n] == b[..n]
    ensures n < |a| && n < |b| ==> a[n] != b[n]
  {
    if a == [] || b == [] || a[0] != b[0] then 0
    else
      var n := 1 + CommonPrefix(a[1..], b[1..]);
      assert a[..n] == [a[0]] + a[1..][..n - 1];
      assert b[..n] == [b[0]] + b[1..][..n - 1];
      n
  }

  /** `k` copies of `s`. */
  function Repeat(s: string, k: nat): (r: seq<string>)
    ensures |r| == k && forall i :: 0 <= i < k ==> r[i] == s
  {
    if k == 0 then [] else [s] + Repeat(s, k - 1)
  }

  /** `os.path.relpath(path, start)` for absolute paths given as segment
      lists: a `..` for each segment of `start` past the common prefix, then
      the rest of `path`, joined with slashes; `.` when nothing is left. */
  function RelPath(path: seq<string>, start: seq<string>): string {
    var n := CommonPrefix(path, start);
    var parts := Repeat("..", |start| - n) + path[n..];
    if parts == [] then "." else Join("/", parts)
  }

  /** What one output adds to the skip set in `resolve_skip_paths`: nothing
      when its path relative to the tree starts with `..`, otherwise that
      path normalised, when nonempty. */
  function SkipEntry(local: seq<string>, output: seq<string>): Option<string> {
    var rel := RelPath(output, local);
    if StartsWith(rel, "..") then None
    else
      var normalized := ServiceFilter.NormalizeRelativePath(rel);
      if normalized == "" then None else Some(normalized)
  }

  /** `SkipEntry` for a fixed tree, as a function of the output. */
  function SkipFor(local: seq<string>): seq<string> -> Option<string> {
    output => SkipEntry(local, output)
  }

  /** The set `resolve_skip_paths` returns. */
  function SkipSet(local: seq<string>, outputs: seq<seq<string>>): set<string> {
    SomeValues(SkipFor(local), outputs)
  }

  /** `resolve_skip_paths`: the outputs that lie inside the tree, as paths
      relative to it. */
  method ResolveSkipPaths(local: seq<string>, outputs: seq<seq<string>>) returns (skip: set<string>)
    ensures skip == SkipSet(local, outputs)
  {
    skip := {};
    var i := 0;
    while i < |outputs|
      invariant 0 <= i <= |outputs|
      invariant skip == SkipSet(local, outputs[..i])
    {
      SomeValuesStep(SkipFor(local), outputs, i);
      var rel := RelPath(outputs[i], local);
      if !StartsWith(rel, "..") {
        var normalized := ServiceFilter.NormalizeRelativePath(rel);
        if normalized != "" {
          skip := skip + {normalized};
        }
      }
      i := i + 1;
    }
    assert outputs[..i] == outputs;
  }

  /** The path of an output below the tree, relative to the tree, is its
      remaining segments joined; the tree itself is `.`. */
  lemma InsideRel(local: seq<string>, segs: seq<string>)
    ensures RelPath(local + segs, local) == if segs == [] then "." else Join("/", segs)
  {
    var out := local + segs;
    var n := CommonPrefix(out, local);
    assert out[n..] == segs;
    assert Repeat("..", 0) + segs == segs;
  }

  /** The segments after the first, each behind a slash, as `Join` lays
      them out after the first segment. */
  function JoinRest(segs: seq<string>): (r: string)
    requires segs != []
    ensures r == [] || r[0] == '/'
    ensures Join("/", segs) == segs[0] + r
  {
    if |segs| == 1 then "" else "/" + Join("/", segs[1..])
  }

  /** A prefix free of slashes of a first segment `s0` followed by nothing
      or by a slash: it fits inside `s0`, and when a slash follows it, it is
      `s0` itself. */
  lemma HeadPrefix(s0: string, t: string, p: string)
    requires '/' !in s0 && '/' !in p && (t == [] || t[0] == '/')
    ensures StartsWith(s0 + t, p) <==> StartsWith(s0, p)
    ensures s0 + t == p ==> s0 == p
    ensures StartsWith(s0 + t, p) && |p| < |s0 + t| && (s0 + t)[|p|] == '/' ==> s0 == p
  {
    var r := s0 + t;
    assert forall k :: 0 <= k < |s0| ==> r[k] == s0[k];
    assert t != [] ==> r[|s0|] == '/';
    if StartsWith(r, p) {
      assert forall k :: 0 <= k < |p| ==> p[k] == r[k];
      assert |p| <= |s0|;
      assert s0[..|p|] == p;
    }
    if StartsWith(s0, p) {
      assert r[..|p|] == s0[..|p|];
    }
  }

  /** `ToPosixPath` leaves a path without backslashes alone. */
  lemma PosixUnchanged(path: string)
    requires '\\' !in path
    ensures ServiceFilter.ToPosixPath(path) == path
  {
  }

  /** A relative path of plain segments is already normal. */
  lemma PlainNormalized(segs: seq<string>)
    requires segs != [] && forall k :: 0 <= k < |segs| ==> PlainSegment(segs[k])
    ensures ServiceFilter.NormalizeRelativePath(Join("/", segs)) == Join("/", segs)
  {
    var rel := Join("/", segs);
    var t := JoinRest(segs);
    JoinAvoids("/", segs, '\\');
    PosixUnchanged(rel);
    HeadPrefix(segs[0], t, ".");
    var r := ServiceFilter.NormalizeRelativePath(rel);
    assert rel != "" && rel != ".";
  }

  /** The tree itself is never skipped. */
  lemma SameDirDropped(local: seq<string>)
    ensures SkipEntry(local, local) == None
  {
    InsideRel(local, []);
    assert local + [] == local;
  }

  /** An output that does not lie below the tree is dropped: its relative
      path begins with `..`. */
  lemma OutsideDropped(local: seq<string>, output: seq<string>)
    requires CommonPrefix(output, local) < |local|
    ensures SkipEntry(local, output) == None
  {
    var n := CommonPrefix(output, local);
    var parts := Repeat("..", |local| - n) + output[n..];
    assert parts[0] == "..";
    HeadPrefix(parts[0], JoinRest(parts), "..");
  }

  /** An output below the tree whose first segment below it does not begin
      with `..` is skipped under its relative path. */
  lemma InsideKept(local: seq<string>, segs: seq<string>)
    requires segs != [] && forall k :: 0 <= k < |segs| ==> PlainSegment(segs[k])
    requires !StartsWith(segs[0], "..")
    ensures SkipEntry(local, local + segs) == Some(Join("/", segs))
  {
    InsideRel(local, segs);
    HeadPrefix(segs[0], JoinRest(segs), "..");
    PlainNormalized(segs);
  }

  /** Only outputs strictly below the tree are ever skipped. */
  lemma SkippedInside(local: seq<string>, output: seq<string>)
    requires SkipEntry(local, output).Some?
    ensures |local| < |output| && output[..|local|] == local
  {
    var n := CommonPrefix(output, local);
    if n < |local| {
      OutsideDropped(local, output);
    } else if |output| == |local| {
      SameDirDropped(local);
    }
  }

  // The test `rel.startswith("..")` is meant to detect a relative path
  // that climbs out of the tree, but it also catches a file or directory
  // inside the tree whose name begins with two dots.

  /** The test the skip rule evidently means: the first segment of the
      relative path is `..`. */
  predicate LeavesTree(rel: string) {
    rel == ".." || StartsWith(rel, "../")
  }

  /** `SkipEntry` with the intended test. */
  function SkipEntryIntended(local: seq<string>, output: seq<string>): Option<string> {
    var rel := RelPath(output, local);
    if LeavesTree(rel) then None
    else
      var normalized := ServiceFilter.NormalizeRelativePath(rel);
      if normalized == "" then None else Some(normalized)
  }

  /** With the intended test every output below the tree is skipped under
      its relative path. */
  lemma InsideKeptIntended(local: seq<string>, segs: seq<string>)
    requires segs != [] && forall k :: 0 <= k < |segs| ==> PlainSegment(segs[k])
    ensures SkipEntryIntended(local, local + segs) == Some(Join("/", segs))
  {
    InsideRel(local, segs);
    StaysInside(segs);
    PlainNormalized(segs);
  }

  /** A joined path whose first segment is not `..` does not leave the
      tree. */
  lemma StaysInside(segs: seq<string>)
    requires segs != [] && '/' !in segs[0] && segs[0] != ".."
    ensures !LeavesTree(Join("/", segs))
  {
    var rel := Join("/", segs);
    HeadPrefix(segs[0], JoinRest(segs), "..");
  }

  /** With the intended test an output outside the tree is still dropped. */
  lemma OutsideDroppedIntended(local: seq<string>, output: seq<string>)
    requires CommonPrefix(output, local) < |local|
    ensures SkipEntryIntended(local, output) == None
  {
    var n := CommonPrefix(output, local);
    var parts := Repeat("..", |local| - n) + output[n..];
    assert parts[0] == "..";
    HeadPrefix(parts[0], JoinRest(parts), "..");
  }

  /** As written, an output below the tree whose first segment begins with
      `..` (`/repo/..cache/out.txt` for the tree `/repo`) is not skipped,
      while the intended test skips it. */
  lemma DotDotNameDropped(local: seq<string>, segs: seq<string>)
    requires segs != [] && forall k :: 0 <= k < |segs| ==> PlainSegment(segs[k])
    requires StartsWith(segs[0], "..")
    ensures SkipEntry(local, local + segs) == None
    ensures SkipEntryIntended(local, local + segs) == Some(Join("/", segs))
  {
    InsideRel(local, segs);
    HeadPrefix(segs[0], JoinRest(segs), "..");
    InsideKeptIntended(local, segs);
  }

  // ---------------------------------------------------------------------
  // Processing options

  /** What `build_processing_options` reads. The pattern files are given by
      their lines (none when a file is missing or unreadable): `.gitignore`,
      `.git/info/exclude`, the `--gptignore` file (or `.gptignore`) and the
      `--gptinclude` file (or `.gptinclude`); the rest are the command-line
      arguments. */
  datatype CliArgs = CliArgs(
    gitignoreLines: seq<string>,
    gitExcludeLines: seq<string>,
    gptignoreLines: seq<string>,
    gptincludeLines: seq<string>,
    extraIgnore: seq<string>,
    extraInclude: seq<string>,
    extraExtensions: seq<string>,
    maxFileBytes: Option<int>,
    includeAll: bool)

  /** The ignore patterns before de-duplication: the defaults, then the
      git ignore files, then the `.gptignore` file, then `--ignore`. */
  function IgnoreSources(defaults: seq<string>, args: CliArgs): seq<string> {
    defaults + FileIgnores(args)
  }

  /** The ignore patterns read from the project's files and `--ignore`. */
  function FileIgnores(args: CliArgs): seq<string> {
    Expanded(args.gitignoreLines) + Expanded(args.gitExcludeLines)
    + Expanded(args.gptignoreLines) + Expanded(args.extraIgnore)
  }

  /** The include patterns before de-duplication: the `.gptinclude` file,
      then `--include`. */
  function IncludeSources(args: CliArgs): seq<string> {
    Expanded(args.gptincludeLines) + Expanded(args.extraInclude)
  }

  /** The options built over given default ignore patterns and default
      extensions. Extensions are normalised as the HTTP API normalises
      them. */
  function OptionsWith(defaults: seq<string>, defaultExtensions: set<string>, args: CliArgs): ProcessingOptions {
    ServiceFilter.ProcessingOptions(
      Unique(IgnoreSources(defaults, args)),
      Unique(IncludeSources(args)),
      defaultExtensions + ApiRequests.NormalizedExtensions(args.extraExtensions),
      ServiceFilter.AlwaysIncludeFilenames,
      if args.maxFileBytes.Some? && args.maxFileBytes.value > 0 then args.maxFileBytes else None,
      args.includeAll)
  }

  /** The options `build_processing_options` returns. */
  function OptionsFrom(args: CliArgs): ProcessingOptions {
    OptionsWith(DefaultIgnorePatterns(), ApiRequests.LoweredDefaults(), args)
  }

  /** `build_processing_options` */
  method BuildProcessingOptions(args: CliArgs) returns (options: ProcessingOptions)
    ensures options == OptionsFrom(args)
  {
    var ignorePatterns := ExpandPatterns(IgnorePatternsRaw);
    var gitignore := ExpandPatterns(args.gitignoreLines);
    var gitExclude := ExpandPatterns(args.gitExcludeLines);
    var gptignore := ExpandPatterns(args.gptignoreLines);
    var extraIgnore := ExpandPatterns(args.extraIgnore);
    ignorePatterns := ignorePatterns + (gitignore + gitExclude + gptignore + extraIgnore);
    var includePatterns := ExpandPatterns(args.gptincludeLines);
    var extraInclude := ExpandPatterns(args.extraInclude);
    includePatterns := includePatterns + extraInclude;
    var allowedExtensions := ApiRequests.AddExtensions(ApiRequests.LoweredDefaults(), args.extraExtensions);
    ignorePatterns := OrderedUnique(ignorePatterns);
    includePatterns := OrderedUnique(includePatterns);
    var maxFileBytes := if args.maxFileBytes.Some? && args.maxFileBytes.value > 0 then args.maxFileBytes else None;
    options := ServiceFilter.ProcessingOptions(ignorePatterns, includePatterns, allowedExtensions,
                                              ServiceFilter.AlwaysIncludeFilenames, maxFileBytes, args.includeAll);
  }

  /** The options hold every nonempty pattern of their sources once each
      and nothing else, the defaults' patterns first; every default and
      every requested extension is allowed, the latter in its normal form;
      a size limit is positive. */
  lemma OptionsSpec(defaults: seq<string>, defaultExtensions: set<string>, args: CliArgs)
    ensures var o := OptionsWith(defaults, defaultExtensions, args);
      && NoDup(o.ignorePatterns) && "" !in o.ignorePatterns
      && NoDup(o.includePatterns) && "" !in o.includePatterns
      && (forall p :: p in o.ignorePatterns <==> p in IgnoreSources(defaults, args) && p != "")
      && (forall p :: p in o.includePatterns <==> p in IncludeSources(args) && p != "")
      && |Unique(defaults)| <= |o.ignorePatterns|
      && o.ignorePatterns[..|Unique(defaults)|] == Unique(defaults)
      && defaultExtensions <= o.allowedExtensions
      && (forall k :: 0 <= k < |args.extraExtensions| ==>
            ApiRequests.NormalizeExtension(args.extraExtensions[k]) in o.allowedExtensions)
      && (o.maxFileBytes.Some? ==> o.maxFileBytes.value > 0)
      && (o.maxFileBytes.Some? <==> args.maxFileBytes.Some? && args.maxFileBytes.value > 0)
  {
    UniqueSpec(IgnoreSources(defaults, args));
    UniqueSpec(IncludeSources(args));
    UniqueExtends(defaults, FileIgnores(args));
  }

  /** A pattern that appears in an earlier source comes before one that
      first appears in a later source: de-duplication keeps first
      occurrences in order. */
  lemma OptionsKeepSourceOrder(defaults: seq<string>, defaultExtensions: set<string>, args: CliArgs)
    ensures forall p :: p in OptionsWith(defaults, defaultExtensions, args).ignorePatterns ==>
      p in IgnoreSources(defaults, args)
    ensures var o := OptionsWith(defaults, defaultExtensions, args);
      forall i, j :: 0 <= i < j < |o.ignorePatterns| ==>
        FirstIndex(IgnoreSources(defaults, args), o.ignorePatterns[i])
          < FirstIndex(IgnoreSources(defaults, args), o.ignorePatterns[j])
  {
    UniqueOrder(IgnoreSources(defaults, args));
  }
}
