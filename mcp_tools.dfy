/** The pure parts of the MCP server's router: the outcomes a request can
    have, the JSON-RPC errors it raises, how tool arguments are read
    (Python's `int()`, truthiness, iteration), the processing options a
    `processRepo` call builds, the limit clamp of `listRecentJobs`, and the
    constant `initialize` and `listTools` answers. */
module McpTools {
  import opened Basics
  import opened JsonValues
  import opened ServiceFilter
  import opened ServiceChunks
  import opened ApiRequests
  import opened McpRecords

  /** How a handler ends: with a result, by raising `MCPError`, or by
      raising any other exception (a `TypeError` or `AttributeError` on a
      malformed request), which nothing in the router catches. */
  datatype Outcome<+T> = Done(value: T) | Raised(error: McpError) | Crashed

  /** `MCPConfig`: the token and Gemini settings read from the
      environment. */
  datatype McpConfig = McpConfig(githubPat: Option<string>, geminiApiKey: Option<string>, geminiModel: Option<string>)

  /** `bool(value)` for an optional string setting. */
  predicate Configured(v: Option<string>) {
    v.Some? && v.value != ""
  }

  /** `d.get(key)`, `None` when the key is missing. */
  function Arg(d: Fields, key: string): Json {
    Get(d, key).GetOr(JNull)
  }

  /** `request.get("id")` */
  function RequestId(request: Fields): Json {
    Arg(request, "id")
  }

  // The errors the router raises (section 5.1 of the JSON-RPC 2.0
  // specification reserves -32600, -32601, -32602 and -32603; -32010 is
  // the server's own).

  function InvalidVersion(): McpError {
    McpError(-32600, "Invalid JSON-RPC version", [("expected", JStr(JsonRpcVersion))])
  }

  function MethodNotFound(requested: Json): McpError {
    McpError(-32601, "Method not found: " + PyStr(requested), [])
  }

  function UnknownTool(name: Json): McpError {
    McpError(-32601, "Unknown tool: " + PyStr(name), [])
  }

  function InvalidParams(message: string): McpError {
    McpError(-32602, message, [])
  }

  /** The -32602 error for an argument `int()` refuses. */
  function NotAnInteger(key: string): McpError {
    InvalidParams(key + " must be an integer")
  }

  function CloneFailed(message: string): McpError {
    McpError(-32010, "Failed to prepare repository: " + message, [])
  }

  function ProcessingFailed(message: string): McpError {
    McpError(-32603, "Failed to process repository", [("details", JStr(message))])
  }

  /** What `_handle_single` answers for an outcome: the result or the
      error under the request's id, and nothing when the handler crashed. */
  function Reply(o: Outcome<Fields>, requestId: Json): Option<Fields> {
    match o
    case Done(result) => Some([("jsonrpc", JStr(JsonRpcVersion)), ("id", requestId), ("result", JObj(result))])
    case Raised(e) => Some(ErrorResponse(e, requestId))
    case Crashed => None
  }

  /** Every answer is a JSON-RPC 2.0 response carrying the request's id:
      a result for a handler that returned, an error object with the
      raised code and message for one that raised `MCPError`. */
  lemma ReplyShape(o: Outcome<Fields>, requestId: Json)
    ensures Reply(o, requestId).None? <==> o.Crashed?
    ensures Reply(o, requestId).Some? ==>
      && Get(Reply(o, requestId).value, "jsonrpc") == Some(JStr("2.0"))
      && Get(Reply(o, requestId).value, "id") == Some(requestId)
    ensures o.Done? ==>
      && Keys(Reply(o, requestId).value) == ["jsonrpc", "id", "result"]
      && Get(Reply(o, requestId).value, "result") == Some(JObj(o.value))
    ensures o.Raised? ==>
      && Keys(Reply(o, requestId).value) == ["jsonrpc", "id", "error"]
      && Get(Reply(o, requestId).value, "error") == Some(JObj(ErrorObject(o.error)))
  {
    match o
    case Done(result) =>
      var r := Reply(o, requestId).value;
      GetFirst(r, "jsonrpc", 0);
      GetFirst(r, "id", 1);
      GetFirst(r, "result", 2);
    case Raised(e) =>
      ErrorResponseShape(e, requestId);
      GetFirst(ErrorResponse(e, requestId), "error", 2);
    case Crashed =>
  }

  /** `int(text)` for a string: surrounding whitespace, an optional sign
      and one or more ASCII digits. */
  function ParseInt(text: string): Option<int> {
    var t := Strip(text);
    if t != [] && (t[0] == '-' || t[0] == '+') then
      if |t| > 1 && AllDigits(t[1..]) then
        var n: int := ParseNat(t[1..]);
        Some(if t[0] == '-' then -n else n)
      else None
    else if t != [] && AllDigits(t) then Some(ParseNat(t))
    else None
  }

  /** `int(value)`: None where Python raises `TypeError` or `ValueError`. */
  function PyInt(v: Json): (r: Option<int>)
    ensures v.JInt? ==> r == Some(v.i)
    ensures v.JBool? ==> r == Some(if v.b then 1 else 0)
    ensures v.JNull? || v.JArr? || v.JObj? ==> r.None?
  {
    match v
    case JInt(i) => Some(i)
    case JBool(b) => Some(if b then 1 else 0)
    case JStr(s) => ParseInt(s)
    case _ => None
  }

  /** The decimal text of an integer reads back as that integer. */
  lemma PyIntReadsDecimal(i: int)
    ensures PyInt(JStr(IntToString(i))) == Some(i)
  {
    if i < 0 {
      ReadsNegative(i);
    } else {
      ReadsNatural(i);
    }
  }

  lemma ReadsNatural(i: int)
    requires i >= 0
    ensures ParseInt(IntToString(i)) == Some(i)
  {
    var s := NatToString(i);
    assert IntToString(i) == s;
    assert AllDigits(s);
    ParseNatToString(i);
    StripUnspaced(s);
    assert s[0] != '-' && s[0] != '+';
    var n: int := ParseNat(s);
    assert n == i;
  }

  lemma ReadsNegative(i: int)
    requires i < 0
    ensures ParseInt(IntToString(i)) == Some(i)
  {
    var digits := NatToString(-i);
    var s := "-" + digits;
    assert AllDigits(digits);
    ParseNatToString(-i);
    StripUnspaced(s);
    assert s[0] == '-' && s[1..] == digits;
    var n: int := ParseNat(s[1..]);
    assert n == -i;
  }

  /** A string that neither starts nor ends with whitespace is its own
      `strip()`. */
  lemma StripUnspaced(s: string)
    requires s != [] && !IsPySpace(s[0]) && !IsPySpace(s[|s| - 1])
    ensures Strip(s) == s
  {
    assert TrimStart(s) == s;
  }

  /** An optional integer argument: absent or null gives None, anything
      `int()` refuses raises -32602 naming the argument. */
  function OptionalInt(args: Fields, key: string): (r: Outcome<Option<int>>)
    ensures r.Crashed? == false
    ensures r.Raised? <==> !Arg(args, key).JNull? && PyInt(Arg(args, key)).None?
    ensures r.Raised? ==> r.error == NotAnInteger(key)
    ensures r.Done? ==> (r.value.None? <==> Arg(args, key).JNull?)
  {
    var v := Arg(args, key);
    if v.JNull? then Done(None)
    else match PyInt(v)
      case Some(i) => Done(Some(i))
      case None => Raised(NotAnInteger(key))
  }

  /** The truthy items of a list, in order. */
  function Kept(items: seq<Json>): (r: seq<Json>)
    ensures |r| <= |items|
    ensures forall k :: 0 <= k < |r| ==> Truthy(r[k])
  {
    if items == [] then []
    else Kept(items[..|items| - 1]) + (if Truthy(items[|items| - 1]) then [items[|items| - 1]] else [])
  }

  predicate AllStrings(items: seq<Json>) {
    forall k :: 0 <= k < |items| ==> items[k].JStr?
  }

  function Texts(items: seq<Json>): (r: seq<string>)
    requires AllStrings(items)
    ensures |r| == |items| && forall k :: 0 <= k < |items| ==> r[k] == items[k].s
  {
    seq(|items|, k requires 0 <= k < |items| => items[k].s)
  }

  /** `_normalize_patterns(arguments.get(key) or [])`: the truthy items of
      the value, expanded as gitignore lines. A value that cannot be
      iterated, or a truthy item that is not a string, raises. */
  function PatternList(value: Json): (r: Outcome<seq<string>>)
    ensures r.Raised? == false
    ensures !Truthy(value) ==> r == Done([])
    ensures r.Done? ==> Iterated(value).Some? || !Truthy(value)
    ensures Truthy(value) ==>
      (r.Crashed? <==> Iterated(value).None? || !AllStrings(Kept(Iterated(value).value)))
    ensures Truthy(value) && Iterated(value).Some? && AllStrings(Kept(Iterated(value).value)) ==>
      r == Done(Expanded(Texts(Kept(Iterated(value).value))))
  {
    match Iterated(if Truthy(value) then value else JArr([]))
    case None => Crashed
    case Some(items) =>
      var kept := Kept(items);
      if AllStrings(kept) then Done(Expanded(Texts(kept))) else Crashed
  }

  /** A list of pattern strings expands as `expand_patterns` does on all of
      it: the blank items it drops expand to nothing anyway. */
  lemma PatternListOfStrings(xs: seq<string>)
    ensures PatternList(JArr(JStrs(xs))) == Done(Expanded(xs))
  {
    KeptStrings(xs);
    if xs == [] {
      assert Expanded(Texts(Kept(JStrs(xs)))) == [];
    }
  }

  lemma {:induction false} KeptStrings(xs: seq<string>)
    ensures AllStrings(Kept(JStrs(xs)))
    ensures Expanded(Texts(Kept(JStrs(xs)))) == Expanded(xs)
  {
    if xs != [] {
      var init := xs[..|xs| - 1];
      var last := xs[|xs| - 1];
      assert xs == init + [last];
      var js := JStrs(xs);
      assert js[..|js| - 1] == JStrs(init);
      KeptStrings(init);
      var a := Texts(Kept(JStrs(init)));
      var tail := if last != "" then [last] else [];
      assert Texts(Kept(js)) == a + tail;
      ExpandedConcat(a, tail);
      ExpandedConcat(init, [last]);
      assert Expanded([last]) == NormalizePattern(last) by {
        assert [last][..0] == [];
      }
      if last == "" {
        assert NormalizePattern(last) == [];
        assert Expanded(tail) == [];
      }
    }
  }

  /** `[ext.lower() for ext in arguments.get("allowedExtensions") or []]`:
      every item must be a string. */
  function ExtensionList(value: Json): (r: Outcome<seq<string>>)
    ensures r.Raised? == false
    ensures !Truthy(value) ==> r == Done([])
    ensures r.Done? ==> forall k :: 0 <= k < |r.value| ==> Lower(r.value[k]) == r.value[k]
    ensures Truthy(value) ==>
      (r.Crashed? <==> Iterated(value).None? || !AllStrings(Iterated(value).value))
    ensures Truthy(value) && Iterated(value).Some? && AllStrings(Iterated(value).value) ==>
      r == Done(Map(Lower, Texts(Iterated(value).value)))
  {
    match Iterated(if Truthy(value) then value else JArr([]))
    case None => Crashed
    case Some(items) =>
      if AllStrings(items) then
        var lowered := Map(Lower, Texts(items));
        assert forall k :: 0 <= k < |lowered| ==> Lower(lowered[k]) == lowered[k] by {
          forall k | 0 <= k < |lowered| { LowerIdempotent(Texts(items)[k]); }
        }
        Done(lowered)
      else Crashed
  }

  /** The arguments `_tool_process_repo` reads before it creates a job. */
  datatype ProcessArgs = ProcessArgs(
    repository: Json,
    ref: Json,
    chunkTokenLimit: Option<int>,
    ignorePatterns: seq<string>,
    includePatterns: seq<string>,
    allowedExtensions: seq<string>,
    allowNonCode: bool,
    maxFileBytes: Option<int>,
    githubPat: Json)

  /** The argument checks of `_tool_process_repo`, in the order it makes
      them: a falsy repository, then a chunk limit `int()` refuses, then
      the pattern and extension lists (which raise a non-MCP error when
      malformed), then a file-size limit `int()` refuses. The token given
      in the call wins over the configured one when it is truthy. */
  function ParseProcessArgs(args: Fields, config: McpConfig): (r: Outcome<ProcessArgs>)
    ensures !Truthy(Arg(args, "repository")) ==> r == Raised(InvalidParams("'repository' is required"))
    ensures Truthy(Arg(args, "repository")) && OptionalInt(args, "chunkTokenLimit").Raised? ==>
      r == Raised(NotAnInteger("chunkTokenLimit"))
    ensures r.Raised? ==> r.error.code == -32602
    ensures r.Done? ==>
      Truthy(r.value.repository) && (r.value.chunkTokenLimit.None? <==> Arg(args, "chunkTokenLimit").JNull?)
  {
    var repository := Arg(args, "repository");
    if !Truthy(repository) then Raised(InvalidParams("'repository' is required"))
    else match OptionalInt(args, "chunkTokenLimit")
      case Raised(e) => Raised(e)
      case Crashed => Crashed
      case Done(chunkLimit) => ParseLists(args, config, chunkLimit)
  }

  /** The rest of the checks, once the repository and the chunk limit are
      read. */
  function ParseLists(args: Fields, config: McpConfig, chunkLimit: Option<int>): (r: Outcome<ProcessArgs>)
    ensures r.Raised? ==> r.error.code == -32602
    ensures r.Crashed? <==>
      PatternList(Arg(args, "ignorePatterns")).Crashed? || PatternList(Arg(args, "includePatterns")).Crashed?
      || ExtensionList(Arg(args, "allowedExtensions")).Crashed?
    ensures r.Raised? <==> !r.Crashed? && OptionalInt(args, "maxFileBytes").Raised?
    ensures r.Done? ==>
      && r.value.ignorePatterns == PatternList(Arg(args, "ignorePatterns")).value
      && r.value.includePatterns == PatternList(Arg(args, "includePatterns")).value
      && r.value.allowedExtensions == ExtensionList(Arg(args, "allowedExtensions")).value
      && OptionalInt(args, "maxFileBytes") == Done(r.value.maxFileBytes)
    ensures r.Done? ==>
      && r.value.repository == Arg(args, "repository") && r.value.ref == Arg(args, "ref")
      && r.value.chunkTokenLimit == chunkLimit
      && (r.value.maxFileBytes.None? <==> Arg(args, "maxFileBytes").JNull?)
      && r.value.allowNonCode == Truthy(Get(args, "allowNonCode").GetOr(JBool(false)))
      && r.value.githubPat == if Truthy(Arg(args, "githubPAT")) then Arg(args, "githubPAT") else OptionalStr(config.githubPat)
  {
    var ignore := PatternList(Arg(args, "ignorePatterns"));
    var included := PatternList(Arg(args, "includePatterns"));
    var extensions := ExtensionList(Arg(args, "allowedExtensions"));
    if !ignore.Done? || !included.Done? || !extensions.Done? then Crashed
    else match OptionalInt(args, "maxFileBytes")
      case Raised(e) => Raised(e)
      case Crashed => Crashed
      case Done(maxFileBytes) =>
        var pat := Arg(args, "githubPAT");
        Done(ProcessArgs(Arg(args, "repository"), Arg(args, "ref"), chunkLimit, ignore.value, included.value,
                         extensions.value, Truthy(Get(args, "allowNonCode").GetOr(JBool(false))), maxFileBytes,
                         if Truthy(pat) then pat else OptionalStr(config.githubPat)))
  }

  /** A call naming only a repository path gets the defaults: no ref, no
      limits, no extra patterns or extensions, code files only, and the
      configured token. */
  lemma RepositoryOnly(path: string, config: McpConfig)
    requires path != ""
    ensures ParseProcessArgs([("repository", JStr(path))], config)
      == Done(ProcessArgs(JStr(path), JNull, None, [], [], [], false, None, OptionalStr(config.githubPat)))
  {
    var args := [("repository", JStr(path))];
    assert Arg(args, "repository") == JStr(path);
    OnlyKey(args, "chunkTokenLimit");
    OnlyKey(args, "ref");
    OnlyKey(args, "ignorePatterns");
    OnlyKey(args, "includePatterns");
    OnlyKey(args, "allowedExtensions");
    OnlyKey(args, "allowNonCode");
    OnlyKey(args, "maxFileBytes");
    OnlyKey(args, "githubPAT");
    assert PatternList(JNull) == Done([]);
    assert ExtensionList(JNull) == Done([]);
  }

  lemma OnlyKey(args: Fields, key: string)
    requires |args| == 1 && args[0].0 == "repository" && |key| != |"repository"|
    ensures Get(args, key) == None
  {
  }

  /** How `_build_processing_options` writes one requested extension,
      already lowercased: with a leading dot, lowercased again. */
  function McpExtension(ext: string): string {
    Lower(if StartsWith(ext, ".") then ext else "." + ext)
  }

  /** The MCP server normalises a requested extension exactly as the
      HTTP API does. */
  lemma McpExtensionAgrees(ext: string)
    ensures McpExtension(Lower(ext)) == NormalizeExtension(ext)
  {
    var lowered := Lower(ext);
    LowerIdempotent(ext);
    if !StartsWith(lowered, ".") {
      var dotted := "." + lowered;
      assert Lower(dotted)[0] == '.';
      assert Lower(dotted)[1..] == Lower(lowered);
      assert Lower(dotted) == "." + lowered;
    }
  }

  function McpExtensions(exts: seq<string>): set<string> {
    set k | 0 <= k < |exts| :: McpExtension(exts[k])
  }

  /** The options a `processRepo` call runs with, from the defaults
      `base`: its ignore patterns followed by the requested ones, its
      include patterns (none) followed by the requested ones, its
      extensions plus the requested ones, its always-included names, and
      the size limit and non-code switch as given. */
  function McpOptions(base: ProcessingOptions, ignore: seq<string>, included: seq<string>, exts: seq<string>,
                      allowNonCode: bool, maxFileBytes: Option<int>): ProcessingOptions
  {
    ProcessingOptions(base.ignorePatterns + ignore, base.includePatterns + included,
                      base.allowedExtensions + McpExtensions(exts), base.specialFilenames, maxFileBytes, allowNonCode)
  }

  /** For the extensions a request lists, the MCP options allow what the
      HTTP API would allow for the same list. */
  lemma McpOptionsLikeApi(base: ProcessingOptions, raw: seq<string>, ignore: seq<string>, included: seq<string>,
                          allowNonCode: bool, maxFileBytes: Option<int>)
    ensures McpOptions(base, ignore, included, Map(Lower, raw), allowNonCode, maxFileBytes).allowedExtensions
      == ExtendedExtensions(base.allowedExtensions, Some(raw))
  {
    var lowered := Map(Lower, raw);
    forall e ensures e in McpExtensions(lowered) <==> e in NormalizedExtensions(raw) {
      if e in McpExtensions(lowered) {
        var k :| 0 <= k < |lowered| && e == McpExtension(lowered[k]);
        McpExtensionAgrees(raw[k]);
      }
      if e in NormalizedExtensions(raw) {
        var k :| 0 <= k < |raw| && e == NormalizeExtension(raw[k]);
        McpExtensionAgrees(raw[k]);
        assert e == McpExtension(lowered[k]);
      }
    }
  }

  /** `_build_processing_options`: the defaults with the request's
      patterns, extensions and switches. */
  method BuildProcessingOptions(ignore: seq<string>, included: seq<string>, exts: seq<string>,
                                allowNonCode: bool, maxFileBytes: Option<int>)
    returns (options: ProcessingOptions)
    ensures options == McpOptions(Defaults(), ignore, included, exts, allowNonCode, maxFileBytes)
  {
    options := ExtendOptions(Defaults(), ignore, included, exts, allowNonCode, maxFileBytes);
  }

  /** The body of `_build_processing_options` after the defaults are
      copied: the pattern lists are extended, and the requested extensions
      are added one by one, each with a leading dot and lowercased. */
  method ExtendOptions(base: ProcessingOptions, ignore: seq<string>, included: seq<string>, exts: seq<string>,
                       allowNonCode: bool, maxFileBytes: Option<int>)
    returns (options: ProcessingOptions)
    ensures options == McpOptions(base, ignore, included, exts, allowNonCode, maxFileBytes)
  {
    var extensions := AddExtensions(base.allowedExtensions, exts);
    options := ProcessingOptions(base.ignorePatterns + ignore, base.includePatterns + included, extensions,
                                 base.specialFilenames, maxFileBytes, allowNonCode);
  }

  /** The loop of `_build_processing_options` over the requested
      extensions: each is given a leading dot if it lacks one and added
      lowercased. */
  method AddExtensions(start: set<string>, exts: seq<string>) returns (extensions: set<string>)
    ensures extensions == start + McpExtensions(exts)
  {
    extensions := start;
    var i := 0;
    while i < |exts|
      invariant 0 <= i <= |exts|
      invariant extensions == start + McpExtensions(exts[..i])
    {
      ExtensionsStep(exts, i);
      extensions := extensions + {McpExtension(exts[i])};
      i := i + 1;
    }
    assert exts[..i] == exts;
  }

  lemma ExtensionsStep(exts: seq<string>, i: nat)
    requires i < |exts|
    ensures McpExtensions(exts[..i + 1]) == McpExtensions(exts[..i]) + {McpExtension(exts[i])}
  {
    assert exts[..i + 1] == exts[..i] + [exts[i]];
    ExtensionsSnoc(exts[..i], exts[i]);
  }

  lemma ExtensionsSnoc(exts: seq<string>, ext: string)
    ensures McpExtensions(exts + [ext]) == McpExtensions(exts) + {McpExtension(ext)}
  {
    var xs := exts + [ext];
    assert McpExtension(ext) == McpExtension(xs[|exts|]);
    forall e | e in McpExtensions(exts) ensures e in McpExtensions(xs) {
      var k :| 0 <= k < |exts| && e == McpExtension(exts[k]);
      assert xs[k] == exts[k];
    }
  }

  /** `max(1, min(limit, 50))` */
  function Clamp(limit: int): (r: int)
    ensures 1 <= r <= 50
    ensures 1 <= limit <= 50 ==> r == limit
    ensures limit < 1 ==> r == 1
    ensures limit > 50 ==> r == 50
  {
    var low := if limit < 50 then limit else 50;
    if low > 1 then low else 1
  }

  /** The limit `_tool_list_recent_jobs` lists: the `limit` argument (10
      when missing) clamped to 1..50, or -32602 when `int()` refuses it. */
  function RecentLimit(args: Fields): (r: Outcome<int>)
    ensures r.Crashed? == false
    ensures Get(args, "limit").None? ==> r == Done(10)
    ensures r.Raised? ==> r.error == NotAnInteger("limit")
    ensures r.Done? ==> 1 <= r.value <= 50
  {
    match PyInt(Get(args, "limit").GetOr(JInt(10)))
    case None => Raised(NotAnInteger("limit"))
    case Some(n) => Done(Clamp(n))
  }

  /** The limit is clamped, not refused: any integer argument lists
      between one and fifty jobs' worth, its own value when in range. */
  lemma RecentLimitClamps(n: int)
    ensures RecentLimit([("limit", JInt(n))]) == Done(Clamp(n))
    ensures RecentLimit([("limit", JStr(IntToString(n)))]) == Done(Clamp(n))
    ensures RecentLimit([("limit", JNull)]).Raised?
  {
    PyIntReadsDecimal(n);
  }

  /** The names `_handle_call_tool` dispatches on, in its order. */
  const ToolNames: seq<string> := ["processRepo", "listRecentJobs", "getArtifact"]

  /** One property of an input schema. */
  function Property(typeName: Json, description: string): Json {
    JObj([("type", typeName), ("description", JStr(description))])
  }

  function Nullable(typeName: string): Json {
    JArr([JStr(typeName), JStr("null")])
  }

  function StringList(description: string): Json {
    JObj([("type", JStr("array")), ("items", JObj([("type", JStr("string"))])), ("description", JStr(description))])
  }

  function Tool(name: string, description: string, schema: Fields): Json {
    JObj([("name", JStr(name)), ("description", JStr(description)), ("inputSchema", JObj(schema))])
  }

  /** The `limit` schema `listTools` advertises. */
  function LimitSchema(): Fields {
    [("type", JStr("integer")), ("minimum", JInt(1)), ("maximum", JInt(50)), ("default", JInt(10))]
  }

  /** The description and input schema of each tool. */
  datatype ToolDocs = ToolDocs(processRepo: (string, Fields), listRecentJobs: (string, Fields), getArtifact: (string, Fields))

  /** The tool entries, in the order `_handle_list_tools` lists them. */
  function Tools(docs: ToolDocs): seq<Json> {
    [ Tool("processRepo", docs.processRepo.0, docs.processRepo.1),
      Tool("listRecentJobs", docs.listRecentJobs.0, docs.listRecentJobs.1),
      Tool("getArtifact", docs.getArtifact.0, docs.getArtifact.1) ]
  }

  /** The descriptions and schemas `_handle_list_tools` gives. */
  function Docs(): ToolDocs {
    ToolDocs(
      ("Process a repository path or Git URL into repo2GPT artifacts.",
        [ ("type", JStr("object")),
          ("properties", JObj([
            ("repository", Property(JStr("string"), "Filesystem path or Git URL to process.")),
            ("ref", Property(Nullable("string"), "Optional Git ref (branch, tag, or commit).")),
            ("chunkTokenLimit", Property(Nullable("integer"), "Optional maximum tokens per chunk.")),
            ("ignorePatterns", StringList("Additional glob patterns to ignore.")),
            ("includePatterns", StringList("Additional glob patterns to include.")),
            ("allowedExtensions", StringList("Extra file extensions to treat as code.")),
            ("allowNonCode", Property(JStr("boolean"), "Include non-code files in the snapshot.")),
            ("maxFileBytes", Property(Nullable("integer"), "Skip files larger than this size in bytes.")),
            ("githubPAT", Property(Nullable("string"), "Personal access token for private GitHub repositories."))])),
          ("required", JArr([JStr("repository")])) ]),
      ("List recently completed MCP jobs and their artifacts.",
        [ ("type", JStr("object")),
          ("properties", JObj([("limit", JObj(LimitSchema()))])) ]),
      ("Fetch the contents of a previously generated artifact.",
        [ ("type", JStr("object")),
          ("properties", JObj([("artifactId", Property(JStr("string"), "Identifier returned by processRepo."))])),
          ("required", JArr([JStr("artifactId")])) ]))
  }

  /** `_handle_list_tools`, around the descriptions and schemas of
      `Docs`. */
  function ToolList(docs: ToolDocs): Fields {
    [("tools", JArr(Tools(docs)))]
  }

  /** The tools `listTools` advertises are the ones `callTool` dispatches,
      in the same order, whatever their descriptions say. */
  lemma ToolNamesListed(docs: ToolDocs)
    ensures |Tools(docs)| == |ToolNames|
    ensures forall k :: 0 <= k < |ToolNames| ==>
      Tools(docs)[k].JObj? && Get(Tools(docs)[k].fields, "name") == Some(JStr(ToolNames[k]))
  {
    forall k | 0 <= k < |ToolNames|
      ensures Get(Tools(docs)[k].fields, "name") == Some(JStr(ToolNames[k]))
    {
      GetFirst(Tools(docs)[k].fields, "name", 0);
    }
  }

  /** The range and default `listTools` advertises for `limit` are the
      ones `listRecentJobs` enforces. */
  lemma LimitSchemaEnforced(n: int)
    ensures Get(LimitSchema(), "minimum") == Some(JInt(1)) && Get(LimitSchema(), "maximum") == Some(JInt(50))
    ensures Get(LimitSchema(), "default") == Some(JInt(10)) && RecentLimit([]) == Done(10)
    ensures RecentLimit([("limit", JInt(n))]).value >= 1 && RecentLimit([("limit", JInt(n))]).value <= 50
  {
    GetFirst(LimitSchema(), "minimum", 1);
    GetFirst(LimitSchema(), "maximum", 2);
    GetFirst(LimitSchema(), "default", 3);
  }

  /** `_handle_initialize`: the protocol version, the server's name and
      version, its capabilities, and which settings are configured. */
  function Initialize(config: McpConfig): Fields {
    [ ("protocolVersion", JStr(JsonRpcVersion)),
      ("serverInfo", JObj([("name", JStr("repo2gpt-mcp")), ("version", JStr("0.1.0"))])),
      ("capabilities", JObj([
        ("tools", JObj([("list", JBool(true)), ("call", JBool(true))])),
        ("jobs", JObj([("list", JBool(true))])),
        ("artifacts", JObj([("get", JBool(true))]))])),
      ("configuration", JObj([
        ("githubPATConfigured", JBool(Configured(config.githubPat))),
        ("geminiConfigured", JBool(Configured(config.geminiApiKey))),
        ("geminiModel", OptionalStr(config.geminiModel))])) ]
  }

  /** `initialize` names the server and reports a token or key as
      configured exactly when it is a nonempty string, and the model as
      given. */
  lemma InitializeReports(config: McpConfig)
    ensures Get(Initialize(config), "serverInfo") == Some(JObj([("name", JStr("repo2gpt-mcp")), ("version", JStr("0.1.0"))]))
    ensures Get(Initialize(config), "configuration").Some?
    ensures var c := Get(Initialize(config), "configuration").value;
      && c.JObj?
      && Get(c.fields, "githubPATConfigured") == Some(JBool(config.githubPat.Some? && config.githubPat.value != ""))
      && Get(c.fields, "geminiConfigured") == Some(JBool(config.geminiApiKey.Some? && config.geminiApiKey.value != ""))
      && Get(c.fields, "geminiModel") == Some(if config.geminiModel.Some? then JStr(config.geminiModel.value) else JNull)
  {
    var d := Initialize(config);
    GetFirst(d, "serverInfo", 1);
    GetFirst(d, "configuration", 3);
    var c := d[3].1.fields;
    GetFirst(c, "githubPATConfigured", 0);
    GetFirst(c, "geminiConfigured", 1);
    GetFirst(c, "geminiModel", 2);
  }

  /** What `_tool_process_repo` hands to the preparation and collection
      steps (resolving or cloning the repository, then
      `collect_repo_snapshot`). */
  datatype CollectRequest = CollectRequest(
    repository: Json, ref: Json, githubPat: Json, options: ProcessingOptions, chunkTokenLimit: Option<int>)

  /** How preparing and collecting a repository ends: a snapshot, a
      `GitCommandError`, or any other exception, with its text. */
  datatype Work = Prepared(snapshot: RepoSnapshot) | CloneError(message: string) | OtherError(message: string)
}
