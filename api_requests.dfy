/** The request helpers of the HTTP API: the API key check, the source type
    dispatch and the processing options built from a request. */
module ApiRequests {
  import opened Basics
  import opened JsonValues
  import opened ServiceFilter

  /** An `HTTPException`: status code and detail. */
  datatype HttpError = HttpError(status: nat, detail: string)

  /** `_verify_api_key`: with a nonempty `REPO2GPT_API_KEY` configured, the
      request's `X-API-Key` must equal it; otherwise every request passes. */
  function VerifyApiKey(expected: Option<string>, apiKey: Option<string>): (r: Option<HttpError>)
    ensures r.None? <==> expected.None? || expected.value == "" || apiKey == expected
    ensures r.Some? ==> r.value == HttpError(401, "Invalid API key")
  {
    if expected.Some? && expected.value != "" && apiKey != expected then Some(HttpError(401, "Invalid API key"))
    else None
  }

  /** The three kinds of job source. */
  datatype SourceKind = GitKind | ArchiveUrlKind | ArchiveUploadKind

  /** The `type` tag of each kind. */
  function Tag(k: SourceKind): string {
    match k
    case GitKind => "git"
    case ArchiveUrlKind => "archive_url"
    case ArchiveUploadKind => "archive_upload"
  }

  /** `_parse_source`: the `type` entry picks the model; any other value,
      or none, is a `ValueError` naming it. */
  function ParseSource(data: Fields): (r: Result<SourceKind, string>)
    ensures r.Ok? ==> Get(data, "type") == Some(JStr(Tag(r.value)))
    ensures r.Err? ==> r.error == "Unsupported source type: " + PyStr(Get(data, "type").GetOr(JNull))
  {
    var t := Get(data, "type");
    if t == Some(JStr("git")) then Ok(GitKind)
    else if t == Some(JStr("archive_url")) then Ok(ArchiveUrlKind)
    else if t == Some(JStr("archive_upload")) then Ok(ArchiveUploadKind)
    else Err("Unsupported source type: " + PyStr(t.GetOr(JNull)))
  }

  /** A source tagged with a kind's type parses as that kind: `Tag` and
      `ParseSource` are inverse. */
  lemma ParseTagged(k: SourceKind, rest: Fields)
    ensures ParseSource([("type", JStr(Tag(k)))] + rest) == Ok(k)
  {
    GetFirst([("type", JStr(Tag(k)))] + rest, "type", 0);
  }

  /** A source without a type is refused naming `None`. */
  lemma UntypedSourceRefused(data: Fields)
    requires forall k :: 0 <= k < |data| ==> data[k].0 != "type"
    ensures PyStr(JNull) == "None"
    ensures ParseSource(data) == Err("Unsupported source type: " + PyStr(JNull))
  {
    GetSpec(data, "type");
    assert Get(data, "type").None?;
  }

  // ---------------------------------------------------------------------
  // Processing options

  /** `ProcessingOptionsPayload`: every field optional. */
  datatype OptionsPayload = OptionsPayload(
    ignorePatterns: Option<seq<string>>,
    includePatterns: Option<seq<string>>,
    allowedExtensions: Option<seq<string>>,
    specialFilenames: Option<seq<string>>,
    maxFileBytes: Option<int>,
    allowNonCode: Option<bool>)

  /** A list option that Python finds truthy: given and not empty. */
  predicate Given(xs: Option<seq<string>>) {
    xs.Some? && xs.value != []
  }

  /** An allowed extension as the request normalises it: lowercased, with
      a leading dot added when missing. */
  function NormalizeExtension(ext: string): (r: string)
    ensures |r| >= 1 && r[0] == '.'
    ensures r == Lower(ext) || r == "." + Lower(ext)
    ensures StartsWith(Lower(ext), ".") <==> r == Lower(ext)
  {
    var lowered := Lower(ext);
    if StartsWith(lowered, ".") then lowered else "." + lowered
  }

  /** Normalising twice changes nothing more. */
  lemma NormalizeExtensionIdempotent(ext: string)
    ensures NormalizeExtension(NormalizeExtension(ext)) == NormalizeExtension(ext)
  {
    var n := NormalizeExtension(ext);
    LowerIdempotent(Lower(ext));
    if n != Lower(ext) {
      LowerIdempotent(ext);
      assert Lower(n) == "." + Lower(Lower(ext)) by {
        assert Lower(n)[0] == '.';
        assert Lower(n)[1..] == Lower(Lower(ext));
      }
    } else {
      LowerIdempotent(ext);
    }
  }

  lemma LowerIdempotent(s: string)
    ensures Lower(Lower(s)) == Lower(s)
  {
  }

  /** The defaults' extensions, lowercased. */
  function LoweredDefaults(): set<string> {
    set e | e in CodeExtensions :: Lower(e)
  }

  /** The options a request starts from: the default ignore patterns, no
      include patterns, the default extensions and special names, no size
      limit and code files only. */
  function Defaults(): ProcessingOptions {
    ProcessingOptions(DefaultIgnorePatterns(), [], LoweredDefaults(), AlwaysIncludeFilenames, None, false)
  }

  /** The normalised form of every extension of a list. */
  function NormalizedExtensions(exts: seq<string>): set<string> {
    set k | 0 <= k < |exts| :: NormalizeExtension(exts[k])
  }

  /** A pattern option after a request's list: a truthy list is expanded
      and appended. */
  function ExtendedPatterns(patterns: seq<string>, extra: Option<seq<string>>): seq<string> {
    patterns + (if Given(extra) then Expanded(extra.value) else [])
  }

  /** The allowed extensions after a request's list: a truthy list adds
      its normalised forms. */
  function ExtendedExtensions(allowed: set<string>, extra: Option<seq<string>>): set<string> {
    allowed + (if Given(extra) then NormalizedExtensions(extra.value) else {})
  }

  /** The set of a list's elements. */
  function Elements(xs: seq<string>): set<string> {
    set k | 0 <= k < |xs| :: xs[k]
  }

  /** The options `_build_processing_options` derives from `base` (the
      defaults) and a request's payload. */
  function WithPayload(base: ProcessingOptions, payload: Option<OptionsPayload>): ProcessingOptions {
    match payload
    case None => base
    case Some(p) =>
      ProcessingOptions(
        ExtendedPatterns(base.ignorePatterns, p.ignorePatterns),
        ExtendedPatterns(base.includePatterns, p.includePatterns),
        ExtendedExtensions(base.allowedExtensions, p.allowedExtensions),
        base.specialFilenames + (if Given(p.specialFilenames) then Elements(p.specialFilenames.value) else {}),
        if p.maxFileBytes.Some? && p.maxFileBytes.value != 0 then p.maxFileBytes else base.maxFileBytes,
        if p.allowNonCode.Some? then p.allowNonCode.value else base.allowNonCode)
  }

  /** `_build_processing_options` */
  method BuildProcessingOptions(payload: Option<OptionsPayload>) returns (options: ProcessingOptions)
    ensures options == WithPayload(Defaults(), payload)
  {
    options := ApplyPayload(Defaults(), payload);
  }

  /** The body of `_build_processing_options` after the defaults are set:
      each truthy field of the payload extends or replaces its option. */
  method ApplyPayload(base: ProcessingOptions, payload: Option<OptionsPayload>) returns (options: ProcessingOptions)
    ensures options == WithPayload(base, payload)
  {
    var ignorePatterns := base.ignorePatterns;
    var includePatterns := base.includePatterns;
    var allowedExtensions := base.allowedExtensions;
    var specialFilenames := base.specialFilenames;
    var maxFileBytes := base.maxFileBytes;
    var allowNonCode := base.allowNonCode;
    if payload.Some? {
      var p := payload.value;
      ignorePatterns := ExtendPatterns(ignorePatterns, p.ignorePatterns);
      includePatterns := ExtendPatterns(includePatterns, p.includePatterns);
      if Given(p.allowedExtensions) {
        allowedExtensions := AddExtensions(allowedExtensions, p.allowedExtensions.value);
      }
      if Given(p.specialFilenames) {
        specialFilenames := specialFilenames + Elements(p.specialFilenames.value);
      }
      if p.maxFileBytes.Some? && p.maxFileBytes.value != 0 {
        maxFileBytes := p.maxFileBytes;
      }
      if p.allowNonCode.Some? {
        allowNonCode := p.allowNonCode.value;
      }
    }
    options := ProcessingOptions(ignorePatterns, includePatterns, allowedExtensions, specialFilenames, maxFileBytes, allowNonCode);
  }

  /** A truthy list of patterns is expanded and appended to the option. */
  method ExtendPatterns(patterns: seq<string>, extra: Option<seq<string>>) returns (r: seq<string>)
    ensures r == ExtendedPatterns(patterns, extra)
  {
    r := patterns;
    if Given(extra) {
      var expanded := ExpandPatterns(extra.value);
      r := r + expanded;
    } else {
      assert r == patterns + [];
    }
  }

  /** The loop that adds the requested extensions to the allowed set. */
  method AddExtensions(allowed: set<string>, exts: seq<string>) returns (r: set<string>)
    ensures r == allowed + NormalizedExtensions(exts)
  {
    r := allowed;
    var i := 0;
    while i < |exts|
      invariant 0 <= i <= |exts|
      invariant r == allowed + NormalizedExtensions(exts[..i])
    {
      NormalizedStep(exts, i);
      r := r + {NormalizeExtension(exts[i])};
      i := i + 1;
    }
    assert exts[..i] == exts;
  }

  /** The loop's step: the prefix one longer adds one normal form. */
  lemma NormalizedStep(exts: seq<string>, i: nat)
    requires i < |exts|
    ensures NormalizedExtensions(exts[..i + 1]) == NormalizedExtensions(exts[..i]) + {NormalizeExtension(exts[i])}
  {
    assert exts[..i + 1] == exts[..i] + [exts[i]];
    NormalizedSnoc(exts[..i], exts[i]);
  }

  /** One more extension adds its normal form. */
  lemma NormalizedSnoc(exts: seq<string>, ext: string)
    ensures NormalizedExtensions(exts + [ext]) == NormalizedExtensions(exts) + {NormalizeExtension(ext)}
  {
    var xs := exts + [ext];
    assert NormalizeExtension(ext) == NormalizeExtension(xs[|exts|]);
    forall e | e in NormalizedExtensions(exts) ensures e in NormalizedExtensions(xs) {
      var k :| 0 <= k < |exts| && e == NormalizeExtension(exts[k]);
      assert xs[k] == exts[k];
    }
  }

  /** A request only ever adds to its base: the base's ignore patterns stay
      first, its extensions and special names stay allowed, a size limit
      is a truthy (nonzero) request value or inherited, and every requested extension admits the
      files that carry it, whatever their case. */
  lemma PayloadExtendsBase(base: ProcessingOptions, payload: Option<OptionsPayload>, fileName: string, k: nat)
    ensures var o := WithPayload(base, payload);
      && o.ignorePatterns[..|base.ignorePatterns|] == base.ignorePatterns
      && o.includePatterns[..|base.includePatterns|] == base.includePatterns
      && base.allowedExtensions <= o.allowedExtensions
      && base.specialFilenames <= o.specialFilenames
      && (o.maxFileBytes == base.maxFileBytes || (o.maxFileBytes.Some? && o.maxFileBytes.value != 0))
    ensures payload.Some? && Given(payload.value.allowedExtensions) && k < |payload.value.allowedExtensions.value|
            && Lower(Extension(fileName)) == NormalizeExtension(payload.value.allowedExtensions.value[k]) ==>
      IsCodeFile(fileName, WithPayload(base, payload))
  {
    var o := WithPayload(base, payload);
    assert o.ignorePatterns[..|base.ignorePatterns|] == base.ignorePatterns;
    assert o.includePatterns[..|base.includePatterns|] == base.includePatterns;
  }

  /** Without a payload, or with one whose fields are all unset or empty,
      the base options come back unchanged. */
  lemma EmptyPayloadKeepsBase(base: ProcessingOptions, payload: Option<OptionsPayload>)
    requires payload.Some? ==> var p := payload.value;
      !Given(p.ignorePatterns) && !Given(p.includePatterns) && !Given(p.allowedExtensions)
      && !Given(p.specialFilenames) && p.maxFileBytes.None? && p.allowNonCode.None?
    ensures WithPayload(base, payload) == base
  {
    assert base.ignorePatterns + [] == base.ignorePatterns;
    assert base.includePatterns + [] == base.includePatterns;
  }
}
