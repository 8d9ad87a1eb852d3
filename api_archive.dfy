/** The choice of extractor in `_extract_archive`: the archive's suffixes
    select the zip reader or a tar mode from a fixed table. Opening and
    extracting the archive are not modelled. */
module ApiArchive {
  import opened Basics
  import opened ServiceFilter


  /** `PurePath(name).suffix`: from the last dot, unless that dot is the
      first or the last character of the name. */
  function Suffix(name: string): (r: string)
    ensures r == "" || (r[0] == '.' && |r| >= 2 && EndsWith(name, r) && |r| < |name|)
    ensures forall j :: 1 <= j < |r| ==> r[j] != '.'
  {
    var i := LastIndex(name, '.');
    if 0 < i < |name| - 1 then name[i..] else ""
  }

  /** `PurePath(name).suffixes`: the dotted parts after the first one, once
      leading dots are dropped; none for a name ending in a dot. */
  function Suffixes(name: string): (r: seq<string>)
    ensures EndsWith(name, ".") ==> r == []
  {
    if EndsWith(name, ".") then []
    else
      var parts := Split(LStripChar(name, '.'), '.');
      seq(|parts| - 1, k requires 0 <= k < |parts| - 1 => "." + parts[k + 1])
  }

  /** The suffix `_extract_archive` looks up first: the last two suffixes
      together when there are two or more, else the last suffix. */
  function CompoundSuffix(name: string): string {
    var s := Suffixes(name);
    if |s| >= 2 then s[|s| - 2] + s[|s| - 1] else Suffix(name)
  }

  /** Every suffix starts with a dot and has the dot-free text that follows
      it in the name. */
  lemma SuffixesDotted(name: string)
    ensures forall k :: 0 <= k < |Suffixes(name)| ==>
      |Suffixes(name)[k]| >= 1 && Suffixes(name)[k][0] == '.' && '.' !in Suffixes(name)[k][1..]
  {
    if !EndsWith(name, ".") {
      var parts := Split(LStripChar(name, '.'), '.');
      forall k | 0 <= k < |Suffixes(name)|
        ensures |Suffixes(name)[k]| >= 1 && Suffixes(name)[k][0] == '.' && '.' !in Suffixes(name)[k][1..]
      {
        assert Suffixes(name)[k] == "." + parts[k + 1];
        assert Suffixes(name)[k][1..] == parts[k + 1];
      }
    }
  }

  /** The `tar_modes` table. */
  function TarMode(suffix: string): (r: Option<string>)
    ensures r.Some? ==> r.value in {"r:", "r:gz", "r:bz2", "r:xz"}
  {
    if suffix == ".tar" then Some("r:")
    else if suffix == ".tar.gz" || suffix == ".tgz" then Some("r:gz")
    else if suffix == ".tar.bz2" || suffix == ".tbz" || suffix == ".tbz2" then Some("r:bz2")
    else if suffix == ".tar.xz" || suffix == ".txz" then Some("r:xz")
    else None
  }

  /** How an archive is opened. */
  datatype Extractor = Zip | Tar(mode: string)

  /** The extractor selection of `_extract_archive` for an archive whose
      final path component is `name`. */
  function ArchiveExtractor(name: string): (r: Result<Extractor, string>)
    ensures r == Ok(Zip) <==> Suffix(name) == ".zip"
    ensures r.Err? <==>
      Suffix(name) != ".zip" && TarMode(CompoundSuffix(name)).None? && TarMode(Suffix(name)).None?
    ensures r.Err? ==> r.error == "Unsupported archive format: " + Suffix(name)
    ensures r.Ok? && r.value.Tar? ==>
      TarMode(CompoundSuffix(name)) == Some(r.value.mode)
      || (TarMode(CompoundSuffix(name)).None? && TarMode(Suffix(name)) == Some(r.value.mode))
  {
    if Suffix(name) == ".zip" then Ok(Zip)
    else
      var mode := TarMode(CompoundSuffix(name));
      if mode.Some? then Ok(Tar(mode.value))
      else if TarMode(Suffix(name)).Some? then Ok(Tar(TarMode(Suffix(name)).value))
      else Err("Unsupported archive format: " + Suffix(name))
  }

  /** A single dotted suffix: a dot followed by at least one character and
      no further dot. */
  predicate Dotted(ext: string) {
    |ext| >= 2 && ext[0] == '.' && forall j :: 1 <= j < |ext| ==> ext[j] != '.'
  }

  /** The dot-free body of a dotted suffix. */
  lemma DottedBody(ext: string)
    requires Dotted(ext)
    ensures ext == "." + ext[1..] && ext[1..] != [] && '.' !in ext[1..]
  {
    forall j | 0 <= j < |ext[1..]| ensures ext[1..][j] != '.' {
      assert ext[1..][j] == ext[j + 1];
    }
  }

  /** Splitting dot-free parts joined by dots gives them back. */
  lemma SplitParts(parts: seq<string>)
    requires |parts| >= 1 && forall k :: 0 <= k < |parts| ==> '.' !in parts[k]
    ensures Split(Join(".", parts), '.') == parts
  {
    SplitJoin(parts, '.');
  }

  /** The suffixes of a name that does not start or end with a dot are its
      dotted parts after the first. */
  lemma SuffixesOfParts(name: string, parts: seq<string>)
    requires |parts| >= 1 && name == Join(".", parts)
    requires forall k :: 0 <= k < |parts| ==> '.' !in parts[k]
    requires name != [] && name[0] != '.' && name[|name| - 1] != '.'
    ensures |Suffixes(name)| == |parts| - 1
    ensures forall k :: 0 <= k < |parts| - 1 ==> Suffixes(name)[k] == "." + parts[k + 1]
  {
    assert !EndsWith(name, ".") by {
      assert name[|name| - 1..][0] == name[|name| - 1];
    }
    assert LStripChar(name, '.') == name;
    SplitParts(parts);
  }

  /** The suffix of a name is what follows its last dot, when that dot is
      neither first nor last. */
  lemma SuffixAfter(name: string, i: nat)
    requires 0 < i < |name| - 1 && name[i] == '.'
    requires forall k :: i < k < |name| ==> name[k] != '.'
    ensures Suffix(name) == name[i..]
  {
    LastIndexAt(name, '.', i);
  }

  /** A name made of a dot-free stem and one dotted suffix. */
  lemma OnePartName(stem: string, ext: string)
    requires stem != [] && '.' !in stem && Dotted(ext)
    ensures Suffixes(stem + ext) == [ext]
    ensures Suffix(stem + ext) == ext
    ensures CompoundSuffix(stem + ext) == ext
  {
    OneSuffix(stem + ext, stem, ext);
    TailAt(stem, ext);
    SuffixAfter(stem + ext, |stem|);
  }

  /** The suffixes of a stem followed by one dotted part. */
  lemma OneSuffix(name: string, stem: string, e: string)
    requires stem != [] && '.' !in stem && Dotted(e)
    requires name == stem + e
    ensures Suffixes(name) == [e]
  {
    DottedBody(e);
    assert Join(".", [stem, e[1..]]) == name by {
      assert Join(".", [stem, e[1..]]) == stem + "." + Join(".", [e[1..]]);
    }
    assert name[0] == stem[0] && name[|name| - 1] == e[|e| - 1];
    SuffixesOfParts(name, [stem, e[1..]]);
    SingleOf(Suffixes(name), e);
  }

  /** A one-element sequence, given by its element. */
  lemma SingleOf<T>(s: seq<T>, a: T)
    requires |s| == 1 && s[0] == a
    ensures s == [a]
  {
  }

  /** A name made of a dot-free stem and a suffix of two dotted parts,
      the second starting at `i`. */
  lemma TwoPartName(stem: string, ext: string, i: nat)
    requires stem != [] && '.' !in stem && i <= |ext| && Dotted(ext[..i]) && Dotted(ext[i..])
    ensures Suffixes(stem + ext) == [ext[..i], ext[i..]]
    ensures Suffix(stem + ext) == ext[i..]
    ensures CompoundSuffix(stem + ext) == ext
  {
    PiecesOf(stem, ext, i);
    TwoSuffixes(stem + ext, stem, ext[..i], ext[i..]);
    SuffixAfter(stem + ext, |stem| + i);
  }

  /** The suffixes of a stem followed by two dotted parts. */
  lemma TwoSuffixes(name: string, stem: string, e1: string, e2: string)
    requires stem != [] && '.' !in stem && Dotted(e1) && Dotted(e2)
    requires name == stem + e1 + e2
    ensures Suffixes(name) == [e1, e2]
  {
    DottedBody(e1);
    DottedBody(e2);
    JoinThree(stem, e1[1..], e2[1..]);
    assert name[0] == stem[0] && name[|name| - 1] == e2[|e2| - 1];
    SuffixesOfParts(name, [stem, e1[1..], e2[1..]]);
    PairOf(Suffixes(name), e1, e2);
  }

  /** A two-element sequence, given element by element. */
  lemma PairOf<T>(s: seq<T>, a: T, b: T)
    requires |s| == 2 && s[0] == a && s[1] == b
    ensures s == [a, b]
  {
  }

  /** Slices of a name built from a stem and a suffix. */
  lemma PiecesOf(stem: string, ext: string, i: nat)
    requires i <= |ext|
    ensures ext[..i] + ext[i..] == ext
    ensures (stem + ext)[|stem| + i..] == ext[i..]
    ensures stem != [] ==> (stem + ext)[0] == stem[0]
    ensures i < |ext| ==> (stem + ext)[|stem + ext| - 1] == ext[|ext| - 1]
  {
  }

  /** Three parts joined by dots. */
  lemma JoinThree(stem: string, a: string, b: string)
    ensures Join(".", [stem, a, b]) == stem + ("." + a) + ("." + b)
  {
    assert Join(".", [stem, a, b]) == stem + "." + Join(".", [a, b]);
    assert Join(".", [a, b]) == a + "." + Join(".", [b]);
  }

  /** The last occurrence of `c` is at `i` when none follows it. */
  lemma LastIndexAt(s: string, c: char, i: nat)
    requires i < |s| && s[i] == c && c !in s[i + 1..]
    ensures LastIndex(s, c) == i
  {
    forall k | i < k < |s|
      ensures s[k] != c
    {
      assert s[k] == s[i + 1..][k - i - 1];
    }
  }

  /** For a plain file name with one suffix, that suffix alone decides. */
  lemma OnePartSelection(stem: string, ext: string)
    requires stem != [] && '.' !in stem && Dotted(ext)
    ensures ArchiveExtractor(stem + ext) ==
      if ext == ".zip" then Ok(Zip)
      else if TarMode(ext).Some? then Ok(Tar(TarMode(ext).value))
      else Err("Unsupported archive format: " + ext)
  {
    OnePartName(stem, ext);
  }

  /** A plain file name ending in `.zip` selects the zip extractor. */
  lemma ZipSelected(stem: string)
    requires stem != [] && '.' !in stem
    ensures ArchiveExtractor(stem + ".zip") == Ok(Zip)
  {
    OnePartSelection(stem, ".zip");
  }

  /** `.tgz` selects the gzip tar mode for a plain file name. */
  lemma TgzSelected(stem: string)
    requires stem != [] && '.' !in stem
    ensures ArchiveExtractor(stem + ".tgz") == Ok(Tar("r:gz"))
  {
    OnePartSelection(stem, ".tgz");
  }

  /** `.tar.gz` selects the gzip tar mode for a plain file name. */
  lemma TarGzSelected(stem: string)
    requires stem != [] && '.' !in stem
    ensures ArchiveExtractor(stem + ".tar.gz") == Ok(Tar("r:gz"))
  {
    TwoPartName(stem, ".tar.gz", 4);
  }

  /** A bare `.gz` names no tar mode: such a file is refused. */
  lemma CompressedFileRefused(stem: string)
    requires stem != [] && '.' !in stem
    ensures ArchiveExtractor(stem + ".gz").Err?
  {
    ShortSuffix(".gz");
    OnePartSelection(stem, ".gz");
  }

  /** Every suffix of the table, and `.zip`, has at least four characters. */
  lemma ShortSuffix(x: string)
    requires |x| < 4
    ensures TarMode(x).None? && x != ".zip"
  {
  }

  /** A dotted part before `.tgz` (a version, say) does not hide it: the
      two suffixes together name no tar mode, and the lookup falls back to
      the last suffix. */
  lemma VersionedTgz(stem: string, version: string)
    requires stem != [] && '.' !in stem && Dotted(version)
    ensures ArchiveExtractor(stem + version + ".tgz") == Ok(Tar("r:gz"))
  {
    UnlistedTgz(version);
    Fallback(stem, version, ".tgz");
  }

  /** When the two suffixes together name no tar mode, the last one alone
      decides. */
  lemma Fallback(stem: string, version: string, ext: string)
    requires stem != [] && '.' !in stem && Dotted(version) && Dotted(ext)
    requires ext != ".zip" && TarMode(version + ext).None?
    ensures ArchiveExtractor(stem + version + ext) ==
      if TarMode(ext).Some? then Ok(Tar(TarMode(ext).value))
      else Err("Unsupported archive format: " + ext)
  {
    VersionedSuffixes(stem, version, ext);
  }

  /** The suffix and the compound suffix of a stem, a dotted part and a
      dotted extension. */
  lemma VersionedSuffixes(stem: string, version: string, ext: string)
    requires stem != [] && '.' !in stem && Dotted(version) && Dotted(ext)
    ensures Suffix(stem + version + ext) == ext
    ensures CompoundSuffix(stem + version + ext) == version + ext
  {
    var name := stem + version + ext;
    TwoSuffixes(name, stem, version, ext);
    TailAt(stem + version, ext);
    SuffixAfter(name, |stem + version|);
  }

  /** A name ending in `.tgz` after at least one more character names no
      tar mode. */
  lemma UnlistedTgz(front: string)
    requires |front| >= 1
    ensures TarMode(front + ".tgz").None?
  {
    var x := front + ".tgz";
    assert x[|x| - 3] == ".tgz"[1];
    UnlistedTail(x);
  }

  /** Where the last part of a concatenation starts. */
  lemma TailAt(front: string, ext: string)
    requires Dotted(ext)
    ensures (front + ext)[|front|..] == ext && (front + ext)[|front|] == '.'
    ensures forall k :: |front| < k < |front + ext| ==> (front + ext)[k] != '.'
  {
    forall k | |front| < k < |front + ext| ensures (front + ext)[k] != '.' {
      assert (front + ext)[k] == ext[k - |front|];
    }
  }

  /** No suffix of the table of five or more characters has a `t` third
      from the end. */
  lemma UnlistedTail(x: string)
    requires |x| >= 5 && x[|x| - 3] == 't'
    ensures TarMode(x).None?
  {
  }
}
