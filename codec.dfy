/** File names, the two serialisation formats, and reading/writing a
    configuration file by suffix (`from_file`, `dump_file`). The YAML and JSON
    libraries are not modelled: a `Libraries` value carries their load and dump as
    uninterpreted function values. */
module Codec {
  import opened Values

  datatype Format = Yaml | Json

  /** The parser (`load`, None when the bytes are malformed) and the
      serialiser (`dump`) of the YAML and JSON libraries. */
  datatype Libraries = Libraries(load: (Format, Bytes) -> Option<Value>, dump: (Format, Value) -> Bytes)

  /** What the libraries are trusted to do: what is dumped loads back unchanged. */
  ghost predicate RoundTrips(c: Libraries)
  {
    forall f: Format, v: Value :: c.load(f, c.dump(f, v)) == Some(v)
  }

  /** The part of the path after its last `/`. */
  function LastComponent(p: string): string
    decreases |p|
  {
    if p == "" || p[|p| - 1] == '/' then ""
    else LastComponent(p[..|p| - 1]) + [p[|p| - 1]]
  }

  /** The path with its trailing slashes removed. */
  function StripTrailing(p: string): string
    decreases |p|
  {
    if p != "" && p[|p| - 1] == '/' then StripTrailing(p[..|p| - 1]) else p
  }

  /** `PurePath.name`: the last non-empty component. */
  function Name(p: string): string
  {
    LastComponent(StripTrailing(p))
  }

  /** Index of the last `.` in s, or -1. */
  function LastDot(s: string): int
    decreases |s|
  {
    if s == [] then -1
    else if s[|s| - 1] == '.' then |s| - 1
    else LastDot(s[..|s| - 1])
  }

  /** `PurePath.suffix`: from the last dot of the name, provided that dot is
      neither the first nor the last character of the name; else "". */
  function Suffix(p: string): string
  {
    var name := Name(p);
    var i := LastDot(name);
    if 0 < i < |name| - 1 then name[i..] else ""
  }

  /** The last component is a slash-free end of the path. */
  lemma {:induction false} LastComponentShape(p: string)
    ensures '/' !in LastComponent(p)
    ensures |LastComponent(p)| <= |p| && LastComponent(p) == p[|p| - |LastComponent(p)|..]
    decreases |p|
  {
    if p != "" && p[|p| - 1] != '/' {
      var q := p[..|p| - 1];
      LastComponentShape(q);
      assert p == q + [p[|p| - 1]];
    }
  }

  /** Stripping leaves a prefix of the path that does not end in `/`. */
  lemma {:induction false} StripTrailingShape(p: string)
    ensures |StripTrailing(p)| <= |p| && StripTrailing(p) == p[..|StripTrailing(p)|]
    ensures StripTrailing(p) == "" || StripTrailing(p)[|StripTrailing(p)| - 1] != '/'
    decreases |p|
  {
    if p != "" && p[|p| - 1] == '/' {
      var q := p[..|p| - 1];
      StripTrailingShape(q);
      assert q[..|StripTrailing(q)|] == p[..|StripTrailing(q)|];
    }
  }

  /** LastDot finds the last dot, if there is one. */
  lemma {:induction false} LastDotShape(s: string)
    ensures -1 <= LastDot(s) < |s|
    ensures LastDot(s) >= 0 ==> s[LastDot(s)] == '.'
    ensures forall j :: LastDot(s) < j < |s| ==> s[j] != '.'
    decreases |s|
  {
    if s != [] && s[|s| - 1] != '.' {
      LastDotShape(s[..|s| - 1]);
    }
  }

  /** A non-empty suffix is a dot followed by at least one dot-free,
      slash-free character, and it ends the name without being all of it. */
  lemma SuffixShape(p: string)
    ensures '/' !in Name(p)
    ensures var r := Suffix(p);
      && (r != "" ==> |r| >= 2 && r[0] == '.' && '.' !in r[1..])
      && (r != "" ==> |r| < |Name(p)| && r == Name(p)[|Name(p)| - |r|..])
      && '/' !in r
  {
    LastComponentShape(StripTrailing(p));
    LastDotShape(Name(p));
  }

  /** A path without a dot has no suffix. */
  lemma DotFreeHasNoSuffix(p: string)
    requires '.' !in p
    ensures Suffix(p) == ""
  {
    var q := StripTrailing(p);
    StripTrailingShape(p);
    var n := LastComponent(q);
    LastComponentShape(q);
    var k := |q| - |n|;
    assert forall j :: 0 <= j < |n| ==> n[j] == p[k + j];
    assert forall j :: 0 <= j < |n| ==> n[j] != '.' by {
      forall j | 0 <= j < |n| ensures n[j] != '.' {
        assert p[k + j] in p;
      }
    }
    LastDotShape(n);
  }

  /** The suffixes `from_file` decodes (src/np_config.py:46-49). */
  function ReadFormat(suffix: string): (r: Option<Format>)
  {
    if suffix == ".yaml" || suffix == ".yml" then Some(Yaml)
    else if suffix == ".json" then Some(Json)
    else None
  }

  /** The suffixes `dump_file` encodes (src/np_config.py:83-86); each of them
      is read back in the format it was written in. */
  function DumpFormat(suffix: string): (r: Option<Format>)
    ensures r.Some? ==> ReadFormat(suffix) == r
    ensures suffix == ".yml" ==> r.None? && ReadFormat(suffix).Some?
  {
    if suffix == ".yaml" then Some(Yaml)
    else if suffix == ".json" then Some(Json)
    else None
  }

  /** `from_file(path)`, given the file's contents (None: it does not exist).
      The file is opened before the suffix is looked at, so a missing file
      fails first; a falsy document becomes `{}`. */
  function FromFile(c: Libraries, path: string, content: Option<Bytes>): (r: Result<Value>)
    ensures content.None? ==> r == Err(FileMissing(path))
    ensures content.Some? && ReadFormat(Suffix(path)).None? ==> r == Err(BadSuffix(path))
    ensures r.Ok? <==> content.Some? && ReadFormat(Suffix(path)).Some?
                       && c.load(ReadFormat(Suffix(path)).value, content.value).Some?
    ensures r.Ok? ==> r.value == OrEmpty(c.load(ReadFormat(Suffix(path)).value, content.value).value)
    ensures r.Ok? ==> Truthy(r.value) || r.value == Dict(map[])
  {
    if content.None? then Err(FileMissing(path))
    else match ReadFormat(Suffix(path))
      case None => Err(BadSuffix(path))
      case Some(f) =>
        match c.load(f, content.value)
        case None => Err(Malformed)
        case Some(v) => Ok(OrEmpty(v))
  }

  /** What `dump_file` leaves behind. */
  datatype Dumped =
    | Wrote(bytes: Bytes)  // the file now holds the encoding
    | Truncated            // opened for writing (emptied), then ValueError
    | OpenFailed           // OSError before the file was touched

  /** `dump_file(config, path)`; `writable` says whether the operating system
      lets the directory be created and the file be opened for writing. */
  function DumpFile(c: Libraries, config: Value, path: string, writable: bool): Dumped
  {
    if !writable then OpenFailed
    else match DumpFormat(Suffix(path))
      case Some(f) => Wrote(c.dump(f, config))
      case None => Truncated
  }

  /** The three outcomes of `dump_file`: an OSError exactly when the file
      cannot be opened; the encoding exactly when it can and the suffix is
      `.yaml` or `.json`; else an emptied file and ValueError. */
  lemma DumpFileOutcomes(c: Libraries, config: Value, path: string, writable: bool)
    ensures DumpFile(c, config, path, writable).OpenFailed? <==> !writable
    ensures DumpFile(c, config, path, writable).Wrote? <==> writable && DumpFormat(Suffix(path)).Some?
    ensures DumpFile(c, config, path, writable).Wrote? ==>
              DumpFile(c, config, path, writable).bytes == c.dump(DumpFormat(Suffix(path)).value, config)
  {
  }

  /** A mapping written by `dump_file` is read back by `from_file` unchanged. */
  lemma DumpThenRead(c: Libraries, m: map<string, Value>, path: string)
    requires RoundTrips(c)
    requires DumpFile(c, Dict(m), path, true).Wrote?
    ensures FromFile(c, path, Some(DumpFile(c, Dict(m), path, true).bytes)) == Ok(Dict(m))
  {
    var f := DumpFormat(Suffix(path)).value;
    assert c.load(f, c.dump(f, Dict(m))) == Some(Dict(m));
  }

  /** The ZooKeeper-style key `/rigs/NP.1` has the suffix `.1`. */
  lemma DottedKeyHasSuffix()
    ensures Suffix("/rigs/NP.1") == ".1"
  {
    var p := "/rigs/NP.1";
    assert StripTrailing(p) == p;
    LastComponentOfKey();
    assert "NP.1"[..3] == "NP." && LastDot("NP.1") == 2;
  }

  lemma LastComponentOfKey()
    ensures LastComponent("/rigs/NP.1") == "NP.1"
  {
    var p := "/rigs/NP.1";
    assert p[..9] == "/rigs/NP.";
    assert "/rigs/NP."[..8] == "/rigs/NP";
    assert "/rigs/NP"[..7] == "/rigs/N";
    assert "/rigs/N"[..6] == "/rigs/";
  }
}
